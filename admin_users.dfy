/** The admin user list's query (`Users` page): every `profiles` row, joined with
    its `user_limits` as `limits`, is normalised by filling defaults with the
    `||` operator and an array test, and passed on otherwise unchanged. */
module AdminUsers {
  import opened Wrappers

  /** A JSON value as the backend returns it. Numbers are exact reals. */
  datatype Value =
    | Null
    | Bool(b: bool)
    | Num(n: real)
    | Str(s: string)
    | Arr(items: seq<Value>)
    | Obj(fields: map<string, Value>)

  /** A row: an object's own fields. A key that is absent reads as `undefined`. */
  type Row = map<string, Value>

  /** The backend's answer to the select: rows (or `null`) and an optional error. */
  datatype Response = Response(data: Option<seq<Row>>, error: Option<string>)

  const BalanceKey := "balance"
  const WithdrawalFeeTypeKey := "withdrawal_fee_type"
  const WithdrawalFeeValueKey := "withdrawal_fee_value"
  const SendingFeeTypeKey := "sending_fee_type"
  const SendingFeeValueKey := "sending_fee_value"
  const LimitsKey := "limits"

  const DefaultFeeType := Str("percentage")

  /** The keys the normalisation writes; every other key is copied. */
  const FilledKeys: set<string> :=
    {BalanceKey, WithdrawalFeeTypeKey, WithdrawalFeeValueKey, SendingFeeTypeKey, SendingFeeValueKey, LimitsKey}

  /** JavaScript truthiness: `null`, `false`, `0` and `""` are falsy; arrays and objects are truthy. */
  function Truthy(v: Value): (truthy: bool)
    ensures !truthy <==> v in {Null, Bool(false), Num(0.0), Str("")}
  {
    match v
    case Null => false
    case Bool(b) => b
    case Num(n) => n != 0.0
    case Str(s) => s != ""
    case Arr(_) => true
    case Obj(_) => true
  }

  /** `row[key] || fallback`, where an absent key is `undefined` and so falsy. */
  function Or(row: Row, key: string, fallback: Value): (v: Value)
    ensures key in row && Truthy(row[key]) ==> v == row[key]
    ensures !(key in row && Truthy(row[key])) ==> v == fallback
    // the result is truthy iff the field or the fallback is
    ensures Truthy(v) <==> (key in row && Truthy(row[key])) || Truthy(fallback)
  {
    if key in row && Truthy(row[key]) then row[key] else fallback
  }

  /** `Array.isArray(row.limits) ? row.limits : []`. */
  function LimitsOf(row: Row): (v: Value)
    ensures v.Arr?
    ensures LimitsKey in row && row[LimitsKey].Arr? ==> v == row[LimitsKey]
    ensures !(LimitsKey in row && row[LimitsKey].Arr?) ==> v == Arr([])
  {
    if LimitsKey in row && row[LimitsKey].Arr? then row[LimitsKey] else Arr([])
  }

  /** One row of the list: `{...profile, balance: profile.balance || 0, ...}`. */
  function NormaliseRow(row: Row): (r: Row)
    ensures r.Keys == row.Keys + FilledKeys
    ensures forall k | k in row && k !in FilledKeys :: r[k] == row[k]
    ensures r[BalanceKey] == Or(row, BalanceKey, Num(0.0))
    ensures r[WithdrawalFeeTypeKey] == Or(row, WithdrawalFeeTypeKey, DefaultFeeType)
    ensures r[WithdrawalFeeValueKey] == Or(row, WithdrawalFeeValueKey, Num(0.0))
    ensures r[SendingFeeTypeKey] == Or(row, SendingFeeTypeKey, DefaultFeeType)
    ensures r[SendingFeeValueKey] == Or(row, SendingFeeValueKey, Num(0.0))
    ensures r[LimitsKey] == LimitsOf(row)
    // after normalisation a fee type is never falsy and `limits` is always an array
    ensures Truthy(r[WithdrawalFeeTypeKey]) && Truthy(r[SendingFeeTypeKey]) && r[LimitsKey].Arr?
  {
    row[BalanceKey := Or(row, BalanceKey, Num(0.0))]
       [WithdrawalFeeTypeKey := Or(row, WithdrawalFeeTypeKey, DefaultFeeType)]
       [WithdrawalFeeValueKey := Or(row, WithdrawalFeeValueKey, Num(0.0))]
       [SendingFeeTypeKey := Or(row, SendingFeeTypeKey, DefaultFeeType)]
       [SendingFeeValueKey := Or(row, SendingFeeValueKey, Num(0.0))]
       [LimitsKey := LimitsOf(row)]
  }

  /** The `.map` over all rows: same length, same order, each row normalised. */
  function NormaliseRows(rows: seq<Row>): (r: seq<Row>)
    ensures |r| == |rows|
    ensures forall i | 0 <= i < |rows| :: r[i] == NormaliseRow(rows[i])
    decreases |rows|
  {
    if rows == [] then [] else [NormaliseRow(rows[0])] + NormaliseRows(rows[1..])
  }

  /** The page's query function: a backend error is rethrown, a `null` result
      is an empty list, and rows are normalised one by one. */
  function QueryUsers(response: Response): (r: Result<seq<Row>>)
    ensures response.error.Some? ==> r == Failure(response.error.value)
    ensures response.error.None? && response.data.None? ==> r == Success([])
    ensures response.error.None? && response.data.Some? ==>
              r.Success? && |r.value| == |response.data.value| &&
              forall i | 0 <= i < |r.value| :: r.value[i] == NormaliseRow(response.data.value[i])
  {
    if response.error.Some? then Failure(response.error.value)
    else Success(NormaliseRows(response.data.GetOr([])))
  }

  /** Normalising an already normalised row changes nothing: every default it
      fills is one that it would keep. */
  lemma NormaliseRowIdempotent(row: Row)
    ensures NormaliseRow(NormaliseRow(row)) == NormaliseRow(row)
  {
    // the filled fee types are truthy, a falsy filled number is already 0,
    // and the filled `limits` is an array
  }

  /** Hence the whole list is a fixed point too. */
  lemma {:induction false} NormaliseRowsIdempotent(rows: seq<Row>)
    ensures NormaliseRows(NormaliseRows(rows)) == NormaliseRows(rows)
  {
    var once := NormaliseRows(rows);
    forall i | 0 <= i < |rows|
      ensures NormaliseRows(once)[i] == once[i]
    {
      NormaliseRowIdempotent(rows[i]);
    }
  }

  /** A fee type is kept whenever it is truthy: nothing checks it against
      `"percentage"` and `"fixed"`. */
  lemma FeeTypeNotValidated(row: Row)
    ensures WithdrawalFeeTypeKey in row && Truthy(row[WithdrawalFeeTypeKey]) ==>
              NormaliseRow(row)[WithdrawalFeeTypeKey] == row[WithdrawalFeeTypeKey]
    ensures SendingFeeTypeKey in row && Truthy(row[SendingFeeTypeKey]) ==>
              NormaliseRow(row)[SendingFeeTypeKey] == row[SendingFeeTypeKey]
  {
  }

  /** For instance, a fee type of `"flat"`, or the number 2, passes through. */
  lemma FeeTypeNotValidatedExample()
    ensures NormaliseRow(map[WithdrawalFeeTypeKey := Str("flat")])[WithdrawalFeeTypeKey] == Str("flat")
    ensures NormaliseRow(map[SendingFeeTypeKey := Num(2.0)])[SendingFeeTypeKey] == Num(2.0)
  {
    FeeTypeNotValidated(map[WithdrawalFeeTypeKey := Str("flat")]);
    FeeTypeNotValidated(map[SendingFeeTypeKey := Num(2.0)]);
  }
}
