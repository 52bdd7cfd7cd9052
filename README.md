# Cashora portal: session gating, route guard and admin user list

A Dafny model of the client-side logic of the Cashora portal, a React front-end
over a hosted backend. Backend calls are not modelled; their results are
method or function parameters. Three pieces are modelled:

- **Session/profile synchroniser** (`AuthProvider`, module `AuthContext`). A
  class holds the provider's `user`, `profile` and `loading` state. A ghost
  `log` records, in order, every backend request the provider makes: session
  read, profile fetch, sign-in, sign-up, sign-out. It also records every
  navigation and every toast.
  - The initial load (`InitAuth`), the auth-state-change callback
    (`OnAuthStateChange`) and `SignIn` are each proved against a pure step
    function: `InitAuthStep`, `AuthEventStep` and `SignInStep`.
  - The policy is proved about those functions. On the initial load and on
    an auth push, a `pending` or `rejected` account is signed out and, when
    that sign-out succeeds, cleared and sent to `/signin`. `signIn` signs it
    out and refuses it with a destructive toast, but leaves its profile
    stored. `loading` is cleared and never set again. An accepted sign-in
    is routed by role.
  - `Replay` folds `AuthEventStep` over a sequence of auth pushes. It carries
    the inductive invariants.
- **Route guard** (`ProtectedRoute.Guard`). A pure function from the
  synchroniser's state, the current location and `requireAdmin` (default
  `false`) to the placeholder, a redirect, or the children.
- **Admin user list** (`AdminUsers`). The `queryFn` of the Users page. Rows are
  JSON-like objects, and the `||` defaults follow JavaScript truthiness.
  `limits` is kept when it is an array, and every other field is copied.

Backend outcomes are given as:
- `Call<T>`: the call returns a value, or its promise rejects with a message.
- `Settled`: the same for a call whose value is not used.
- `Option<Profile>`: the result of the profile fetch; `None` when the backend
  reports an error.

Points where the code's behaviour is easy to misread:
- `signUp` navigates to `/signin` only when the backend reports no error. A
  failed sign-up shows a destructive toast and stays on the page.
- `signOut` does not clear `user` or `profile` itself. It leaves the clearing
  to the auth push that the backend sends afterwards.
- Any status other than `pending` or `rejected` keeps the session. This
  includes an unknown string and a profile fetch that failed, not only
  `approved`.
- A refused sign-in of a `pending` or `rejected` account does not clear its
  profile: `getProfile` stores the row before the status check. While that
  user is still signed in, a route without `requireAdmin` then redirects to
  `/pending` or `/rejected`.

## Model

| member | source | states |
|---|---|---|
| `Accounts.HomePath` | src/contexts/AuthContext.tsx:130-135 | a successful sign-in lands on `/admin` iff the role is `admin`, else on `/dashboard` |
| `Accounts.Gated` | src/contexts/AuthContext.tsx:69 | with optional chaining, a missing profile is never gated, a present one is gated iff its status is `pending` or `rejected` |
| `Accounts.IsAdmin` | src/components/ProtectedRoute.tsx:23 | the negation of `profile?.role !== "admin"`: a missing profile is not an admin, a present one is iff its role is `admin` |
| `AuthContext.InitAuthStep` | src/contexts/AuthContext.tsx:63-81 | the initial load always ends with `loading` false. It requests a sign-out iff the session has a user whose fetched profile is pending or rejected. When that sign-out succeeds, `user` and `profile` are null and the provider goes to `/signin`. When it rejects, the user and the gated profile stay and there is no navigation. A non-gated session keeps its user and the stored profile. A session without a user clears `user` only and keeps `profile`. A session read that throws changes nothing but `loading` |
| `AuthContext.AuthEventStep` | src/contexts/AuthContext.tsx:85-100 | `loading` stays true only on the gated branch, which returns before clearing it. A push without a session clears `user`, `profile` and `loading`. Gating signs out, clears both fields and goes to `/signin`. When the gating sign-out rejects, the user and the gated profile stay, `loading` is untouched and there is no navigation. A failed fetch keeps the old profile next to the new user |
| `AuthContext.SignInStep` | src/contexts/AuthContext.tsx:105-148 | only `profile` can change. An accepted sign-in ends with a navigation to `HomePath(role)` followed by the welcome toast. Every refusal ends in one destructive toast: the credential error, "Profile not found", or, after a sign-out call, the pending or rejected message. The sign-out's own error replaces that message when the sign-out rejects |
| `AuthContext.InitAuthNavigation` | src/contexts/AuthContext.tsx:69-74 | the initial load shows no toast. Its only navigation is to `/signin`, exactly when it completes gating |
| `AuthContext.AuthEventNavigation` | src/contexts/AuthContext.tsx:89-94 | an auth push shows no toast. Its only navigation is to `/signin`, exactly when it completes gating |
| `AuthContext.SignInNavigation` | src/contexts/AuthContext.tsx:130-146 | `signIn` navigates iff it accepts the account, to `/admin` iff the role is admin. It shows exactly one toast, destructive iff the sign-in was refused |
| `AuthContext.Stored` | src/contexts/AuthContext.tsx:49-58 | the profile after `getProfile`: a fetched row replaces the stored one, a fetch error keeps it, and the result is null only when both are |
| `AuthContext.GatedMessage` | src/contexts/AuthContext.tsx:120-146 | the message a gated sign-in's toast shows: the sign-out's own error when that call rejects, otherwise "Your account is pending approval" iff the status is `pending` and "Your account has been rejected" iff it is `rejected` |
| `AuthContext.SignUpMetadata` | src/contexts/AuthContext.tsx:156-164 | the metadata holds seven entries, each one of the form's fields, with `residence` and `nationality` under their own names |
| `AuthContext.SignUpMetadataKeys` | src/contexts/AuthContext.tsx:156-164 | sign-up metadata carries the names as `first_name`/`last_name`/`username`, while `dateOfBirth`/`placeOfBirth` keep camelCase keys. The profile columns `date_of_birth`/`place_of_birth` are not among its keys |
| `AuthContext.ReplayAppend` | src/contexts/AuthContext.tsx:85-100 | replaying pushes one more push is one more callback step |
| `AuthContext.LoadingStaysCleared` | src/contexts/AuthContext.tsx:62-100 | once `loading` is false, no sequence of auth pushes sets it true again |
| `AuthContext.InitialLoadEndsLoading` | src/contexts/AuthContext.tsx:63-81 | whatever the backend answers, after the initial load and any pushes the provider is not loading |
| `AuthContext.SignedOutPushClears` | src/contexts/AuthContext.tsx:96-99 | whatever came before, a final push without a session leaves no user, no profile and `loading` false |
| `AuthContext.PushesKeepGatedProfilesOut` | src/contexts/AuthContext.tsx:85-100 | while sign-outs succeed, auth pushes never leave a pending or rejected profile in the state |
| `AuthContext.InitialLoadKeepsGatedProfilesOut` | src/contexts/AuthContext.tsx:63-81 | the initial load keeps that invariant when the sign-out succeeds |
| `AuthContext.SignInStoresGatedProfile` | src/contexts/AuthContext.tsx:114-128 | a refused sign-in of a pending or rejected account still leaves its profile stored, whatever the sign-out call answers, because `getProfile` stores the row before the status check |
| `AuthContext.FailedFetchKeepsStaleProfile` | src/contexts/AuthContext.tsx:86-88 | a push whose profile fetch fails sets the new user and keeps the previous profile, which may belong to another account |
| `AuthContext.AuthProvider.constructor` | src/contexts/AuthContext.tsx:35-37 | `user` and `profile` start null, `loading` starts true, and the log is empty |
| `AuthContext.AuthProvider.GetProfile` | src/contexts/AuthContext.tsx:41-60 | never fails. It logs the query for the given id, stores and returns a fetched row, and on an error returns null with the stored profile unchanged |
| `AuthContext.AuthProvider.InitAuth` | src/contexts/AuthContext.tsx:63-81 | new state and logged effects are those of `InitAuthStep` |
| `AuthContext.AuthProvider.OnAuthStateChange` | src/contexts/AuthContext.tsx:85-100 | new state and logged effects are those of `AuthEventStep` |
| `AuthContext.AuthProvider.SignIn` | src/contexts/AuthContext.tsx:105-148 | new state and logged effects are those of `SignInStep` |
| `AuthContext.AuthProvider.SignUp` | src/contexts/AuthContext.tsx:150-184 | state unchanged. Logs the sign-up request, then the success toast and `/signin` if the backend reports no error, or only a destructive toast with its message otherwise |
| `AuthContext.AuthProvider.SignOut` | src/contexts/AuthContext.tsx:186-201 | state unchanged. Logs the sign-out request, then `/signin` and the signed-out toast, or only a destructive toast if the call rejects |
| `ProtectedRoute.Guard` | src/components/ProtectedRoute.tsx:15-35 | the placeholder iff loading. No user means a replace-redirect to `/signin` carrying the location. Redirect to `/dashboard` iff admin is required and the role is not admin. Redirect to `/pending` or `/rejected` by status only past the admin check. Children iff not loading, a user is present, the admin check passes and the status is neither pending nor rejected |
| `ProtectedRoute.DefaultRouteNeverRedirectsToDashboard` | src/components/ProtectedRoute.tsx:7-25 | with `requireAdmin` left at its default, the guard never redirects to `/dashboard` |
| `ProtectedRoute.AdminCheckPrecedesStatus` | src/components/ProtectedRoute.tsx:23-33 | for a signed-in user while not loading, on an admin route a non-admin, a missing profile or a pending/rejected non-admin goes to `/dashboard` |
| `ProtectedRoute.MissingProfileRendersOrdinaryRoute` | src/components/ProtectedRoute.tsx:23-35 | a signed-in user with no profile is let through on a non-admin route |
| `ProtectedRoute.StatusPagesUnreachableFromPushes` | src/components/ProtectedRoute.tsx:27-33 | after the initial load and any pushes, while sign-outs succeed, the guard never redirects to `/pending` or `/rejected` |
| `ProtectedRoute.RefusedSignInLeadsToPendingPage` | src/components/ProtectedRoute.tsx:27-29 | after a refused sign-in of a pending account, from any state that is not loading and has a user, and whatever the sign-out call answered, the guard redirects to `/pending` |
| `AdminUsers.Truthy` | src/pages/admin/Users.tsx:29-33 | a value is falsy exactly when it is `null`, `false`, `0` or `""` |
| `AdminUsers.Or` | src/pages/admin/Users.tsx:29-33 | the `or` default: the field when it is present and truthy, else the fallback, so the result is truthy iff the field or the fallback is |
| `AdminUsers.LimitsOf` | src/pages/admin/Users.tsx:34 | the `limits` value is always an array: the row's own `limits` when that is an array, and `[]` otherwise (absent, `null`, an object, ...) |
| `AdminUsers.NormaliseRow` | src/pages/admin/Users.tsx:27-35 | keys are the input's plus the six filled ones, and every other field is copied. `balance` and both fee values are the input's when truthy, else 0. Both fee types are the input's when truthy, else `"percentage"`, so a fee type is never falsy. `limits` is the input's when it is an array, else empty |
| `AdminUsers.NormaliseRows` | src/pages/admin/Users.tsx:27 | same length and order as the input, each row normalised |
| `AdminUsers.QueryUsers` | src/pages/admin/Users.tsx:20-36 | a backend error is rethrown as a failure, a null result gives an empty list, and otherwise every row is normalised, in order |
| `AdminUsers.NormaliseRowIdempotent` | src/pages/admin/Users.tsx:28-34 | normalising a normalised row changes nothing |
| `AdminUsers.NormaliseRowsIdempotent` | src/pages/admin/Users.tsx:27-35 | normalising a normalised list changes nothing |
| `AdminUsers.FeeTypeNotValidated` | src/pages/admin/Users.tsx:30-32 | for every row, a truthy withdrawal or sending fee type is kept as it is, even one outside `percentage`/`fixed` or not a string at all |
| `AdminUsers.FeeTypeNotValidatedExample` | src/pages/admin/Users.tsx:30-32 | a fee type `"flat"` or the number 2 passes through unchanged |

## Left out

- The backend client (auth, row store, object storage) is not modelled. Each call's outcome is a parameter, and `getProfile`'s filter by user id is only logged. Nothing assumes the returned row belongs to that id.
- The race between the initial load and the auth subscription is not modelled. Each handler runs to completion as one method call, and pushes are a sequence of calls. The unsubscribe on unmount is left out too.
- The auth event name passed to the callback is not modelled, because the callback never reads it.
- Console logging of errors is not modelled, because it has no effect on state.
- `useAuth`'s error outside a provider is not modelled, because it is React context plumbing.
- The route table is not modelled. There, `/pending` and `/rejected` have no page of their own and fall through to the not-found route.
- The request review pages, the users table and its approve/reject actions are not modelled. Each is one backend update plus a toast, and the three request pages are not routed.
- The duplicate profile fetcher in `src/utils/auth.ts` is not modelled. Its "null on failure" contract is the one `GetProfile` states.
- The sign-in and sign-up form pages, layouts and marketing components are not modelled, because they are presentation only.
- Balance formatting and date formatting are not modelled.
- JSON numbers are exact reals. Floating point is not modelled, so `NaN` and `-0`, which JavaScript also treats as falsy, are not represented.
- The `UserDetails[]` cast on the normalised rows is type-only, so it is not modelled as a check.
