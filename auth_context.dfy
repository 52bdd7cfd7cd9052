/** The session/profile synchroniser (`AuthProvider`): three pieces of UI state
    (`user`, `profile`, `loading`) mirrored from the backend, the initial load,
    the auth-state-change callback, and the sign-in/sign-up/sign-out procedures.

    Every backend call is an input: `Call<T>` for a call whose value is used,
    `Settled` for one whose value is not, and `Option<Profile>` for the profile
    fetch (`None` when the backend reports an error). What the provider does to
    the outside world (backend requests, navigations, toasts) is appended, in
    order, to a ghost log. */
module AuthContext {
  import opened Wrappers
  import opened Accounts

  /** The provider's three state variables at one moment. */
  datatype Snapshot = Snapshot(user: Option<User>, profile: Option<Profile>, loading: bool)

  /** `loading` starts true; `user` and `profile` start null. */
  const InitialSnapshot := Snapshot(None, None, true)

  datatype Toast = Toast(destructive: bool, title: string, description: string)

  /** The personal fields a sign-up form hands to `signUp`. */
  datatype SignUpForm = SignUpForm(
    email: string,
    password: string,
    firstName: string,
    lastName: string,
    username: string,
    dateOfBirth: string,
    placeOfBirth: string,
    residence: string,
    nationality: string)

  /** What `signUp` sends to the backend: credentials and account metadata. */
  datatype SignUpRequest = SignUpRequest(email: string, password: string, metadata: map<string, string>)

  /** One observable action of the provider. */
  datatype SideEffect =
    | SessionQuery
    | ProfileQuery(userId: string)
    | SignInCall(email: string, password: string)
    | SignUpCall(request: SignUpRequest)
    | SignOutCall
    | Navigate(path: string)
    | Show(toast: Toast)

  /** The new state of a handler together with what it did, in order. */
  datatype Step = Step(next: Snapshot, effects: seq<SideEffect>)

  /** One push from the backend's auth subscription: the session it carries
      (only its user is read), and the outcomes of the profile fetch and of the
      sign-out call that the callback may make. */
  datatype AuthEvent = AuthEvent(session: Option<User>, fetched: Option<Profile>, signOut: Settled)

  const ProfileNotFound := "Profile not found"
  const PendingApproval := "Your account is pending approval"
  const AccountRejected := "Your account has been rejected"

  function ErrorToast(message: string): Toast {
    Toast(true, "Error", message)
  }

  const WelcomeToast := Toast(false, "Welcome back!", "You have successfully signed in.")
  const RegisteredToast := Toast(false, "Registration successful!", "Your account has been created and is pending admin approval.")
  const SignedOutToast := Toast(false, "Signed out", "You have been successfully signed out.")

  /** The navigation targets among some effects, in order. */
  function Navigations(effects: seq<SideEffect>): seq<string> {
    if effects == [] then []
    else (if effects[0].Navigate? then [effects[0].path] else []) + Navigations(effects[1..])
  }

  /** The toasts among some effects, in order. */
  function Toasts(effects: seq<SideEffect>): seq<Toast> {
    if effects == [] then []
    else (if effects[0].Show? then [effects[0].toast] else []) + Toasts(effects[1..])
  }

  /** The stored profile after `getProfile`: replaced by a fetched row, kept on a fetch error. */
  function Stored(current: Option<Profile>, fetched: Option<Profile>): (stored: Option<Profile>)
    ensures fetched.Some? ==> stored == fetched
    ensures fetched.None? ==> stored == current
    ensures stored.None? <==> current.None? && fetched.None?
  {
    if fetched.Some? then fetched else current
  }

  /** `session?.user` is present. */
  predicate HasSessionUser(session: Call<Option<User>>) {
    session.Returns? && session.value.Some?
  }

  /** The initial load (`initAuth`): read the session, fetch the profile of its
      user, gate a pending or rejected account; `loading` is cleared in `finally`. */
  function InitAuthStep(s: Snapshot, session: Call<Option<User>>, fetched: Option<Profile>, signOut: Settled): (step: Step)
    ensures !step.next.loading
    ensures SignOutCall in step.effects <==> HasSessionUser(session) && Gated(fetched)
    ensures HasSessionUser(session) && Gated(fetched) && signOut.Resolved? ==>
              step.next.user.None? && step.next.profile.None? && Navigate(SignInPath) in step.effects
    ensures HasSessionUser(session) && !Gated(fetched) ==>
              step.next.user == session.value && step.next.profile == Stored(s.profile, fetched)
    ensures HasSessionUser(session) ==> ProfileQuery(session.value.value.id) in step.effects
    ensures session.Returns? && session.value.None? ==>
              step.next == Snapshot(None, s.profile, false) && step.effects == [SessionQuery]
    ensures HasSessionUser(session) && Gated(fetched) && signOut.Thrown? ==>
              step.next == Snapshot(session.value, fetched, false) && Navigate(SignInPath) !in step.effects
    ensures session.Throws? ==> step.next == s.(loading := false) && step.effects == [SessionQuery]
  {
    match session
    case Throws(_) =>
      Step(s.(loading := false), [SessionQuery])
    case Returns(None) =>
      Step(s.(user := None, loading := false), [SessionQuery])
    case Returns(Some(u)) =>
      var queried := [SessionQuery, ProfileQuery(u.id)];
      if !Gated(fetched) then
        Step(Snapshot(Some(u), Stored(s.profile, fetched), false), queried)
      else if signOut.Thrown? then
        // the rejected sign-out skips the clearing; `finally` still runs
        Step(Snapshot(Some(u), fetched, false), queried + [SignOutCall])
      else
        Step(Snapshot(None, None, false), queried + [SignOutCall, Navigate(SignInPath)])
  }

  /** The auth-state-change callback. The gated branch returns before `loading`
      is cleared, and a rejected sign-out escapes the callback at that point. */
  function AuthEventStep(s: Snapshot, event: AuthEvent): (step: Step)
    ensures step.next.loading <==> s.loading && event.session.Some? && Gated(event.fetched)
    ensures event.session.None? ==> step.next == Snapshot(None, None, false) && step.effects == []
    ensures SignOutCall in step.effects <==> event.session.Some? && Gated(event.fetched)
    ensures event.session.Some? && Gated(event.fetched) && event.signOut.Resolved? ==>
              step.next.user.None? && step.next.profile.None? && Navigate(SignInPath) in step.effects
    ensures event.session.Some? && !Gated(event.fetched) ==>
              step.next == Snapshot(event.session, Stored(s.profile, event.fetched), false)
    ensures event.session.Some? && Gated(event.fetched) && event.signOut.Thrown? ==>
              step.next == Snapshot(event.session, event.fetched, s.loading) && Navigate(SignInPath) !in step.effects
    ensures event.session.Some? ==> |step.effects| > 0 && step.effects[0] == ProfileQuery(event.session.value.id)
  {
    match event.session
    case None =>
      Step(Snapshot(None, None, false), [])
    case Some(u) =>
      if !Gated(event.fetched) then
        Step(Snapshot(Some(u), Stored(s.profile, event.fetched), false), [ProfileQuery(u.id)])
      else if event.signOut.Thrown? then
        Step(Snapshot(Some(u), event.fetched, s.loading), [ProfileQuery(u.id), SignOutCall])
      else
        Step(Snapshot(None, None, s.loading), [ProfileQuery(u.id), SignOutCall, Navigate(SignInPath)])
  }

  /** The message a gated sign-in reports: the sign-out's own error if that call
      rejects (it is what reaches the `catch`), otherwise the status message. */
  function GatedMessage(status: string, signOut: Settled): (message: string)
    ensures signOut.Thrown? ==> message == signOut.error
    ensures signOut.Resolved? && IsGatedStatus(status) ==>
              (message == PendingApproval <==> status == PendingStatus) &&
              (message == AccountRejected <==> status == RejectedStatus)
  {
    if signOut.Thrown? then signOut.error
    else if status == PendingStatus then PendingApproval
    else AccountRejected
  }

  /** The credentials were accepted and the account's profile is neither pending nor rejected. */
  predicate SignInAccepted(credentials: Call<User>, fetched: Option<Profile>) {
    credentials.Returns? && fetched.Some? && !IsGatedStatus(fetched.value.status)
  }

  /** `signIn`: credentials, profile fetch, status gate, role routing; every
      failure ends in one destructive toast. Only `profile` can change. */
  function SignInStep(s: Snapshot, email: string, password: string, credentials: Call<User>,
                      fetched: Option<Profile>, signOut: Settled): (step: Step)
    ensures step.next.user == s.user && step.next.loading == s.loading
    ensures step.next.profile == (if credentials.Returns? then Stored(s.profile, fetched) else s.profile)
    ensures |step.effects| >= 2 && step.effects[0] == SignInCall(email, password)
    ensures step.effects[|step.effects| - 1].Show?
    ensures step.effects[|step.effects| - 1].toast.destructive <==> !SignInAccepted(credentials, fetched)
    ensures SignInAccepted(credentials, fetched) ==>
              step.effects[|step.effects| - 2..] == [Navigate(HomePath(fetched.value.role)), Show(WelcomeToast)]
    ensures credentials.Throws? ==> step.effects == [SignInCall(email, password), Show(ErrorToast(credentials.error))]
    ensures credentials.Returns? && fetched.None? ==>
              step.effects[|step.effects| - 1] == Show(ErrorToast(ProfileNotFound))
    ensures SignOutCall in step.effects <==> credentials.Returns? && Gated(fetched)
    ensures credentials.Returns? && Gated(fetched) ==>
              step.effects[|step.effects| - 2..] == [SignOutCall, Show(ErrorToast(GatedMessage(fetched.value.status, signOut)))]
  {
    match credentials
    case Throws(message) =>
      Step(s, [SignInCall(email, password), Show(ErrorToast(message))])
    case Returns(u) =>
      var next := s.(profile := Stored(s.profile, fetched));
      var queried := [SignInCall(email, password), ProfileQuery(u.id)];
      if fetched.None? then
        Step(next, queried + [Show(ErrorToast(ProfileNotFound))])
      else if IsGatedStatus(fetched.value.status) then
        Step(next, queried + [SignOutCall, Show(ErrorToast(GatedMessage(fetched.value.status, signOut)))])
      else
        Step(next, queried + [Navigate(HomePath(fetched.value.role)), Show(WelcomeToast)])
  }

  lemma {:induction false} NoNavigations(effects: seq<SideEffect>)
    requires forall i | 0 <= i < |effects| :: !effects[i].Navigate?
    ensures Navigations(effects) == []
    decreases |effects|
  {
    if effects != [] {
      NoNavigations(effects[1..]);
    }
  }

  lemma {:induction false} OneNavigation(effects: seq<SideEffect>, k: nat)
    requires k < |effects| && effects[k].Navigate?
    requires forall i | 0 <= i < |effects| && i != k :: !effects[i].Navigate?
    ensures Navigations(effects) == [effects[k].path]
    decreases |effects|
  {
    if k == 0 {
      NoNavigations(effects[1..]);
    } else {
      OneNavigation(effects[1..], k - 1);
    }
  }

  lemma {:induction false} NoToasts(effects: seq<SideEffect>)
    requires forall i | 0 <= i < |effects| :: !effects[i].Show?
    ensures Toasts(effects) == []
    decreases |effects|
  {
    if effects != [] {
      NoToasts(effects[1..]);
    }
  }

  lemma {:induction false} OneToast(effects: seq<SideEffect>, k: nat)
    requires k < |effects| && effects[k].Show?
    requires forall i | 0 <= i < |effects| && i != k :: !effects[i].Show?
    ensures Toasts(effects) == [effects[k].toast]
    decreases |effects|
  {
    if k == 0 {
      NoToasts(effects[1..]);
    } else {
      OneToast(effects[1..], k - 1);
    }
  }

  /** The initial load shows no toast and navigates at most once: to the
      sign-in page, exactly when it completes the gating of a session. */
  lemma InitAuthNavigation(s: Snapshot, session: Call<Option<User>>, fetched: Option<Profile>, signOut: Settled)
    ensures Navigations(InitAuthStep(s, session, fetched, signOut).effects) ==
              if HasSessionUser(session) && Gated(fetched) && signOut.Resolved? then [SignInPath] else []
    ensures Toasts(InitAuthStep(s, session, fetched, signOut).effects) == []
  {
    var effects := InitAuthStep(s, session, fetched, signOut).effects;
    if !HasSessionUser(session) {
      assert effects == [SessionQuery];
      NoNavigations(effects);
    } else {
      var queried := [SessionQuery, ProfileQuery(session.value.value.id)];
      if !Gated(fetched) {
        assert effects == queried;
        NoNavigations(effects);
      } else if signOut.Thrown? {
        assert effects == queried + [SignOutCall];
        NoNavigations(effects);
      } else {
        assert effects == queried + [SignOutCall, Navigate(SignInPath)];
        OneNavigation(effects, 3);
      }
    }
    NoToasts(effects);
  }

  /** The same for one auth push. */
  lemma AuthEventNavigation(s: Snapshot, event: AuthEvent)
    ensures Navigations(AuthEventStep(s, event).effects) ==
              if event.session.Some? && Gated(event.fetched) && event.signOut.Resolved? then [SignInPath] else []
    ensures Toasts(AuthEventStep(s, event).effects) == []
  {
    var effects := AuthEventStep(s, event).effects;
    if event.session.None? {
      assert effects == [];
      NoNavigations(effects);
    } else {
      var queried := [ProfileQuery(event.session.value.id)];
      if !Gated(event.fetched) {
        assert effects == queried;
        NoNavigations(effects);
      } else if event.signOut.Thrown? {
        assert effects == queried + [SignOutCall];
        NoNavigations(effects);
      } else {
        assert effects == queried + [SignOutCall, Navigate(SignInPath)];
        OneNavigation(effects, 2);
      }
    }
    NoToasts(effects);
  }

  /** `signIn` navigates only when it accepts the account, then to `/admin` for
      an admin and `/dashboard` otherwise; it shows exactly one toast, which is
      destructive exactly when the sign-in was refused. */
  lemma SignInNavigation(s: Snapshot, email: string, password: string, credentials: Call<User>,
                         fetched: Option<Profile>, signOut: Settled)
    ensures Navigations(SignInStep(s, email, password, credentials, fetched, signOut).effects) ==
              if SignInAccepted(credentials, fetched) then [HomePath(fetched.value.role)] else []
    ensures |Toasts(SignInStep(s, email, password, credentials, fetched, signOut).effects)| == 1
    ensures Toasts(SignInStep(s, email, password, credentials, fetched, signOut).effects)[0].destructive <==>
              !SignInAccepted(credentials, fetched)
  {
    var effects := SignInStep(s, email, password, credentials, fetched, signOut).effects;
    OneToast(effects, |effects| - 1);
    if SignInAccepted(credentials, fetched) {
      OneNavigation(effects, 2);
    } else {
      NoNavigations(effects);
    }
  }

  /** The account metadata `signUp` attaches: the three name fields under the
      profile's snake_case column names, the rest under the form's own keys. */
  function SignUpMetadata(form: SignUpForm): (metadata: map<string, string>)
    ensures |metadata| == 7
    ensures forall k | k in metadata :: metadata[k] in
              {form.firstName, form.lastName, form.username, form.dateOfBirth, form.placeOfBirth,
               form.residence, form.nationality}
    ensures "residence" in metadata && metadata["residence"] == form.residence
    ensures "nationality" in metadata && metadata["nationality"] == form.nationality
  {
    map[
      "first_name" := form.firstName,
      "last_name" := form.lastName,
      "username" := form.username,
      "dateOfBirth" := form.dateOfBirth,
      "placeOfBirth" := form.placeOfBirth,
      "residence" := form.residence,
      "nationality" := form.nationality]
  }

  lemma SignUpMetadataKeys(form: SignUpForm)
    ensures SignUpMetadata(form).Keys ==
              {"first_name", "last_name", "username", "dateOfBirth", "placeOfBirth", "residence", "nationality"}
    ensures SignUpMetadata(form)["first_name"] == form.firstName
    ensures SignUpMetadata(form)["last_name"] == form.lastName
    ensures SignUpMetadata(form)["username"] == form.username
    ensures SignUpMetadata(form)["dateOfBirth"] == form.dateOfBirth
    ensures SignUpMetadata(form)["placeOfBirth"] == form.placeOfBirth
    // the profile row's own column names for these two are not among the keys
    ensures "date_of_birth" !in SignUpMetadata(form) && "place_of_birth" !in SignUpMetadata(form)
  {
  }

  /** The provider's state after a sequence of auth-state-change pushes. */
  function Replay(s: Snapshot, events: seq<AuthEvent>): Snapshot
    decreases |events|
  {
    if events == [] then s else Replay(AuthEventStep(s, events[0]).next, events[1..])
  }

  lemma {:induction false} ReplayAppend(s: Snapshot, events: seq<AuthEvent>, last: AuthEvent)
    ensures Replay(s, events + [last]) == AuthEventStep(Replay(s, events), last).next
    decreases |events|
  {
    if events != [] {
      assert (events + [last])[1..] == events[1..] + [last];
      ReplayAppend(AuthEventStep(s, events[0]).next, events[1..], last);
    }
  }

  /** Nothing ever sets `loading` back to true. */
  lemma {:induction false} LoadingStaysCleared(s: Snapshot, events: seq<AuthEvent>)
    requires !s.loading
    ensures !Replay(s, events).loading
    decreases |events|
  {
    if events != [] {
      LoadingStaysCleared(AuthEventStep(s, events[0]).next, events[1..]);
    }
  }

  /** Whatever the backend answers, once the initial load has run and any
      sequence of auth pushes follows, the provider is no longer loading. */
  lemma InitialLoadEndsLoading(session: Call<Option<User>>, fetched: Option<Profile>, signOut: Settled,
                               events: seq<AuthEvent>)
    ensures !Replay(InitAuthStep(InitialSnapshot, session, fetched, signOut).next, events).loading
  {
    LoadingStaysCleared(InitAuthStep(InitialSnapshot, session, fetched, signOut).next, events);
  }

  /** A push without a session, whatever came before it, leaves no user, no profile and no loading. */
  lemma SignedOutPushClears(s: Snapshot, events: seq<AuthEvent>, last: AuthEvent)
    requires last.session.None?
    ensures Replay(s, events + [last]) == Snapshot(None, None, false)
  {
    ReplayAppend(s, events, last);
  }

  predicate SignOutsResolve(events: seq<AuthEvent>) {
    forall i | 0 <= i < |events| :: events[i].signOut.Resolved?
  }

  /** While the backend honours sign-out, auth pushes never leave a pending or
      rejected profile in the provider's state. */
  lemma {:induction false} PushesKeepGatedProfilesOut(s: Snapshot, events: seq<AuthEvent>)
    requires !Gated(s.profile)
    requires SignOutsResolve(events)
    ensures !Gated(Replay(s, events).profile)
    decreases |events|
  {
    if events != [] {
      assert events[0].signOut.Resolved?;
      PushesKeepGatedProfilesOut(AuthEventStep(s, events[0]).next, events[1..]);
    }
  }

  /** The initial load keeps the same invariant when the backend honours sign-out. */
  lemma InitialLoadKeepsGatedProfilesOut(s: Snapshot, session: Call<Option<User>>, fetched: Option<Profile>)
    requires !Gated(s.profile)
    ensures !Gated(InitAuthStep(s, session, fetched, Resolved).next.profile)
  {
  }

  /** `signIn` stores the fetched row before it checks the status, so a pending
      or rejected account's profile stays in the state after the refused
      sign-in, whether or not the sign-out call rejects. */
  lemma SignInStoresGatedProfile(s: Snapshot, email: string, password: string, u: User, p: Profile,
                                 signOut: Settled)
    requires IsGatedStatus(p.status)
    ensures SignInStep(s, email, password, Returns(u), Some(p), signOut).next.profile == Some(p)
    ensures Gated(SignInStep(s, email, password, Returns(u), Some(p), signOut).next.profile)
  {
  }

  /** A failed profile fetch keeps the previous profile while `user` moves to the
      new session's user, so the two can belong to different accounts. */
  lemma FailedFetchKeepsStaleProfile(s: Snapshot, u: User, signOut: Settled)
    ensures AuthEventStep(s, AuthEvent(Some(u), None, signOut)).next == Snapshot(Some(u), s.profile, false)
  {
  }

  /** The provider itself. Methods take the backend's answers as parameters;
      `log` records every request, navigation and toast in order. */
  class AuthProvider {
    var user: Option<User>
    var profile: Option<Profile>
    var loading: bool
    ghost var log: seq<SideEffect>

    function Snap(): Snapshot
      reads this
    {
      Snapshot(user, profile, loading)
    }

    constructor ()
      ensures Snap() == InitialSnapshot && log == []
    {
      user := None;
      profile := None;
      loading := true;
      log := [];
    }

    /** `getProfile`: never throws; a fetched row is stored and returned, an error yields null. */
    method GetProfile(userId: string, fetched: Option<Profile>) returns (result: Option<Profile>)
      modifies this`profile, this`log
      ensures result == fetched
      ensures profile == Stored(old(profile), fetched)
      ensures log == old(log) + [ProfileQuery(userId)]
    {
      log := log + [ProfileQuery(userId)];
      if fetched.Some? {
        profile := fetched;
      }
      result := fetched;
    }

    method InitAuth(session: Call<Option<User>>, fetched: Option<Profile>, signOut: Settled)
      modifies this
      ensures Snap() == InitAuthStep(old(Snap()), session, fetched, signOut).next
      ensures log == old(log) + InitAuthStep(old(Snap()), session, fetched, signOut).effects
    {
      log := log + [SessionQuery];
      if session.Returns? {
        user := session.value;
        if session.value.Some? {
          var fetchedProfile := GetProfile(session.value.value.id, fetched);
          if Gated(fetchedProfile) {
            log := log + [SignOutCall];
            if signOut.Resolved? {
              user := None;
              profile := None;
              log := log + [Navigate(SignInPath)];
            }
          }
        }
      }
      loading := false;
    }

    method OnAuthStateChange(event: AuthEvent)
      modifies this
      ensures Snap() == AuthEventStep(old(Snap()), event).next
      ensures log == old(log) + AuthEventStep(old(Snap()), event).effects
    {
      user := event.session;
      if event.session.Some? {
        var fetchedProfile := GetProfile(event.session.value.id, event.fetched);
        if Gated(fetchedProfile) {
          log := log + [SignOutCall];
          if event.signOut.Thrown? {
            return;
          }
          user := None;
          profile := None;
          log := log + [Navigate(SignInPath)];
          return;
        }
      } else {
        profile := None;
      }
      loading := false;
    }

    method SignIn(email: string, password: string, credentials: Call<User>, fetched: Option<Profile>, signOut: Settled)
      modifies this
      ensures Snap() == SignInStep(old(Snap()), email, password, credentials, fetched, signOut).next
      ensures log == old(log) + SignInStep(old(Snap()), email, password, credentials, fetched, signOut).effects
    {
      log := log + [SignInCall(email, password)];
      var failure: Option<string> := None;
      if credentials.Throws? {
        failure := Some(credentials.error);
      } else {
        var fetchedProfile := GetProfile(credentials.value.id, fetched);
        if fetchedProfile.None? {
          failure := Some(ProfileNotFound);
        } else if fetchedProfile.value.status == PendingStatus {
          log := log + [SignOutCall];
          failure := Some(if signOut.Thrown? then signOut.error else PendingApproval);
        } else if fetchedProfile.value.status == RejectedStatus {
          log := log + [SignOutCall];
          failure := Some(if signOut.Thrown? then signOut.error else AccountRejected);
        } else {
          log := log + [Navigate(HomePath(fetchedProfile.value.role)), Show(WelcomeToast)];
        }
      }
      if failure.Some? {
        log := log + [Show(ErrorToast(failure.value))];
      }
    }

    /** `signUp`: one backend request; sign-in page only when it succeeds. */
    method SignUp(form: SignUpForm, outcome: Settled)
      modifies this`log
      ensures Snap() == old(Snap())
      ensures log == old(log) + [SignUpCall(SignUpRequest(form.email, form.password, SignUpMetadata(form)))] +
                (if outcome.Resolved? then [Show(RegisteredToast), Navigate(SignInPath)]
                 else [Show(ErrorToast(outcome.error))])
    {
      log := log + [SignUpCall(SignUpRequest(form.email, form.password, SignUpMetadata(form)))];
      if outcome.Thrown? {
        log := log + [Show(ErrorToast(outcome.error))];
        return;
      }
      log := log + [Show(RegisteredToast), Navigate(SignInPath)];
    }

    /** `signOut`: asks the backend, then goes to the sign-in page. The local
        state is left to the auth push that the backend sends afterwards. */
    method SignOut(outcome: Settled)
      modifies this`log
      ensures Snap() == old(Snap())
      ensures log == old(log) + [SignOutCall] +
                (if outcome.Resolved? then [Navigate(SignInPath), Show(SignedOutToast)]
                 else [Show(ErrorToast(outcome.error))])
    {
      log := log + [SignOutCall];
      if outcome.Thrown? {
        log := log + [Show(ErrorToast(outcome.error))];
        return;
      }
      log := log + [Navigate(SignInPath), Show(SignedOutToast)];
    }
  }
}
