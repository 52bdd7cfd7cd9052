/** The route guard (`ProtectedRoute`): a chain of early returns over the
    synchroniser's `loading`, `user` and `profile` that picks what a protected
    view shows. */
module ProtectedRoute {
  import opened Wrappers
  import opened Accounts
  import opened AuthContext

  /** What the guard renders: the loading placeholder, a `<Navigate>` (with its
      `replace` flag and the `from` location it carries in its state, if any),
      or the protected children. */
  datatype View =
    | LoadingPlaceholder
    | Redirect(to: string, replace: bool, from: Option<string>)
    | Children

  /** `requireAdmin` defaults to false, as in the component's props. */
  function Guard(state: Snapshot, location: string, requireAdmin: bool := false): (view: View)
    ensures view.LoadingPlaceholder? <==> state.loading
    ensures !state.loading && state.user.None? ==> view == Redirect(SignInPath, true, Some(location))
    ensures view.Redirect? ==> view.replace && (view.from.Some? <==> view.to == SignInPath)
    ensures view == Redirect(DashboardPath, true, None) <==>
              !state.loading && state.user.Some? && requireAdmin && !IsAdmin(state.profile)
    ensures view == Redirect(PendingPath, true, None) <==>
              && !state.loading && state.user.Some? && (!requireAdmin || IsAdmin(state.profile))
              && state.profile.Some? && state.profile.value.status == PendingStatus
    ensures view == Redirect(RejectedPath, true, None) <==>
              && !state.loading && state.user.Some? && (!requireAdmin || IsAdmin(state.profile))
              && state.profile.Some? && state.profile.value.status == RejectedStatus
    ensures view.Children? <==>
              !state.loading && state.user.Some? && (!requireAdmin || IsAdmin(state.profile)) && !Gated(state.profile)
  {
    if state.loading then LoadingPlaceholder
    else if state.user.None? then Redirect(SignInPath, true, Some(location))
    else if requireAdmin && !IsAdmin(state.profile) then Redirect(DashboardPath, true, None)
    else if state.profile.Some? && state.profile.value.status == PendingStatus then Redirect(PendingPath, true, None)
    else if state.profile.Some? && state.profile.value.status == RejectedStatus then Redirect(RejectedPath, true, None)
    else Children
  }

  /** A route that leaves `requireAdmin` at its default never sends anyone to `/dashboard`. */
  lemma DefaultRouteNeverRedirectsToDashboard(state: Snapshot, location: string)
    ensures Guard(state, location) != Redirect(DashboardPath, true, None)
  {
  }

  /** On an admin route the role check comes first: a non-admin is sent to
      `/dashboard` even when the profile is pending or rejected, and so is a
      user whose profile is missing. */
  lemma AdminCheckPrecedesStatus(state: Snapshot, location: string)
    requires !state.loading && state.user.Some? && !IsAdmin(state.profile)
    ensures Guard(state, location, true) == Redirect(DashboardPath, true, None)
  {
  }

  /** A signed-in user whose profile has not arrived is let through on a non-admin route. */
  lemma MissingProfileRendersOrdinaryRoute(u: User, location: string)
    ensures Guard(Snapshot(Some(u), None, false), location) == Children
  {
  }

  /** After the initial load and any auth pushes, while the backend honours
      sign-out, the guard never sends anyone to the `/pending` or `/rejected`
      pages: only a refused sign-in can leave a gated profile behind. */
  lemma StatusPagesUnreachableFromPushes(session: Call<Option<User>>, fetched: Option<Profile>,
                                         events: seq<AuthEvent>, location: string, requireAdmin: bool)
    requires SignOutsResolve(events)
    ensures var state := Replay(InitAuthStep(InitialSnapshot, session, fetched, Resolved).next, events);
            var view := Guard(state, location, requireAdmin);
            view != Redirect(PendingPath, true, None) && view != Redirect(RejectedPath, true, None)
  {
    var loaded := InitAuthStep(InitialSnapshot, session, fetched, Resolved).next;
    InitialLoadKeepsGatedProfilesOut(InitialSnapshot, session, fetched);
    PushesKeepGatedProfilesOut(loaded, events);
  }

  /** After a refused sign-in of a pending account, while some session user is
      still present and the provider is not loading, the guard sends that user
      to `/pending`, whatever the sign-out call answered. */
  lemma RefusedSignInLeadsToPendingPage(s: Snapshot, u: User, p: Profile, email: string, password: string,
                                        signOut: Settled, location: string)
    requires !s.loading && s.user.Some? && p.status == PendingStatus
    ensures var after := SignInStep(s, email, password, Returns(u), Some(p), signOut);
            Guard(after.next, location) == Redirect(PendingPath, true, None)
  {
  }
}
