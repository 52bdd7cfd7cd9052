/** The account entities shared by the session synchroniser and the route guard:
    the authenticated user, the profile row, and the role/status/route constants. */
module Accounts {
  import opened Wrappers

  /** The backend's authenticated identity; only its id is read. */
  datatype User = User(id: string)

  /** One `profiles` row as the synchroniser sees it. `role` and `status` are the
      row's raw strings: the backend does not constrain them to the declared unions. */
  datatype Profile = Profile(
    id: string,
    firstName: string,
    lastName: string,
    username: string,
    role: string,
    status: string)

  const AdminRole := "admin"
  const PendingStatus := "pending"
  const RejectedStatus := "rejected"

  const SignInPath := "/signin"
  const DashboardPath := "/dashboard"
  const AdminPath := "/admin"
  const PendingPath := "/pending"
  const RejectedPath := "/rejected"

  /** A status that may not hold a session. */
  predicate IsGatedStatus(status: string) {
    status == PendingStatus || status == RejectedStatus
  }

  /** `profile?.status === "pending" || profile?.status === "rejected"`:
      a missing profile is never gated. */
  function Gated(profile: Option<Profile>): (gated: bool)
    ensures profile.None? ==> !gated
    ensures profile.Some? ==> (gated <==> profile.value.status in {PendingStatus, RejectedStatus})
  {
    profile.Some? && IsGatedStatus(profile.value.status)
  }

  /** `profile?.role === "admin"`: a missing profile is not an admin. */
  function IsAdmin(profile: Option<Profile>): (admin: bool)
    ensures profile.None? ==> !admin
    ensures admin ==> profile.value.role == AdminRole
    ensures profile.Some? && profile.value.role == AdminRole ==> admin
  {
    profile.Some? && profile.value.role == AdminRole
  }

  /** Where a successful sign-in lands, chosen by role. */
  function HomePath(role: string): (path: string)
    ensures path == AdminPath <==> role == AdminRole
    ensures path == AdminPath || path == DashboardPath
  {
    if role == AdminRole then AdminPath else DashboardPath
  }
}
