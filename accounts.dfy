/** The user record the backend views and serializers consult. */
module Accounts {

  /**
   * A user as `request.user` presents it; `authenticated` is false for the anonymous user,
   * whose other fields are then never read.
   */
  datatype User = User(
    id: int,
    authenticated: bool,
    email: string,
    userType: string,
    firstName: string,
    lastName: string,
    isActive: bool,
    isVerified: bool)

  /** `f"{first_name} {last_name}"`, the name the profile defaults use. */
  function FullName(u: User): (r: string)
    ensures |r| == |u.firstName| + 1 + |u.lastName| && r[|u.firstName|] == ' '
    ensures r[..|u.firstName|] == u.firstName && r[|u.firstName| + 1..] == u.lastName
  {
    u.firstName + " " + u.lastName
  }
}
