/**
 * The route guard: whether a page is shown, or the visitor is sent to the
 * login page or to the home page.
 */
module Routing {
  import opened Wrappers
  import opened Auth

  datatype Decision = RedirectToLogin | RedirectToHome | RenderChildren

  /**
   * `ProtectedRoute`: a visitor who is not authenticated goes to `/login`;
   * an authenticated user whose role is not the route's required role goes
   * to `/`; everyone else sees the page.
   */
  function Access(isAuthenticated: bool, currentUser: Option<User>, required: Option<UserType>): Decision
  {
    if !isAuthenticated then RedirectToLogin
    else if required.Some? && (currentUser.None? || currentUser.value.userType != required) then RedirectToHome
    else RenderChildren
  }

  /**
   * Authentication is checked before the role: without it the visitor goes to
   * the login page whatever the route requires, and a user who is
   * authenticated is never sent there.
   */
  lemma LoginFirst(isAuthenticated: bool, currentUser: Option<User>, required: Option<UserType>)
    ensures Access(isAuthenticated, currentUser, required) == RedirectToLogin <==> !isAuthenticated
  {
  }

  /**
   * For an authenticated user: a route without a required role is always
   * shown; a route with one is shown exactly when the profile has that role,
   * and otherwise sends the user home.
   */
  lemma RoleGate(currentUser: Option<User>, required: Option<UserType>)
    ensures required.None? ==> Access(true, currentUser, required) == RenderChildren
    ensures required.Some? ==>
      (Access(true, currentUser, required) == RenderChildren <==>
       currentUser.Some? && currentUser.value.userType == required)
    ensures required.Some? ==>
      (Access(true, currentUser, required) == RedirectToHome <==>
       !(currentUser.Some? && currentUser.value.userType == required))
  {
  }

  /**
   * Read against the identity store's agreement: the page is shown exactly
   * when someone is signed in and, if the route requires a role, the store's
   * role is that role.
   */
  lemma AccessForStore(currentUser: Option<User>, userType: Option<UserType>, isAuthenticated: bool,
                       required: Option<UserType>)
    requires Consistent(currentUser, userType, isAuthenticated)
    ensures Access(isAuthenticated, currentUser, required) == RenderChildren <==>
      currentUser.Some? && (required.None? || userType == required)
    ensures Access(isAuthenticated, currentUser, required) == RedirectToLogin <==> currentUser.None?
  {
  }
}
