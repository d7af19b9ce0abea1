/** The route guard: what a protected page renders, given the state of the
    authentication query and the roles the route admits. */
module AuthRoute {
  import opened Common

  /** The part of the authenticated user the guard reads. */
  datatype UserData = UserData(role: string)

  datatype Decision =
    | Checking                // the "checking authentication" screen
    | Redirect(path: string)  // a `<Navigate>` to `path`
    | RenderChildren          // the protected page itself

  const LoginPath := "/login"
  const StudentHome := "/student-dashboard"
  const UnauthorizedPath := "/unauthorized"

  /** `requiredRoles.includes(role)`; an absent list admits every role, an
      empty one admits none. */
  function Admits(requiredRoles: Option<seq<string>>, role: string): (b: bool)
    ensures requiredRoles.None? ==> b
    ensures requiredRoles == Some([]) ==> !b
    ensures requiredRoles.Some? ==>
              (b <==> exists i :: 0 <= i < |requiredRoles.value| && requiredRoles.value[i] == role)
  {
    requiredRoles.None? || role in requiredRoles.value
  }

  /** The decision of `AuthRoute`. The query is still loading, it produced no
      user, the user's role is not admitted, or the page renders. */
  function Decide(isLoading: bool, userData: Option<UserData>, requiredRoles: Option<seq<string>>): (d: Decision)
    ensures isLoading ==> d == Checking
    ensures !isLoading && userData.None? ==> d == Redirect(LoginPath)
    ensures d == RenderChildren <==> !isLoading && userData.Some? && Admits(requiredRoles, userData.value.role)
    ensures d == Redirect(StudentHome) <==>
              !isLoading && userData.Some? && !Admits(requiredRoles, userData.value.role) && userData.value.role == "student"
    ensures d == Redirect(UnauthorizedPath) <==>
              !isLoading && userData.Some? && !Admits(requiredRoles, userData.value.role) && userData.value.role != "student"
  {
    if isLoading then Checking
    else if userData.None? then Redirect(LoginPath)
    else if !Admits(requiredRoles, userData.value.role) then
      (if userData.value.role == "student" then Redirect(StudentHome) else Redirect(UnauthorizedPath))
    else RenderChildren
  }

  /** A student is never sent to the unauthorized page, whatever the route
      requires. */
  lemma StudentNeverUnauthorized(isLoading: bool, requiredRoles: Option<seq<string>>)
    ensures Decide(isLoading, Some(UserData("student")), requiredRoles) != Redirect(UnauthorizedPath)
  {
  }

  /** Without a role list every signed-in user reaches the page. */
  lemma NoRolesAdmitsEveryone(u: UserData)
    ensures Decide(false, Some(u), None) == RenderChildren
  {
  }

  /** Admitting more roles never turns a render into a redirect. */
  lemma MoreRolesAdmitMore(isLoading: bool, userData: Option<UserData>, r1: seq<string>, r2: seq<string>)
    requires forall x :: x in r1 ==> x in r2
    ensures Decide(isLoading, userData, Some(r1)) == RenderChildren
            ==> Decide(isLoading, userData, Some(r2)) == RenderChildren
  {
  }

  /** Every decision is one of the five outcomes: the guard never leaves a
      path undecided. */
  lemma DecisionIsOneOfFive(isLoading: bool, userData: Option<UserData>, requiredRoles: Option<seq<string>>)
    ensures Decide(isLoading, userData, requiredRoles)
            in {Checking, Redirect(LoginPath), Redirect(StudentHome), Redirect(UnauthorizedPath), RenderChildren}
  {
  }
}
