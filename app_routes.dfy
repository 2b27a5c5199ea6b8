/** The route guard and route table of src/App.jsx. The signed-in user, which
    the source hard-codes, is a parameter. */
module AppRoutes {
  import opened JsValues

  datatype User = User(id: string, role: string)

  /** What `ProtectedRoute` renders: its children, or a `<Navigate>` to a path. */
  datatype Guard = RenderChildren | Redirect(to: string)

  /** The user the source's `ProtectedRoute` uses in place of the auth context. */
  const MockUser: Option<User> := Some(User("1", "student"))

  /** JavaScript truthiness of the `allowedRole` prop. */
  predicate RoleRequired(allowedRole: Option<string>) {
    allowedRole.Some? && allowedRole.value != ""
  }

  /** Where a signed-in user of the wrong role is sent. */
  function HomeOf(role: string): string {
    if role == "student" then "/student/dashboard"
    else if role == "teacher" then "/teacher/dashboard"
    else "/login"
  }

  /** `ProtectedRoute`: children render exactly for a signed-in user whose role
      is the one required, if any; otherwise the user is sent to the login page
      or to their own dashboard. */
  function ProtectedRoute(user: Option<User>, allowedRole: Option<string>): (g: Guard)
    ensures g == RenderChildren <==>
      user.Some? && (!RoleRequired(allowedRole) || allowedRole.value == user.value.role)
    ensures user.None? ==> g == Redirect("/login")
    ensures user.Some? && g.Redirect? ==> g.to == HomeOf(user.value.role)
  {
    if user.None? then Redirect("/login")
    else if RoleRequired(allowedRole) && user.value.role != allowedRole.value then
      Redirect(HomeOf(user.value.role))
    else RenderChildren
  }

  /** How a route's element is built: unguarded, wrapped in `ProtectedRoute`
      with an `allowedRole`, or the catch-all `<Navigate>`. */
  datatype Element = Public | Guarded(role: string) | Fallback(to: string)

  datatype Route = Route(path: string, element: Element)

  /** The `<Routes>` of `App`, in order. */
  const Routes: seq<Route> := [
    Route("/", Public),
    Route("/login", Public),
    Route("/signup", Public),
    Route("/student/dashboard", Guarded("student")),
    Route("/student/profile", Guarded("student")),
    Route("/teacher/dashboard", Guarded("teacher")),
    Route("/teacher/students", Guarded("teacher")),
    Route("/teacher/profile", Guarded("teacher")),
    Route("*", Fallback("/"))
  ]

  /** The route a path selects: the one declared with exactly that path, or
      the catch-all when no route declares it. */
  function Resolve(path: string): (r: Route)
    ensures r in Routes
    ensures r.path == path || r == Routes[|Routes| - 1]
    ensures (exists j :: 0 <= j < |Routes| && Routes[j].path == path) ==> r.path == path
    ensures (forall j :: 0 <= j < |Routes| ==> Routes[j].path != path) ==> r == Routes[|Routes| - 1]
  {
    if path == "/" then Routes[0]
    else if path == "/login" then Routes[1]
    else if path == "/signup" then Routes[2]
    else if path == "/student/dashboard" then Routes[3]
    else if path == "/student/profile" then Routes[4]
    else if path == "/teacher/dashboard" then Routes[5]
    else if path == "/teacher/students" then Routes[6]
    else if path == "/teacher/profile" then Routes[7]
    else Routes[8]
  }

  /** What visiting a route shows a user. */
  function Visit(user: Option<User>, r: Route): Guard {
    match r.element
    case Public => RenderChildren
    case Guarded(role) => ProtectedRoute(user, Some(role))
    case Fallback(to) => Redirect(to)
  }

  /** No redirect loops: wherever a route sends a user, the page there renders
      for that same user. In particular a guarded route never sends a user
      back to a route that would redirect them again. */
  lemma RedirectsLandOnRenderedPages(user: Option<User>, i: int)
    requires 0 <= i < |Routes|
    ensures Visit(user, Routes[i]).Redirect? ==>
      Visit(user, Resolve(Visit(user, Routes[i]).to)) == RenderChildren
  {
  }

  /** With the hard-coded user every teacher page redirects to the student dashboard. */
  lemma MockUserKeptOffTeacherPages(i: int)
    requires 0 <= i < |Routes| && Routes[i].element == Guarded("teacher")
    ensures Visit(MockUser, Routes[i]) == Redirect("/student/dashboard")
  {
  }
}
