/** The route table and its guards (src/App.tsx). A location is given as its
    path segments, "/admin/projects/new" being ["admin", "projects", "new"];
    the current user is given by its role. */
module AppRoutes {
  import opened Wrappers
  import opened Types

  datatype Page =
    | Landing | LoginForm | SignupForm
    | StudentHome | MyProjects | Notifications | Profile
    | AdminDashboard | AdminProjects | AddProject | Registrants | Statistics
    | NotFound

  /** What the router shows: a page, or a redirect to another path. */
  datatype View = Render(page: Page) | Redirect(to: string)

  /** The home of a role: `user.role === 'admin' ? '/admin' : '/student'`. */
  function Home(role: Role): (path: string)
    ensures role == Admin ==> path == "/admin"
    ensures role == Student ==> path == "/student"
  {
    if role == Admin then "/admin" else "/student"
  }

  /** ProtectedRoute: without a user, go to the login page; with a required
      role the user lacks, go to the user's own home; otherwise show the
      page. */
  function Guard(user: Option<Role>, required: Option<Role>, page: Page): (v: View)
    ensures user.None? ==> v == Redirect("/login")
    ensures user.Some? && required.Some? && user.value != required.value ==>
      v == Redirect(Home(user.value))
    ensures v.Render? <==> user.Some? && (required.None? || user.value == required.value)
    ensures v.Render? ==> v.page == page
  {
    if user.None? then Redirect("/login")
    else if required.Some? && user.value != required.value then Redirect(Home(user.value))
    else Render(page)
  }

  /** The child routes under /student. */
  function StudentChild(rest: seq<string>): Option<Page> {
    if rest == [] then Some(StudentHome)
    else if rest == ["my-projects"] then Some(MyProjects)
    else if rest == ["notifications"] then Some(Notifications)
    else if rest == ["profile"] then Some(Profile)
    else None
  }

  /** The child routes under /admin. */
  function AdminChild(rest: seq<string>): Option<Page> {
    if rest == [] then Some(AdminDashboard)
    else if rest == ["projects"] then Some(AdminProjects)
    else if rest == ["projects", "new"] then Some(AddProject)
    else if rest == ["registrants"] then Some(Registrants)
    else if rest == ["statistics"] then Some(Statistics)
    else None
  }

  /** AppRoutes: the declared routes, and the catch-all for everything
      else. A logged-in user is sent home from /login, and always to
      /student from /signup. */
  function Resolve(segments: seq<string>, user: Option<Role>): View {
    if segments == [] then Render(Landing)
    else if segments == ["login"] then
      (if user.Some? then Redirect(Home(user.value)) else Render(LoginForm))
    else if segments == ["signup"] then
      (if user.Some? then Redirect("/student") else Render(SignupForm))
    else if segments[0] == "student" && StudentChild(segments[1..]).Some? then
      Guard(user, Some(Student), StudentChild(segments[1..]).value)
    else if segments[0] == "admin" && AdminChild(segments[1..]).Some? then
      Guard(user, Some(Admin), AdminChild(segments[1..]).value)
    else Render(NotFound)
  }

  predicate IsAdminPage(p: Page) {
    p.AdminDashboard? || p.AdminProjects? || p.AddProject? || p.Registrants? || p.Statistics?
  }

  predicate IsStudentPage(p: Page) {
    p.StudentHome? || p.MyProjects? || p.Notifications? || p.Profile?
  }

  /** Only an admin ever sees an admin page, and only a student a student
      page; every other user is redirected before the page renders. */
  lemma RolePagesNeedRole(segments: seq<string>, user: Option<Role>)
    ensures Resolve(segments, user).Render? && IsAdminPage(Resolve(segments, user).page) ==>
      user == Some(Admin)
    ensures Resolve(segments, user).Render? && IsStudentPage(Resolve(segments, user).page) ==>
      user == Some(Student)
  {
  }

  /** The links other pages build for editing a project and for a project's
      details are not declared, so they fall through to the not-found page
      whoever follows them. */
  lemma UndeclaredLinksAreNotFound(id: string, user: Option<Role>)
    ensures Resolve(["admin", "projects", "edit", id], user) == Render(NotFound)
    ensures Resolve(["student", "project", id], user) == Render(NotFound)
  {
    assert ["admin", "projects", "edit", id][1..] == ["projects", "edit", id];
    assert ["student", "project", id][1..] == ["project", id];
  }

  /** The login and signup pages are for visitors: a logged-in user is sent
      from /login to their role's home, and from /signup to /student, which
      an admin is then sent on from to /admin. */
  lemma VisitorPagesRedirect(role: Role)
    ensures Resolve(["login"], None) == Render(LoginForm)
    ensures Resolve(["signup"], None) == Render(SignupForm)
    ensures Resolve(["login"], Some(role)) == Redirect(Home(role))
    ensures Resolve(["signup"], Some(role)) == Redirect("/student")
    ensures Resolve(["student"], Some(role)) == (if role == Student then Render(StudentHome) else Redirect("/admin"))
  {
    assert ["student"][1..] == [];
  }
}
