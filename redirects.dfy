/**
 * app/auth/redirecting/page.tsx: where a user lands after signing in. The
 * effect waits for the session, sends anyone without one to the login
 * page, administrators to the admin area, and everyone else to their
 * department's area when the table lists it.
 */
module AuthRedirect {
  import opened Text
  import opened Values

  /** The `status` of `useSession()`. */
  datatype Status = Loading | Authenticated | Unauthenticated

  /** The session's user: its department and its roles, each possibly absent. */
  datatype User = User(department: Option<string>, roles: Option<seq<string>>)

  datatype Session = Session(user: Option<User>)

  const Rh := "ressources humaines"
  const ItOps := "op\U{e9}rations it"
  const Dev := "d\U{e9}veloppement logiciel"
  const Tech := "technologie"
  const Fin := "finance"
  const Dg := "direction g\U{e9}n\U{e9}rale"

  /** `departmentRoutes`, keyed by lower-cased department name. */
  const DepartmentRoutes := map[Rh := "/rh", ItOps := "/it-support", Dev := "/dev", Tech := "/tech", Fin := "/fin", Dg := "/dg"]

  /** `session.user.department?.toLowerCase() ?? ''` */
  function LoweredDepartment(u: User): string {
    match u.department case Some(d) => Lower(d) case None => ""
  }

  /** `session.user.roles ?? []` */
  function RolesOf(u: User): seq<string> {
    match u.roles case Some(rs) => rs case None => []
  }

  /**
   * The effect of RedirectingPage: `None` while the session loads, otherwise
   * the path handed to `router.replace`.
   */
  function RedirectPath(status: Status, session: Option<Session>): (r: Option<string>)
    ensures status == Loading <==> r.None?
    ensures status != Loading && (status == Unauthenticated || session.None? || session.value.user.None?) ==>
      r == Some("/login")
    ensures status == Authenticated && session.Some? && session.value.user.Some? ==>
      var u := session.value.user.value;
      var d := LoweredDepartment(u);
      && ("ADMIN" in RolesOf(u) ==> r == Some("/admin"))
      && ("ADMIN" !in RolesOf(u) && d in DepartmentRoutes ==> r == Some(DepartmentRoutes[d]))
      && ("ADMIN" !in RolesOf(u) && d !in DepartmentRoutes ==> r == Some("/"))
  {
    if status == Loading then None
    else if status == Unauthenticated || session.None? || session.value.user.None? then Some("/login")
    else
      var u := session.value.user.value;
      var d := LoweredDepartment(u);
      if "ADMIN" in RolesOf(u) then Some("/admin")
      else if d != "" && d in DepartmentRoutes then Some(DepartmentRoutes[d])
      else Some("/")
  }

  /** Lower-casing a character twice changes nothing more. */
  lemma LowerCharIdempotent(c: char)
    ensures LowerChar(LowerChar(c)) == LowerChar(c)
  {
  }

  /** Department names are compared without regard to case: what was lowered already leads to the same place. */
  lemma CaseInsensitive(status: Status, d: string, roles: Option<seq<string>>)
    ensures RedirectPath(status, Some(Session(Some(User(Some(Lower(d)), roles)))))
         == RedirectPath(status, Some(Session(Some(User(Some(d), roles)))))
  {
    assert Lower(Lower(d)) == Lower(d) by {
      forall i | 0 <= i < |d| ensures Lower(Lower(d))[i] == Lower(d)[i] {
        LowerCharIdempotent(d[i]);
      }
    }
  }

  /** An authenticated user always goes somewhere other than the login page. */
  lemma SignedInNeverToLogin(s: Session)
    requires s.user.Some?
    ensures RedirectPath(Authenticated, Some(s)) != Some("/login")
    ensures RedirectPath(Authenticated, Some(s)).value in {"/admin", "/", "/rh", "/it-support", "/dev", "/tech", "/fin", "/dg"}
  {
    var d := LoweredDepartment(s.user.value);
    if d in DepartmentRoutes {
      assert d in {Rh, ItOps, Dev, Tech, Fin, Dg};
    }
  }
}

/**
 * app/page.tsx: the welcome page sends a signed-in user straight to their
 * area, trying the administrator role first and then the department by its
 * French or English name; without a session the page itself is shown.
 */
module WelcomeRedirect {
  import opened Text
  import opened Values
  import opened AuthRedirect

  /** The target of `redirect` in WelcomePage, or `None` when the welcome page renders. */
  function WelcomeTarget(session: Option<Session>): (r: Option<string>)
    ensures session.None? || session.value.user.None? <==> r.None?
    ensures session.Some? && session.value.user.Some? && "ADMIN" in RolesOf(session.value.user.value) ==> r == Some("/admin")
  {
    if session.None? || session.value.user.None? then None
    else
      var u := session.value.user.value;
      var d := LoweredDepartment(u);
      if "ADMIN" in RolesOf(u) then Some("/admin")
      else if d == Rh || d == "human resources" then Some("/rh")
      else if d == ItOps || d == "it operations" then Some("/it-support")
      else if d == Dev || d == "software development" then Some("/dev")
      else if d == Tech || d == "technology" then Some("/tech")
      else if d == Fin then Some("/fin")
      else if d == Dg || d == "general management" then Some("/dg")
      else Some("/dashboard")
  }

  /** The English department names the welcome page knows besides the French ones, with their areas. */
  const EnglishRoutes := map["human resources" := "/rh", "it operations" := "/it-support",
                             "software development" := "/dev", "technology" := "/tech", "general management" := "/dg"]

  /**
   * For a signed-in user the two pages agree wherever the redirecting page
   * finds a destination; where it falls back to `/`, the welcome page tries
   * the English names and otherwise falls back to `/dashboard`.
   */
  lemma PagesAgree(s: Session)
    requires s.user.Some?
    ensures var after := RedirectPath(Authenticated, Some(s)).value;
      var d := LoweredDepartment(s.user.value);
      && (after != "/" ==> WelcomeTarget(Some(s)) == Some(after))
      && (after == "/" && d in EnglishRoutes ==> WelcomeTarget(Some(s)) == Some(EnglishRoutes[d]))
      && (after == "/" && d !in EnglishRoutes ==> WelcomeTarget(Some(s)) == Some("/dashboard"))
  {
  }
}
