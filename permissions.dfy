/**
 * lib/permissions.ts: `hasRole`, whether the signed-in user holds at least
 * one of the required roles.
 */
module Permissions {
  import opened Values

  /** The session's user, whose `roles` may be absent. */
  datatype SessionUser = SessionUser(roles: Option<seq<string>>)

  /** What `session?.user` reaches: no session, a session without a user, or one with a user. */
  datatype Session = Session(user: Option<SessionUser>)

  /** `requiredRoles: string | string[]` */
  datatype Required = One(role: string) | Many(roles: seq<string>)

  /** `Array.isArray(requiredRoles) ? requiredRoles : [requiredRoles]` */
  function RolesToCheck(req: Required): (r: seq<string>)
    ensures req.One? ==> r == [req.role]
    ensures req.Many? ==> r == req.roles
  {
    match req
    case One(x) => [x]
    case Many(xs) => xs
  }

  /** `rolesToCheck.some(role => userRoles.includes(role))`, scanned left to right. */
  function SomeIncluded(toCheck: seq<string>, userRoles: seq<string>): (b: bool)
    ensures b <==> exists i :: 0 <= i < |toCheck| && toCheck[i] in userRoles
  {
    if toCheck == [] then false
    else if toCheck[0] in userRoles then true
    else
      var b := SomeIncluded(toCheck[1..], userRoles);
      assert forall i :: 1 <= i < |toCheck| ==> toCheck[i] == toCheck[1..][i - 1];
      b
  }

  /** `hasRole` */
  function HasRole(session: Option<Session>, req: Required): (b: bool)
    ensures session.None? || session.value.user.None? || session.value.user.value.roles.None? ==> !b
    ensures b <==> session.Some? && session.value.user.Some? && session.value.user.value.roles.Some?
                   && exists r :: r in RolesToCheck(req) && r in session.value.user.value.roles.value
  {
    if session.None? || session.value.user.None? || session.value.user.value.roles.None? then false
    else SomeIncluded(RolesToCheck(req), session.value.user.value.roles.value)
  }

  /** A single required role is checked as the list holding it alone. */
  lemma SingleRoleAsList(session: Option<Session>, role: string)
    ensures HasRole(session, One(role)) == HasRole(session, Many([role]))
    ensures HasRole(session, One(role)) <==>
      session.Some? && session.value.user.Some? && session.value.user.value.roles.Some?
      && role in session.value.user.value.roles.value
  {
  }

  /** Requiring no role at all is never satisfied. */
  lemma NoRequiredRoles(session: Option<Session>)
    ensures !HasRole(session, Many([]))
  {
  }

  /** Requiring more roles can only let more users through. */
  lemma MoreRequiredRoles(session: Option<Session>, xs: seq<string>, ys: seq<string>)
    ensures HasRole(session, Many(xs)) ==> HasRole(session, Many(xs + ys))
    ensures HasRole(session, Many(xs + ys)) <==> HasRole(session, Many(xs)) || HasRole(session, Many(ys))
  {
    if session.Some? && session.value.user.Some? && session.value.user.value.roles.Some? {
      var u := session.value.user.value.roles.value;
      if HasRole(session, Many(xs + ys)) {
        var r :| r in xs + ys && r in u;
        assert r in xs || r in ys;
      }
      if HasRole(session, Many(xs)) {
        var r :| r in xs && r in u;
        assert r in xs + ys;
      }
      if HasRole(session, Many(ys)) {
        var r :| r in ys && r in u;
        assert r in xs + ys;
      }
    }
  }
}
