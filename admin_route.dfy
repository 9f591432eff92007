/**
 * The guard around the admin pages (src/routes/AdminRoute.tsx): one check
 * of the session and of the user's role decides between access and a
 * redirect, and until it finishes a placeholder is shown.
 */
module AdminRoute {
  import opened Wrappers

  datatype Status = Checking | Ok | Denied

  /** The answer of the role query on `users` for the session's user id. */
  datatype RoleQuery = QueryFailed(message: string) | NoRow | RoleRow(role: Option<string>)

  const AdminRole := "admin"

  /** The decision of `check`: access only for a session whose role row says exactly "admin". */
  function Decide(session: Option<string>, query: RoleQuery): (r: Status)
    ensures r != Checking
    ensures r == Ok <==> session.Some? && query == RoleRow(Some(AdminRole))
  {
    if session.None? then Denied
    else if query.QueryFailed? then Denied
    else if query.NoRow? || query.role != Some(AdminRole) then Denied
    else Ok
  }

  /** A role that differs from "admin" in any way, even only in case, is refused. */
  lemma OtherRolesAreDenied(userId: string, role: string)
    requires role != AdminRole
    ensures Decide(Some(userId), RoleRow(Some(role))) == Denied
    ensures Decide(Some(userId), RoleRow(Some("Admin"))) == Denied
  {
    assert "Admin"[0] != AdminRole[0];
  }

  datatype View = Placeholder | RedirectHome | Children

  /** What the guard renders for each status. */
  function Render(status: Status): (v: View)
    ensures v == Placeholder <==> status == Checking
    ensures v == RedirectHome <==> status == Denied
    ensures v == Children <==> status == Ok
  {
    match status
    case Checking => Placeholder
    case Denied => RedirectHome
    case Ok => Children
  }

  /** The children are shown exactly for an admin session. */
  lemma ChildrenOnlyForAdmins(session: Option<string>, query: RoleQuery)
    ensures Render(Decide(session, query)) == Children <==> session.Some? && query == RoleRow(Some(AdminRole))
  {
  }

  /** The guard's state: its status and the user ids whose role it queried. */
  class Guard {
    var status: Status
    var queried: seq<string>

    constructor ()
      ensures status == Checking && queried == []
    {
      status, queried := Checking, [];
    }

    /** `check`: without a session no query is made; the status is set once, to `Ok` or `Denied`. */
    method Check(session: Option<string>, query: RoleQuery)
      modifies this
      ensures status == Decide(session, query)
      ensures queried == old(queried) + (if session.Some? then [session.value] else [])
    {
      if session.None? {
        status := Denied;
        return;
      }
      queried := queried + [session.value];
      if query.QueryFailed? {
        status := Denied;
        return;
      }
      if query.NoRow? || query.role != Some(AdminRole) {
        status := Denied;
        return;
      }
      status := Ok;
    }
  }
}
