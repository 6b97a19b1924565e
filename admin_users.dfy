/**
 * The user administration API (app/api/admin/users/route.ts): listing the
 * users and changing a user's role, each behind the same session and role
 * checks. The user table is a map from user id to user; the session is a
 * parameter.
 */
module AdminUsers {
  import opened Wrappers
  import opened Http

  /** The signed-in user as the session presents it. */
  datatype SessionUser = SessionUser(id: string, role: Option<string>)

  datatype User = User(name: Option<string>, email: string, role: string, createdAt: int, lists: nat)

  type Users = map<string, User>

  const NotAuthenticated := "Non authentifié"
  const AdminRequired := "Accès non autorisé - Admin requis"
  const InvalidData := "Données invalides"
  const OwnRights := "Vous ne pouvez pas retirer vos propres droits admin"
  const ServerFailure := "Erreur serveur"

  predicate IsAdmin(u: SessionUser) {
    u.role == Some("admin")
  }

  /** `GET`: only an administrator sees the users. */
  function ListUsers(session: Option<SessionUser>, users: Users): (r: Response<Users>)
    ensures session.None? ==> r == Failure(Unauthorized, NotAuthenticated)
    ensures session.Some? && !IsAdmin(session.value) ==> r == Failure(Forbidden, AdminRequired)
    ensures r.Success? <==> session.Some? && IsAdmin(session.value)
    ensures r.Success? ==> r.body == users
  {
    if session.None? then Failure(Unauthorized, NotAuthenticated)
    else if !IsAdmin(session.value) then Failure(Forbidden, AdminRequired)
    else Success(users)
  }

  /** The body of a `PATCH`: both fields may be missing. */
  datatype RoleChange = RoleChange(userId: Option<string>, role: Option<string>)

  /** A role change names a user and one of the two roles. */
  predicate WellFormed(c: RoleChange) {
    && c.userId.Some? && c.userId.value != ""
    && c.role.Some? && c.role.value != ""
    && (c.role.value == "user" || c.role.value == "admin")
  }

  /** `PATCH`: the answer and the user table afterwards. A body that is not
      JSON, or an update of a user that does not exist, fails with 500. */
  function ChangeRole(session: Option<SessionUser>, body: Option<RoleChange>, users: Users): (r: (Response<User>, Users))
    ensures r.0.Failure? ==> r.1 == users
    ensures r.0.Success? ==>
      && session.Some? && IsAdmin(session.value) && body.Some? && WellFormed(body.value)
      && var id := body.value.userId.value;
      && id in users
      && r.0.body == users[id].(role := body.value.role.value)
      && r.1 == users[id := r.0.body]
  {
    if session.None? then (Failure(Unauthorized, NotAuthenticated), users)
    else if !IsAdmin(session.value) then (Failure(Forbidden, AdminRequired), users)
    else if body.None? then (Failure(ServerError, ServerFailure), users)
    else
      var c := body.value;
      if !WellFormed(c) then (Failure(BadRequest, InvalidData), users)
      else if c.userId.value == session.value.id && c.role.value == "user" then (Failure(BadRequest, OwnRights), users)
      else if c.userId.value !in users then (Failure(ServerError, ServerFailure), users)
      else
        var updated := users[c.userId.value].(role := c.role.value);
        (Success(updated), users[c.userId.value := updated])
  }

  /** The checks come in order: no session, then not an administrator,
      then a malformed change, then an administrator demoting themself. */
  lemma ChangeRoleGuards(session: Option<SessionUser>, body: Option<RoleChange>, users: Users)
    ensures session.None? ==> ChangeRole(session, body, users).0 == Failure(Unauthorized, NotAuthenticated)
    ensures session.Some? && !IsAdmin(session.value) ==>
      ChangeRole(session, body, users).0 == Failure(Forbidden, AdminRequired)
    ensures session.Some? && IsAdmin(session.value) && body.Some? && !WellFormed(body.value) ==>
      ChangeRole(session, body, users).0 == Failure(BadRequest, InvalidData)
    ensures (session.Some? && IsAdmin(session.value) && body.Some? && WellFormed(body.value)
             && body.value.userId.value == session.value.id && body.value.role.value == "user") ==>
      ChangeRole(session, body, users).0 == Failure(BadRequest, OwnRights)
  {
  }

  /** A change that passes every check is made: an administrator may give
      any existing user either role, themself included as long as the role
      is admin; only the role of that one user changes. */
  lemma ChangeRoleApplies(session: SessionUser, c: RoleChange, users: Users)
    requires IsAdmin(session) && WellFormed(c) && c.userId.value in users
    requires !(c.userId.value == session.id && c.role.value == "user")
    ensures var r := ChangeRole(Some(session), Some(c), users);
      && r.0.Success?
      && r.1.Keys == users.Keys
      && r.1[c.userId.value].role == c.role.value
      && (forall id :: id in users && id != c.userId.value ==> r.1[id] == users[id])
      && var u := users[c.userId.value];
      && var v := r.1[c.userId.value];
      && v.name == u.name && v.email == u.email && v.createdAt == u.createdAt && v.lists == u.lists
  {
  }

  /** No request can take the admin role away from the administrator
      making it. */
  lemma AdminKeepsOwnRole(session: SessionUser, body: Option<RoleChange>, users: Users)
    requires session.id in users && users[session.id].role == "admin"
    ensures var after := ChangeRole(Some(session), body, users).1;
      session.id in after && after[session.id].role == "admin"
  {
  }
}
