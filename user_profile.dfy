/**
 * Updating one's own profile (app/api/user/profile/route.ts): the body
 * schema with its avatar rule, the check that the new name is not someone
 * else's, and the normalised values stored. Accounts are a map from e-mail
 * address to account; the session is a parameter.
 */
module UserProfile {
  import opened Wrappers
  import opened Js
  import opened Http

  datatype SessionUser = SessionUser(id: string, email: Option<string>)

  datatype Account = Account(id: string, name: Option<string>, image: Option<string>)

  type Accounts = map<string, Account>

  /** The body of a `PATCH`; a missing name fails the schema. */
  datatype ProfileChange = ProfileChange(name: Option<string>, image: Option<string>)

  /** What the handler answers on success. */
  datatype Summary = Summary(id: string, name: Option<string>, email: string)

  const NotAuthenticated := "Non authentifié"
  const InvalidData := "Données invalides"
  const NameTaken := "Ce nom d'utilisateur est déjà utilisé"
  const SomethingWentWrong := "Une erreur est survenue"
  const MinNameLength := 3

  /** The avatar rule: no image, an empty one, a full http(s) URL or one of
      the bundled avatars. */
  predicate ImageAccepted(image: Option<string>) {
    || image.None?
    || image.value == ""
    || StartsWith(image.value, "http://")
    || StartsWith(image.value, "https://")
    || StartsWith(image.value, "/avatars/")
  }

  /** The schema: a name of at least three characters, counted before
      trimming, and an accepted image. */
  predicate SchemaAccepts(c: ProfileChange) {
    c.name.Some? && |c.name.value| >= MinNameLength && ImageAccepted(c.image)
  }

  /** The image stored: trimmed, or null when it is missing or blank. */
  function StoredImage(image: Option<string>): (r: Option<string>)
    ensures r.Some? <==> image.Some? && Trim(image.value) != ""
    ensures r.Some? ==> r.value == Trim(image.value)
  {
    if image.Some? && image.value != "" && Trim(image.value) != "" then Some(Trim(image.value)) else None
  }

  /** Another account, not the caller's, already has the name. */
  predicate NameUsedByOther(accounts: Accounts, name: string, selfId: string) {
    exists e :: e in accounts && accounts[e].name == Some(name) && accounts[e].id != selfId
  }

  /** `PATCH`: the answer and the accounts afterwards. A body that is not
      JSON, or an e-mail address with no account, fails with 500. */
  function UpdateProfile(session: Option<SessionUser>, body: Option<ProfileChange>, accounts: Accounts): (r: (Response<Summary>, Accounts))
    ensures r.0.Failure? ==> r.1 == accounts
    ensures r.0.Success? ==>
      && session.Some? && session.value.email.Some? && body.Some? && SchemaAccepts(body.value)
      && var email := session.value.email.value;
      && var name := Trim(body.value.name.value);
      && email in accounts
      && !NameUsedByOther(accounts, name, session.value.id)
      && r.1 == accounts[email := accounts[email].(name := Some(name), image := StoredImage(body.value.image))]
      && r.0.body == Summary(accounts[email].id, Some(name), email)
  {
    if session.None? || session.value.email.None? || session.value.email.value == "" then
      (Failure(Unauthorized, NotAuthenticated), accounts)
    else if body.None? then (Failure(ServerError, SomethingWentWrong), accounts)
    else if !SchemaAccepts(body.value) then (Failure(BadRequest, InvalidData), accounts)
    else
      var name := Trim(body.value.name.value);
      var email := session.value.email.value;
      if NameUsedByOther(accounts, name, session.value.id) then (Failure(BadRequest, NameTaken), accounts)
      else if email !in accounts then (Failure(ServerError, SomethingWentWrong), accounts)
      else
        var updated := accounts[email].(name := Some(name), image := StoredImage(body.value.image));
        (Success(Summary(updated.id, updated.name, email)), accounts[email := updated])
  }

  /** The error answers, in the order they are checked. */
  lemma UpdateProfileGuards(session: Option<SessionUser>, body: Option<ProfileChange>, accounts: Accounts)
    ensures (session.None? || !TruthyString(session.value.email)) ==>
      UpdateProfile(session, body, accounts).0 == Failure(Unauthorized, NotAuthenticated)
    ensures (session.Some? && TruthyString(session.value.email) && body.Some? && !SchemaAccepts(body.value)) ==>
      UpdateProfile(session, body, accounts).0 == Failure(BadRequest, InvalidData)
    ensures (session.Some? && TruthyString(session.value.email) && body.Some? && SchemaAccepts(body.value)
             && NameUsedByOther(accounts, Trim(body.value.name.value), session.value.id)) ==>
      UpdateProfile(session, body, accounts).0 == Failure(BadRequest, NameTaken)
  {
  }

  /** The length rule is applied before trimming: a name of three blanks
      passes it and is stored empty. */
  lemma BlankNameStoredEmpty(session: SessionUser, accounts: Accounts)
    requires session.email.Some? && session.email.value != "" && session.email.value in accounts
    requires !NameUsedByOther(accounts, "", session.id)
    ensures var r := UpdateProfile(Some(session), Some(ProfileChange(Some("   "), None)), accounts);
      r.0.Success? && r.1[session.email.value].name == Some("")
  {
    var blank := "   ";
    assert IsSpace(' ');
    assert blank[1..][1..] == blank[2..] && blank[2..][1..] == [];
    assert TrimStart(blank) == [];
    assert Trim(blank) == [];
  }

  /** Names stay unique: if no two accounts share a name and the session
      belongs to the account it names, an update keeps it so. */
  predicate NamesUnique(accounts: Accounts) {
    forall e, f :: e in accounts && f in accounts && e != f && accounts[e].name.Some? ==>
      accounts[e].name != accounts[f].name
  }

  lemma UpdateKeepsNamesUnique(session: SessionUser, body: Option<ProfileChange>, accounts: Accounts)
    requires NamesUnique(accounts)
    requires forall e, f :: e in accounts && f in accounts && e != f ==> accounts[e].id != accounts[f].id
    requires session.email.Some? && session.email.value in accounts ==> accounts[session.email.value].id == session.id
    ensures NamesUnique(UpdateProfile(Some(session), body, accounts).1)
  {
    var r := UpdateProfile(Some(session), body, accounts);
    if r.0.Success? {
      var email := session.email.value;
      var name := Trim(body.value.name.value);
      forall e, f | e in r.1 && f in r.1 && e != f && r.1[e].name.Some?
        ensures r.1[e].name != r.1[f].name
      {
        if e == email {
          assert accounts[f].id != session.id;
          assert accounts[f].name != Some(name);
        } else if f == email {
          assert accounts[e].id != session.id;
          assert accounts[e].name != Some(name);
        }
      }
    }
  }
}
