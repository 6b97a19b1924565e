/**
 * The request guard run in front of the pages and the API (proxy.ts): the
 * path classification and the one redirect decision. Whether the request
 * carries a valid session token is a parameter; reading it is not
 * modelled.
 */
module Proxy {
  import opened Js

  const AuthRoot := "/auth"
  const SignInPage := AuthRoot + "/signin"
  const ListsPage := "/lists"

  /** The sign-in and sign-up pages. */
  function IsAuthPage(path: string): (r: bool)
    ensures r <==> OccursAt(path, AuthRoot, 0)
  {
    StartsWith(path, AuthRoot)
  }

  /** Pages that need a session: one's own lists, the list creation form,
      any edit page and the profile. */
  function IsProtectedRoute(path: string): (r: bool)
    ensures r <==>
      || path == ListsPage
      || OccursAt(path, "/lists/new", 0)
      || (exists i :: OccursAt(path, "/edit", i))
      || OccursAt(path, "/profile", 0)
  {
    || path == "/lists"
    || StartsWith(path, "/lists/new")
    || Includes(path, "/edit")
    || StartsWith(path, "/profile")
  }

  /** API calls that need a session, `&&` binding tighter than `||`:
      creating a list, anything under an edit path, changing albums (any
      method but GET), and import, export and reordering. */
  function IsProtectedApiRoute(path: string, verb: string): (r: bool)
    ensures r <==>
      || (path == "/api/lists" && verb == "POST")
      || (exists i :: OccursAt(path, "/edit", i))
      || ((exists i :: OccursAt(path, "/albums", i)) && verb != "GET")
      || (exists i :: OccursAt(path, "/import", i))
      || (exists i :: OccursAt(path, "/export", i))
      || (exists i :: OccursAt(path, "/reorder", i))
  {
    || (path == "/api/lists" && verb == "POST")
    || Includes(path, "/edit")
    || (Includes(path, "/albums") && verb != "GET")
    || Includes(path, "/import")
    || Includes(path, "/export")
    || Includes(path, "/reorder")
  }

  datatype Decision = Redirect(target: string) | Next

  /** `proxy`: a request for a protected page or call without a session is
      sent to sign in; a signed-in request for a sign-in page is sent to
      the lists; everything else goes through. */
  function Decide(path: string, verb: string, isAuth: bool): (d: Decision)
    ensures d.Redirect? ==> d.target == SignInPage || d.target == ListsPage
  {
    if (IsProtectedRoute(path) || IsProtectedApiRoute(path, verb)) && !isAuth then Redirect(SignInPage)
    else if IsAuthPage(path) && isAuth then Redirect(ListsPage)
    else Next
  }

  /** Who is sent where: only requests without a session are sent to sign
      in, exactly when they ask for something protected; only signed-in
      requests are sent to the lists, exactly when they ask for a sign-in
      page. A protected path that is also a sign-in page sends an anonymous
      request to sign in, since that rule is checked first. */
  lemma DecideCases(path: string, verb: string, isAuth: bool)
    ensures Decide(path, verb, isAuth) == Redirect(SignInPage) <==>
      !isAuth && (IsProtectedRoute(path) || IsProtectedApiRoute(path, verb))
    ensures Decide(path, verb, isAuth) == Redirect(ListsPage) <==>
      isAuth && IsAuthPage(path)
    ensures Decide(path, verb, isAuth) == Next <==>
      (isAuth || !(IsProtectedRoute(path) || IsProtectedApiRoute(path, verb))) && !(isAuth && IsAuthPage(path))
  {
  }

  /** Following a redirect with GET and the same session goes through: the
      sign-in page is neither protected nor, without a session, redirected,
      and the lists page is not a sign-in page. */
  lemma NoRedirectLoop(path: string, verb: string, isAuth: bool)
    requires Decide(path, verb, isAuth).Redirect?
    ensures Decide(Decide(path, verb, isAuth).target, "GET", isAuth) == Next
  {
    var t := Decide(path, verb, isAuth).target;
    if t == SignInPage {
      SignInNotProtected();
    } else {
      DiffersAt(ListsPage, AuthRoot, 1);
    }
  }

  /** The sign-in page is neither a protected page nor a protected call. */
  lemma SignInNotProtected()
    ensures !IsProtectedRoute(SignInPage) && !IsProtectedApiRoute(SignInPage, "GET")
  {
    var p := SignInPage;
    SlashesOfSignIn();
    NoGuardedWord(p);
    DiffersAt(p, "/profile", 1);
    DiffersAt(p, "/lists/new", 1);
  }

  /** Every slash of the sign-in page starts "/a" or "/s". */
  lemma SlashesOfSignIn()
    ensures forall i :: 0 <= i < |SignInPage| - 1 && SignInPage[i] == '/' ==>
      SignInPage[i + 1] == 'a' || SignInPage[i + 1] == 's'
  {
  }

  /** An unauthenticated GET of someone's list ("/lists/abc") goes
      through: only one's own lists, creation and editing are guarded. */
  lemma ViewingAListIsPublic()
    ensures Decide(ListsPage + "/abc", "GET", false) == Next
  {
    var p := ListsPage + "/abc";
    SlashesOfList(p);
    NoGuardedWord(p);
    DiffersAt(p, "/lists/new", 7);
    DiffersAt(p, "/profile", 1);
    DiffersAt(p, AuthRoot, 1);
  }

  /** Every slash of "/lists/abc" starts "/l" or "/a". */
  lemma SlashesOfList(p: string)
    requires p == ListsPage + "/abc"
    ensures forall i :: 0 <= i < |p| - 1 && p[i] == '/' ==> p[i + 1] == 'l' || p[i + 1] == 'a'
  {
  }

  /** A path in which no slash starts "/e", "/i" or "/r" is no edit path
      and no protected GET call. */
  lemma NoGuardedWord(p: string)
    requires forall i :: 0 <= i < |p| - 1 && p[i] == '/' ==> p[i + 1] != 'e' && p[i + 1] != 'i' && p[i + 1] != 'r'
    ensures !Includes(p, "/edit") && !IsProtectedApiRoute(p, "GET")
  {
    SlashWordAbsent(p, "/edit");
    SlashWordAbsent(p, "/import");
    SlashWordAbsent(p, "/export");
    SlashWordAbsent(p, "/reorder");
  }

  /** A path does not start with a prefix it differs from at `k`. */
  lemma DiffersAt(p: string, prefix: string, k: nat)
    requires k < |prefix| && k < |p| && p[k] != prefix[k]
    ensures !StartsWith(p, prefix)
  {
    if |prefix| <= |p| {
      assert p[..|prefix|][k] == p[k];
    }
  }

  /** A word `/x...` is absent from a path in which no slash is followed
      by `x`. */
  lemma SlashWordAbsent(p: string, w: string)
    requires |w| >= 2 && w[0] == '/'
    requires forall i :: 0 <= i < |p| - 1 && p[i] == '/' ==> p[i + 1] != w[1]
    ensures !Includes(p, w)
  {
    forall i: nat ensures !OccursAt(p, w, i) {
      if i + |w| <= |p| {
        assert p[i..i + |w|][0] == p[i] && p[i..i + |w|][1] == p[i + 1];
      }
    }
  }
}
