/**
 * The session gate: the credential store (the browser's `localStorage`, a map
 * from key to string), the `PrivateRoute` guard that admits a protected route
 * only when an `authToken` is stored, and the header's logout action.
 */
module Session {
  import opened Wrappers
  import Text

  type Store = map<string, string>

  /** The storage key holding the bearer token. */
  const AuthTokenKey: string := "authToken"

  /** The public entry route (the login page). */
  const EntryPath: string := "/"

  /** What a route renders: a `<Navigate to=... replace />` redirect or the requested element. */
  datatype Route<E> = Redirect(target: string, replace: bool) | Render(element: E)

  /** `localStorage.getItem("authToken")`: the stored token, or `null`. */
  function GetToken(store: Store): Option<string> {
    if AuthTokenKey in store then Some(store[AuthTokenKey]) else None
  }

  /** A token is truthy: present and not the empty string. */
  predicate HasToken(store: Store) {
    Truthy(GetToken(store))
  }

  /**
   * `PrivateRoute`: renders `element` unchanged when the stored token is
   * truthy, and redirects to the entry route with `replace` otherwise. The
   * token is not inspected beyond its truthiness (no expiry, no format), and
   * the guard only reads the store.
   */
  function Guard<E>(store: Store, element: E): (r: Route<E>)
    ensures r.Render? <==> AuthTokenKey in store && store[AuthTokenKey] != ""
    ensures r.Render? ==> r.element == element
    ensures r.Redirect? ==> r.target == EntryPath && r.replace
  {
    if !Truthy(GetToken(store)) then Redirect(EntryPath, true) else Render(element)
  }

  /** An absent key and an empty token are both rejected. */
  lemma GuardRejectsMissingOrEmptyToken<E>(store: Store, element: E)
    requires AuthTokenKey !in store || store[AuthTokenKey] == ""
    ensures Guard(store, element) == Redirect(EntryPath, true)
  {
  }

  /** The decision depends only on whether the token is truthy: other keys and the token's value do not matter. */
  lemma GuardDependsOnlyOnToken<E>(s1: Store, s2: Store, element: E)
    requires HasToken(s1) == HasToken(s2)
    ensures Guard(s1, element) == Guard(s2, element)
  {
  }

  /** `path` consists of `prefix` followed by one non-empty path segment (a `:id` parameter). */
  predicate IsParamRoute(path: string, prefix: string) {
    Text.StartsWith(path, prefix) && |path| > |prefix| && '/' !in path[|prefix|..]
  }

  /** The route keys of the router table that are wrapped in `PrivateRoute` (every route but the entry route). */
  predicate IsProtectedPath(path: string) {
    path == "/dashboard" || path == "/create-investor" || path == "/investors" ||
    IsParamRoute(path, "/edit-investor/") || IsParamRoute(path, "/investor/")
  }

  /** `path` without its trailing slashes; a lone "/" is kept. */
  function TrimTrailingSlashes(path: string): (r: string)
    ensures |r| <= |path| && r == path[..|r|]
    ensures |r| > 1 ==> r[|r| - 1] != '/'
    ensures forall i :: |r| <= i < |path| ==> path[i] == '/'
  {
    if |path| > 1 && path[|path| - 1] == '/' then TrimTrailingSlashes(path[..|path| - 1]) else path
  }

  /**
   * The form in which the router compares a path with its table. Route
   * patterns match without regard to letter case and accept any number of
   * trailing slashes, so letters are lower-cased and trailing slashes dropped.
   */
  function RouteKey(path: string): string {
    TrimTrailingSlashes(Text.Lower(path))
  }

  /** A trailing slash and the letter case of a path do not change which route it reaches. */
  lemma RouteKeyIgnoresCaseAndTrailingSlash(path: string)
    requires path != ""
    ensures RouteKey(path + "/") == RouteKey(path)
    ensures RouteKey(Text.Lower(path)) == RouteKey(path)
  {
    var l := Text.Lower(path);
    Text.LowerConcat(path, "/");
    assert Text.Lower("/") == "/";
    assert (l + "/")[..|l|] == l;
    Text.LowerIdempotent(path);
  }

  /** The route of an investor's edit page and of its profile page. */
  function EditInvestorPath(id: string): string { "/edit-investor/" + id }
  function InvestorProfilePath(id: string): string { "/investor/" + id }

  /** A page of the router table. */
  datatype Page = LoginPage | ProtectedPage(path: string)

  /**
   * The router table: a path whose route key is the entry route renders the
   * login page, one whose key is a protected route goes through the guard,
   * and any other path matches no route.
   */
  function Resolve(store: Store, path: string): (r: Option<Route<Page>>)
    ensures RouteKey(path) == EntryPath ==> r == Some(Render(LoginPage))
    ensures IsProtectedPath(RouteKey(path)) ==> r.Some? && (r.value.Render? <==> HasToken(store))
    ensures RouteKey(path) != EntryPath && !IsProtectedPath(RouteKey(path)) ==> r.None?
  {
    if RouteKey(path) == EntryPath then Some(Render(LoginPage))
    else if IsProtectedPath(RouteKey(path)) then Some(Guard(store, ProtectedPage(path)))
    else None
  }

  /** `prefix + id` reaches the parameter route `prefix:id` when `id` is one path segment. */
  lemma ParamRouteReached(prefix: string, id: string)
    requires forall i :: 0 <= i < |prefix| ==> !('A' <= prefix[i] <= 'Z')
    requires id != "" && '/' !in id
    ensures IsParamRoute(RouteKey(prefix + id), prefix)
  {
    var li := Text.Lower(id);
    Text.LowerFixesLowerCase(prefix);
    Text.LowerConcat(prefix, id);
    Text.LowerKeepsNonLetter(id, '/');
    var l := prefix + li;
    assert l[|l| - 1] == li[|li| - 1];
    assert li[|li| - 1] in li;
    assert TrimTrailingSlashes(l) == l;
    assert l[..|prefix|] == prefix;
    assert l[|prefix|..] == li;
  }

  /**
   * The links the application builds for an investor, whatever the letter
   * case of its id, go through the guard, for any id that is one path segment.
   */
  lemma InvestorPagesAreProtected(store: Store, id: string)
    requires id != "" && '/' !in id
    ensures Resolve(store, EditInvestorPath(id)) == Some(Guard(store, ProtectedPage(EditInvestorPath(id))))
    ensures Resolve(store, InvestorProfilePath(id)) == Some(Guard(store, ProtectedPage(InvestorProfilePath(id))))
  {
    ParamRouteReached("/edit-investor/", id);
    ParamRouteReached("/investor/", id);
    assert RouteKey(EditInvestorPath(id)) != EntryPath;
    assert RouteKey(InvestorProfilePath(id)) != EntryPath;
  }

  /** The browser state the header acts on: the credential store and the last navigation target. */
  class Browser {
    var storage: Store
    var navigatedTo: Option<string>

    constructor (storage: Store)
      ensures this.storage == storage && navigatedTo == None
    {
      this.storage := storage;
      navigatedTo := None;
    }
  }

  /** The store after `localStorage.removeItem("authToken")`. */
  function RemoveToken(store: Store): (r: Store)
    ensures AuthTokenKey !in r
    ensures forall k :: k != AuthTokenKey ==> (k in r <==> k in store)
    ensures forall k :: k in r ==> r[k] == store[k]
  {
    store - {AuthTokenKey}
  }

  /** `handleLogout`: removes the token and navigates to the entry route. */
  method HandleLogout(browser: Browser)
    modifies browser
    ensures browser.storage == RemoveToken(old(browser.storage))
    ensures browser.navigatedTo == Some(EntryPath)
  {
    browser.storage := browser.storage - {AuthTokenKey};
    browser.navigatedTo := Some(EntryPath);
  }

  /** Logging out twice leaves the same store as logging out once. */
  lemma LogoutIdempotent(store: Store)
    ensures RemoveToken(RemoveToken(store)) == RemoveToken(store)
  {
  }

  /** After logout every protected route redirects to the entry route. */
  lemma LogoutRedirectsEveryProtectedRoute(store: Store, path: string)
    requires IsProtectedPath(RouteKey(path))
    ensures Resolve(RemoveToken(store), path) == Some(Redirect(EntryPath, true))
  {
  }
}
