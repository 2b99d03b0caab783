/**
 * The admin session (`AuthProvider`): a user restored from `localStorage` on start, a
 * fixed-credential login, logout, and the route guard that sends visitors of the admin
 * area to the login page and signed-in users away from it.
 */
module Auth {
  import opened Wrappers
  import opened JsText

  datatype User = User(email: string, name: string)

  const UserKey := "portfolio_admin_user"
  const AdminEmail := "admin@example.com"
  const AdminPassword := "password"
  const AdminName := "Admin User"
  const AdminPath := "/admin"
  const LoginPath := "/admin/login"

  /** The `user` and `isLoading` states and the browser's `localStorage`. */
  datatype Session = Session(user: Option<User>, isLoading: bool, storage: map<string, string>)

  /** The session after `checkAuth`. `parse` stands for `JSON.parse` of the stored text:
      `None` when it throws, `Some(None)` when the text is `null`. A throw escapes the
      effect before `setIsLoading(false)`, so loading never ends. */
  function AfterCheckAuth(s: Session, parse: string -> Option<Option<User>>): Session {
    if UserKey in s.storage && s.storage[UserKey] != "" then
      match parse(s.storage[UserKey])
      case None => s
      case Some(u) => s.(user := u, isLoading := false)
    else
      s.(isLoading := false)
  }

  /** `checkAuth` only reads storage; it restores the stored user when there is one and
      always ends loading, unless the stored text does not parse. */
  lemma CheckAuthSpec(s: Session, parse: string -> Option<Option<User>>)
    ensures var r := AfterCheckAuth(s, parse);
      && r.storage == s.storage
      && (!(UserKey in s.storage && s.storage[UserKey] != "") ==> r == s.(isLoading := false))
      && (UserKey in s.storage && s.storage[UserKey] != "" && parse(s.storage[UserKey]).Some? ==>
            r.user == parse(s.storage[UserKey]).value && !r.isLoading)
      && (r.isLoading ==> s.isLoading && UserKey in s.storage && parse(s.storage[UserKey]).None?)
  {
  }

  /** The pages the redirect effect pushes for this user, path and loading state
      (`pathname` is `None` when the router has none). */
  function Redirects(user: Option<User>, pathname: Option<string>, isLoading: bool): seq<string> {
    if isLoading then []
    else
      (if user.None? && pathname.Some? && StartsWith(pathname.value, AdminPath) && pathname.value != LoginPath
       then [LoginPath] else [])
      + (if user.Some? && pathname == Some(LoginPath) then [AdminPath] else [])
  }

  /** The route guard: nothing happens while loading or outside the admin area; a visitor
      without a user on an admin page other than the login page is sent to the login
      page; a signed-in user on the login page is sent to `/admin`; never both. */
  lemma RedirectRules(user: Option<User>, pathname: Option<string>, isLoading: bool)
    ensures var r := Redirects(user, pathname, isLoading);
      && |r| <= 1
      && (isLoading ==> r == [])
      && (pathname.None? || !StartsWith(pathname.value, AdminPath) ==> r == [])
      && (r == [LoginPath] <==> !isLoading && user.None? && pathname.Some?
                                && StartsWith(pathname.value, AdminPath) && pathname.value != LoginPath)
      && (r == [AdminPath] <==> !isLoading && user.Some? && pathname == Some(LoginPath))
  {
    assert [LoginPath] != [AdminPath] by {
      assert [LoginPath][0] != [AdminPath][0] by { assert |LoginPath| != |AdminPath|; }
    }
    if pathname == Some(LoginPath) {
      assert StartsWith(LoginPath, AdminPath);
    }
  }

  /** A redirect never triggers another: the page it goes to is left alone by the guard
      for the same user. */
  lemma RedirectsSettle(user: Option<User>, pathname: Option<string>)
    ensures forall p :: p in Redirects(user, pathname, false) ==> Redirects(user, Some(p), false) == []
  {
    assert StartsWith(LoginPath, AdminPath);
  }

  /** The session after `login(email, password)` and its result. `stringify` stands for
      `JSON.stringify`. */
  function AfterLogin(s: Session, email: string, password: string, stringify: User -> string): (Session, bool) {
    if email == AdminEmail && password == AdminPassword then
      var u := User(email, AdminName);
      (s.(user := Some(u), storage := s.storage[UserKey := stringify(u)]), true)
    else
      (s, false)
  }

  /** Only the fixed credentials succeed; success signs in "Admin User" and stores it,
      failure changes nothing. */
  lemma LoginSpec(s: Session, email: string, password: string, stringify: User -> string)
    ensures var (r, ok) := AfterLogin(s, email, password, stringify);
      && (ok <==> email == AdminEmail && password == AdminPassword)
      && (ok ==> r.user == Some(User(AdminEmail, AdminName))
                 && r.storage == s.storage[UserKey := stringify(User(AdminEmail, AdminName))]
                 && r.isLoading == s.isLoading)
      && (!ok ==> r == s)
  {
  }

  /** The session after `logout`: no user and no stored user. */
  function AfterLogout(s: Session): Session {
    s.(user := None, storage := s.storage - {UserKey})
  }

  /** A successful login survives a reload: the next `checkAuth` restores the same user,
      provided `JSON.parse` inverts `JSON.stringify` on it. */
  lemma LoginThenReload(s: Session, stringify: User -> string, parse: string -> Option<Option<User>>)
    requires var u := User(AdminEmail, AdminName); parse(stringify(u)) == Some(Some(u)) && stringify(u) != ""
    ensures var (signedIn, _) := AfterLogin(s, AdminEmail, AdminPassword, stringify);
      AfterCheckAuth(Session(None, true, signedIn.storage), parse)
        == Session(Some(User(AdminEmail, AdminName)), false, signedIn.storage)
  {
  }

  /** A logout survives a reload: the next `checkAuth` finds no user. */
  lemma LogoutThenReload(s: Session, parse: string -> Option<Option<User>>)
    ensures var out := AfterLogout(s);
      AfterCheckAuth(Session(None, true, out.storage), parse) == Session(None, false, out.storage)
  {
  }

  class AuthProvider {
    /** The `user` state. */
    var user: Option<User>
    /** The `isLoading` state. */
    var isLoading: bool
    /** The browser's `localStorage`. */
    var storage: map<string, string>
    /** The pages pushed on the router, oldest first. */
    var pushed: seq<string>

    function State(): Session
      reads this
    {
      Session(user, isLoading, storage)
    }

    /** First render: no user, loading. */
    constructor (storage: map<string, string>)
      ensures State() == Session(None, true, storage) && pushed == []
    {
      user := None;
      isLoading := true;
      this.storage := storage;
      pushed := [];
    }

    /** The mount effect, `checkAuth`. */
    method CheckAuth(parse: string -> Option<Option<User>>)
      modifies this
      ensures State() == AfterCheckAuth(old(State()), parse) && pushed == old(pushed)
    {
      if UserKey in storage && storage[UserKey] != "" {
        var parsed := parse(storage[UserKey]);
        if parsed.None? {
          return;
        }
        user := parsed.value;
      }
      isLoading := false;
    }

    /** The redirect effect, run for the current `pathname`. */
    method RedirectEffect(pathname: Option<string>)
      modifies this
      ensures State() == old(State()) && pushed == old(pushed) + Redirects(user, pathname, isLoading)
    {
      if !isLoading {
        if user.None? && pathname.Some? && StartsWith(pathname.value, AdminPath) && pathname.value != LoginPath {
          pushed := pushed + [LoginPath];
        }
        if user.Some? && pathname == Some(LoginPath) {
          pushed := pushed + [AdminPath];
        }
      }
    }

    /** `login(email, password)`. */
    method Login(email: string, password: string, stringify: User -> string) returns (ok: bool)
      modifies this
      ensures (State(), ok) == AfterLogin(old(State()), email, password, stringify) && pushed == old(pushed)
    {
      if email == AdminEmail && password == AdminPassword {
        var userData := User(email, AdminName);
        user := Some(userData);
        storage := storage[UserKey := stringify(userData)];
        return true;
      }
      return false;
    }

    /** `logout`: the user and the stored user go, and the login page is pushed. */
    method Logout()
      modifies this
      ensures State() == AfterLogout(old(State())) && pushed == old(pushed) + [LoginPath]
    {
      user := None;
      storage := storage - {UserKey};
      pushed := pushed + [LoginPath];
    }
  }
}
