/**
  The tracking service's login and registration views
  (grasshopper/tracker/auth.py).

  A view's answer is a `Page`: a redirect to an endpoint, or a rendered
  template with the message `flash` queued for it. The per-request `g.user`
  and the cookie `session` are the fields of a `RequestContext`. Form fields
  are strings; an empty string is falsy.
*/
module Auth {
  import opened Wrappers
  import opened Users

  datatype Page = Redirect(endpoint: string) | Render(template: string, flashed: Option<string>)

  const RegisterTemplate: string := "auth/register.html"
  const LoginTemplate: string := "auth/login.html"

  /** `g` and `session` for one request. */
  class RequestContext {
    var session: map<string, nat>
    var user: Option<User>

    constructor (session: map<string, nat>)
      ensures this.session == session && user == None
    {
      this.session := session;
      user := None;
    }
  }

  /**
    The first missing field of a registration form, checked in the order
    username, password, email; None when all three are present.
  */
  function RegisterError(username: string, password: string, email: string): (error: Option<string>)
    ensures username == "" ==> error == Some("Username is required.")
    ensures username != "" && password == "" ==> error == Some("Password is required.")
    ensures username != "" && password != "" && email == "" ==> error == Some("Email is required.")
    ensures error.None? <==> username != "" && password != "" && email != ""
  {
    if username == "" then Some("Username is required.")
    else if password == "" then Some("Password is required.")
    else if email == "" then Some("Email is required.")
    else None
  }

  /**
    `register`: a GET renders the form. A POST with a missing field flashes
    that field's message; otherwise `User.create` is attempted, and a duplicate
    flashes "User <name> is already registered." while a success redirects to
    the login page.
  */
  method Register(users: UserStore, isPost: bool, username: string, password: string, email: string,
                  newId: nat, hash: string -> string) returns (page: Page)
    requires users.Valid()
    modifies users
    ensures users.Valid()
    ensures !isPost ==> page == Render(RegisterTemplate, None) && users.rows == old(users.rows)
    ensures isPost && RegisterError(username, password, email).Some? ==>
      page == Render(RegisterTemplate, RegisterError(username, password, email)) && users.rows == old(users.rows)
    ensures isPost && RegisterError(username, password, email).None? && old(users.Conflicts(newId, username)) ==>
      page == Render(RegisterTemplate, Some("User " + username + " is already registered."))
      && users.rows == old(users.rows)
    ensures isPost && RegisterError(username, password, email).None? && !old(users.Conflicts(newId, username)) ==>
      page == Redirect("auth.login")
      && users.rows == old(users.rows) + [User(newId, username, hash(password), email)]
    ensures page.Redirect? ==> isPost && users.FindByUsername(username).Some?
  {
    if !isPost {
      return Render(RegisterTemplate, None);
    }
    var error := RegisterError(username, password, email);
    if error.None? {
      var failed := users.Create(username, email, password, newId, hash);
      if failed.Some? {
        error := Some("User " + username + " is already registered.");
      } else {
        return Redirect("auth.login");
      }
    }
    page := Render(RegisterTemplate, error);
  }

  /**
    Why a login fails: an unknown username, without the password being
    checked, and then a wrong password. None when the login succeeds.
  */
  function LoginError(user: Option<User>, password: string, hash: string -> string): (error: Option<string>)
    ensures user.None? ==> error == Some("Incorrect username.")
    ensures user.Some? ==> (error == Some("Incorrect password.") <==> !CheckPassword(user.value, password, hash))
    ensures error.None? <==> user.Some? && CheckPassword(user.value, password, hash)
  {
    if user.None? then Some("Incorrect username.")
    else if !CheckPassword(user.value, password, hash) then Some("Incorrect password.")
    else None
  }

  /**
    `login`: a GET renders the form. A POST with a known username and the
    right password clears the session, keeps only the user's id in it, sets
    `g.user` and redirects to the dashboard; otherwise it flashes the reason
    and leaves the session and `g.user` alone.
  */
  method Login(users: UserStore, ctx: RequestContext, isPost: bool, username: string, password: string,
               hash: string -> string) returns (page: Page)
    modifies ctx
    ensures !isPost ==> page == Render(LoginTemplate, None) && ctx.session == old(ctx.session) && ctx.user == old(ctx.user)
    ensures isPost && LoginError(users.FindByUsername(username), password, hash).Some? ==>
      page == Render(LoginTemplate, LoginError(users.FindByUsername(username), password, hash))
      && ctx.session == old(ctx.session) && ctx.user == old(ctx.user)
    ensures isPost && LoginError(users.FindByUsername(username), password, hash).None? ==>
      page == Redirect("dashboard.index")
      && ctx.user == users.FindByUsername(username)
      && ctx.session == map["user_id" := users.FindByUsername(username).value.id]
  {
    if !isPost {
      return Render(LoginTemplate, None);
    }
    var user := users.FindByUsername(username);
    var error := LoginError(user, password, hash);
    if error.None? {
      ctx.session := map[];
      ctx.session := ctx.session["user_id" := user.value.id];
      ctx.user := user;
      return Redirect("dashboard.index");
    }
    page := Render(LoginTemplate, error);
  }

  /** `load_logged_in_user`: `g.user` is None without a `user_id`, otherwise the user with that id. */
  method LoadLoggedInUser(users: UserStore, ctx: RequestContext)
    modifies ctx`user
    ensures "user_id" !in ctx.session ==> ctx.user == None
    ensures "user_id" in ctx.session ==> ctx.user == users.FindById(ctx.session["user_id"])
    ensures ctx.user.Some? ==> ctx.user.value in users.rows && ctx.user.value.id == ctx.session["user_id"]
  {
    if "user_id" !in ctx.session {
      ctx.user := None;
    } else {
      ctx.user := users.FindById(ctx.session["user_id"]);
    }
  }

  /** `login_required`: without a user, a redirect to the login page; otherwise the wrapped view's page. */
  function LoginRequired(user: Option<User>, view: () -> Page): (page: Page)
    ensures user.None? ==> page == Redirect("auth.login")
    ensures user.Some? ==> page == view()
  {
    if user.None? then Redirect("auth.login") else view()
  }

  /** A successful login is what lets `login_required` through on the next request. */
  lemma LoginThenLoadPassesLoginRequired(users: UserStore, username: string, password: string,
                                         hash: string -> string, view: () -> Page)
    requires users.Valid()
    requires LoginError(users.FindByUsername(username), password, hash).None?
    ensures var id := users.FindByUsername(username).value.id;
            && users.FindById(id) == users.FindByUsername(username)
            && LoginRequired(users.FindById(id), view) == view()
  {
    var user := users.FindByUsername(username).value;
    var k :| 0 <= k < |users.rows| && users.rows[k] == user;
    FindsTheOnlyMatch(users.rows, (u: User) => u.id == user.id, k);
  }
}
