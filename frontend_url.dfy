/** The session page's request handler (src/FrontendUrl.php): the request is
    parsed into an action and a state, a POSTed form must carry a valid
    nonce, each action validates its form into the static error list, and
    the page is served with the errors joined by line breaks. */
module FrontendUrl {
  import opened Php
  import opened Host
  import opened Request
  import opened Texts
  import FS = FrontendSession
  import Mail
  import My

  /** The request fields the handler reads: `<id>action`, `<id>state`,
      `<id>check` and the form fields `<id><action>_<name>`, `<id>` being
      the plugin id. */
  datatype PostKey = ActionKey | StateKey | CheckKey | FieldKey(action: string, name: string)

  /** `$_POST` */
  type Post = map<PostKey, string>

  /** `$_POST[$key] ?? $default` */
  function PostOr(post: Post, key: PostKey, default: string): string {
    if key in post then post[key] else default
  }

  /** The field `name` of the form of `action`. */
  function Field(action: string, name: string): PostKey {
    FieldKey(action, name)
  }

  /** The blog and its services, as the handler consults them. */
  datatype Site = Site(
    /** `active` and `enable_recovery` settings */
    active: bool,
    enableRecovery: bool,
    /** the `tplset` of the blog's theme */
    tplset: string,
    /** `system->lang` */
    lang: string,
    /** `App::nonce()->checkNonce()` */
    nonce: string -> bool,
    /** `Text::isEmail()` */
    isEmail: string -> bool,
    /** `(string) filter_var($url, FILTER_VALIDATE_URL)` */
    filterUrl: string -> string,
    users: Users,
    /** `App::auth()->checkPassword()` for the signed in user */
    checkPassword: string -> bool,
    /** `setUserBlogPermissions($login, $blog, ...)` returns (false: it throws) */
    grantPermission: (string, string) -> bool,
    /** `setRecoverKey($login, $email)`: the key, `None` when it throws */
    setRecoverKey: (string, string) -> Option<string>,
    /** `recoverUserPassword($key)`: `None` when it throws */
    recoverPassword: string -> Option<Recovered>,
    /** the directory once a password has been changed */
    authAfterUpdate: Auth,
    /** mail settings and the locale's texts */
    mailer: Mail.Mailer,
    /** whether the mail transport's `sendMail` returns for a message (false: it throws) */
    transport: Mail.Message -> bool)

  /** What `recoverUserPassword` gives back. */
  datatype Recovered = Recovered(userId: string, newPass: string, email: string)

  /** The directory calls the handler makes, in order, and the
      `FrontendSessionAfterSignup` behaviour it calls with the new account. */
  datatype Call =
    | AddUser(user: NewUser)
    | GrantPermission(userId: string, blogId: string)
    | AfterSignup(user: NewUser)
    | UpdateUser(userId: string, change: Update)
    | SetRecoverKey(login: string, email: string)
    | RecoverPassword(key: string)

  /** How a request ends: `p404`, the nonce's precondition failure, a
      `TypeError` (a `null` handed to a `string` parameter), `Http::redirect`,
      or the served page with the `form_error` context value, if set. */
  datatype Response =
    | NotFound
    | PreconditionFailed
    | TypeError
    | Redirect(url: string)
    | Served(formError: Option<string>)

  function Tr(site: Site, t: Text): string {
    site.mailer.tr(t)
  }

  /** `App::auth()->userID() == ''` */
  predicate Anonymous(g: Globals) {
    g.authUser.None? || g.authUser.value == ""
  }

  /** `(string) App::auth()->userID()` */
  function UserIdOf(g: Globals): string {
    g.authUser.GetOr("")
  }

  // =====================================================================
  // Request parsing

  datatype Parsed = Parsed(segments: seq<string>, action: string, state: string)

  /** The URL part after the session page is split on '/'; segment 1 is the
      action and segment 2 the state, each overridden by its POST field when
      that is present (even empty). */
  function ParseRequest(args: Option<string>, post: Post): (q: Parsed)
    ensures q.segments == Explode('/', args.GetOr(""))
    ensures ActionKey in post ==> q.action == post[ActionKey]
    ensures StateKey in post ==> q.state == post[StateKey]
    ensures ActionKey !in post ==> q.action == (if |q.segments| > 1 then q.segments[1] else "")
    ensures StateKey !in post ==> q.state == (if |q.segments| > 2 then q.segments[2] else "")
  {
    var segments := Explode('/', args.GetOr(""));
    Parsed(segments,
      PostOr(post, ActionKey, if |segments| > 1 then segments[1] else ""),
      PostOr(post, StateKey, if |segments| > 2 then segments[2] else ""))
  }

  /** The redirects of `check` come back to this handler with their action
      and state: `<session page>/<action>/<state>` hands `/<action>/<state>`
      to the handler, which reads them back when nothing is POSTed. */
  lemma RedirectReachesHandler(blog: Blog, action: string, state: string)
    requires '/' !in action && '/' !in state
    ensures FS.SessionRedirect(blog, action, state) == SessionUrl(blog) + "/" + action + "/" + state
    ensures var q := ParseRequest(Some("/" + action + "/" + state), map[]);
      q.action == action && q.state == state
  {
    var args := "/" + action + "/" + state;
    assert ["", action, state][1..] == [action, state];
    assert [action, state][1..] == [state];
    assert Implode("/", [state]) == state;
    assert Implode("/", [action, state]) == action + "/" + state;
    assert args == Implode("/", ["", action, state]);
    ExplodeImplode('/', ["", action, state]);
  }

  /** `checkForm()`: the POSTed nonce, "-" when missing, must be valid. */
  predicate NonceOk(site: Site, post: Post) {
    site.nonce(PostOr(post, CheckKey, "-"))
  }

  // =====================================================================
  // Validation

  /** Sign in while anonymous with a pending or disabled state: the message
      for that state, and no check of the credentials. */
  function SigninRefusal(anonymous: bool, state: string): (t: Option<Text>)
    ensures t.Some? <==> anonymous && (state == My.STATE_PENDING || state == My.STATE_DISABLED)
    ensures t.Some? ==> t.value == (if state == My.STATE_DISABLED then AccountDisabled else AccountNotActivated)
  {
    if anonymous && (state == My.STATE_PENDING || state == My.STATE_DISABLED) then
      Some(if state == My.STATE_DISABLED then AccountDisabled else AccountNotActivated)
    else None
  }

  predicate LoginChar(c: char) {
    ('A' <= c <= 'Z') || ('a' <= c <= 'z') || ('0' <= c <= '9') || c == '.' || c == '_' || c == '-'
  }

  predicate LoginChars(s: string) {
    forall i :: 0 <= i < |s| ==> LoginChar(s[i])
  }

  /** `preg_match('/^[A-Za-z0-9._-]{3,}$/', $login)`: without the D modifier
      `$` also matches before a final line feed, so one trailing "\n" is
      let through. */
  predicate ValidLogin(s: string) {
    (|s| >= 3 && LoginChars(s)) || (|s| >= 4 && s[|s| - 1] == '\n' && LoginChars(s[..|s| - 1]))
  }

  /** The sign-up checks, in the order they add their messages: the login,
      the e-mail, the password (each group at most one message), then the
      existence of the account once more. */
  function SignupErrors(users: Users, isEmail: string -> bool, login: string,
                        email: string, vemail: string, pwd: string, vpwd: string): (errs: seq<Text>)
    ensures |errs| <= 4
    ensures errs == [] <==>
      ValidLogin(login) && !users.known(login) && email == vemail && isEmail(email) && pwd == vpwd && |pwd| >= 6
    ensures UsernameNotValid in errs <==> !ValidLogin(login)
    ensures UsernameNotAvailable in errs <==> ValidLogin(login) && users.known(login)
    ensures EmailsMismatch in errs <==> email != vemail
    ensures EmailNotValid in errs <==> email == vemail && !isEmail(email)
    ensures PasswordsMismatchSignup in errs <==> pwd != vpwd
    ensures PasswordTooShortSignup in errs <==> pwd == vpwd && |pwd| < 6
    ensures UsernameExists in errs <==> users.known(login)
    // a taken valid login gets both messages, first and last
    ensures ValidLogin(login) && users.known(login) ==>
      errs[0] == UsernameNotAvailable && errs[|errs| - 1] == UsernameExists
  {
    var loginErr :=
      if !ValidLogin(login) then [UsernameNotValid]
      else if users.known(login) then [UsernameNotAvailable] else [];
    var emailErr :=
      if email != vemail then [EmailsMismatch]
      else if !isEmail(email) then [EmailNotValid] else [];
    var pwdErr :=
      if pwd != vpwd then [PasswordsMismatchSignup]
      else if |pwd| < 6 then [PasswordTooShortSignup] else [];
    var existsErr := if users.known(login) then [UsernameExists] else [];
    InFour(loginErr, emailErr, pwdErr, existsErr);
    loginErr + emailErr + pwdErr + existsErr
  }

  lemma InFour<T>(a: seq<T>, b: seq<T>, c: seq<T>, d: seq<T>)
    ensures forall x :: x in a + b + c + d <==> x in a || x in b || x in c || x in d
  {
  }

  /** The checks of a new password from the recovery payload, first failure
      only: unknown user, then administrator, then empty or different
      passwords, then the password the account already has. */
  function ChangeError(users: Users, auth: Auth, userId: string, pwd: string, vpwd: string): (e: Option<Text>)
    ensures e == Some(UserNotFound) <==> !users.known(userId)
    ensures e == Some(AdminUseBackend) <==> users.known(userId) && users.isAdmin(userId)
    ensures e == Some(PasswordsDontMatch) <==>
      users.known(userId) && !users.isAdmin(userId) && (Empty(pwd) || pwd != vpwd)
    ensures e == Some(PasswordUnchanged) <==>
      users.known(userId) && !users.isAdmin(userId) && !Empty(pwd) && pwd == vpwd
      && auth.checkUser(userId, Some(pwd), None, true)
    ensures e.None? <==>
      users.known(userId) && !users.isAdmin(userId) && !Empty(pwd) && pwd == vpwd
      && !auth.checkUser(userId, Some(pwd), None, true)
  {
    if !users.known(userId) then Some(UserNotFound)
    else if users.isAdmin(userId) then Some(AdminUseBackend)
    else if Empty(pwd) || pwd != vpwd then Some(PasswordsDontMatch)
    else if auth.checkUser(userId, Some(pwd), None, true) then Some(PasswordUnchanged)
    else None
  }

  /** The checks of the preferences' password form, first failure only: the
      current password, then the trimmed length of the new one, then the
      strict comparison with its repetition. */
  function UpdpassError(checkPassword: string -> bool, current: string, newpass: string, vrfpass: string): (e: Option<Text>)
    ensures e == Some(PasswordVerificationFailed) <==> !checkPassword(current)
    ensures e == Some(PasswordTooShort) <==> checkPassword(current) && |Trim(newpass)| < 6
    ensures e == Some(PasswordsMismatch) <==>
      checkPassword(current) && |Trim(newpass)| >= 6 && newpass != vrfpass
    ensures e.None? <==> checkPassword(current) && |Trim(newpass)| >= 6 && newpass == vrfpass
  {
    if !checkPassword(current) then Some(PasswordVerificationFailed)
    else if |Trim(newpass)| < 6 then Some(PasswordTooShort)
    else if newpass != vrfpass then Some(PasswordsMismatch)
    else None
  }

  predicate StartsWith(s: string, prefix: string) {
    |prefix| <= |s| && s[..|prefix|] == prefix
  }

  /** `preg_match('|^https?://|', $url)` */
  predicate HasScheme(url: string) {
    StartsWith(url, "http://") || StartsWith(url, "https://")
  }

  /** A URL without an http(s) scheme gets `http://` in front. */
  function WithScheme(url: string): (r: string)
    ensures HasScheme(r)
    ensures HasScheme(url) ==> r == url
    ensures !HasScheme(url) ==> r == "http://" + url
  {
    if HasScheme(url) then url
    else
      assert ("http://" + url)[..7] == "http://";
      "http://" + url
  }

  // =====================================================================
  // Serving the page

  /** `serveTemplate()`: only the dotty and mustek template sets are served;
      errors, if any, go to the context joined with line feeds. */
  function Serve(site: Site, errors: seq<string>): (r: Response)
    ensures r.Served? <==> site.tplset == "dotty" || site.tplset == "mustek"
    ensures !r.Served? ==> r == NotFound
    ensures r.Served? ==> (r.formError.Some? <==> errors != [])
    ensures r.Served? && errors != [] ==> r.formError.value == Implode("\n", errors)
  {
    if site.tplset == "dotty" || site.tplset == "mustek" then
      Served(if |errors| > 0 then Some(Implode("\n", errors)) else None)
    else NotFound
  }

  /** The joined errors give back each message when none spans two lines. */
  lemma ServedErrorsSplit(site: Site, errors: seq<string>)
    requires site.tplset == "dotty" || site.tplset == "mustek"
    requires errors != [] && forall i :: 0 <= i < |errors| ==> '\n' !in errors[i]
    ensures Explode('\n', Serve(site, errors).formError.value) == errors
  {
    ExplodeImplode('\n', errors);
  }

  function Translated(site: Site, ts: seq<Text>): (r: seq<string>)
    ensures |r| == |ts| && forall i :: 0 <= i < |ts| ==> r[i] == Tr(site, ts[i])
  {
    seq(|ts|, i requires 0 <= i < |ts| => Tr(site, ts[i]))
  }


  // =====================================================================
  // The actions, as functions of the request

  /** The form's `state` and `data` as an action leaves them. */
  datatype Page = Page(state: string, data: string)

  /** What an action does: the response it ends the request with, if any
      (`Http::redirect`, an exception), the messages it adds to the error
      list, the directory calls it makes, the mails it hands over, the new
      `success` message and form page (`None`: untouched), and the request
      state after it. */
  datatype Effects = Effects(
    exit: Option<Response>,
    errors: seq<string>,
    calls: seq<Call>,
    mails: seq<Mail.Message>,
    success: Option<string>,
    page: Option<Page>,
    g: Globals)

  /** An action that does nothing. */
  function Nothing(g: Globals): Effects {
    Effects(None, [], [], [], None, None, g)
  }

  /** `checkForm()` throwing: the action stops before any effect. */
  function Refused(g: Globals): Effects {
    Effects(Some(PreconditionFailed), [], [], [], None, None, g)
  }

  /** A form field, '' when it is not posted. */
  function Input(post: Post, action: string, name: string): string {
    PostOr(post, Field(action, name), "")
  }

  /** `signout`: the session is killed and the visitor sent to the blog. */
  function SignOutSpec(env: Env, g: Globals): Effects
  {
    Effects(Some(Redirect(env.blog.url)), [], [], [], None, None, FS.Triggered(FS.KillSpec(g)))
  }

  lemma SignOutRules(env: Env, g: Globals, e: Effects)
    requires e == SignOutSpec(env, g)
    ensures e.exit == Some(Redirect(env.blog.url))
    ensures e.g.session == NoSession && e.g.cookie == None
    ensures e.errors == [] && e.calls == [] && e.mails == []
  {
  }

  /** `signin`. */
  function SignInSpec(site: Site, env: Env, g: Globals, state: string, post: Post, redir: Option<string>): Effects
  {
    if !NonceOk(site, post) then Refused(g)
    else
      var refusal := SigninRefusal(Anonymous(g), state);
      if refusal.Some? then Effects(None, [Tr(site, refusal.value)], [], [], None, None, g)
      else
        var c := FS.CheckSpec(env, g, Some(Input(post, My.ACTION_SIGNIN, "login")),
                              Some(Input(post, My.ACTION_SIGNIN, "password")), None,
                              !Empty(Input(post, My.ACTION_SIGNIN, "remember")));
        match c.outcome
        case Redirected(url) => Effects(Some(Redirect(url)), [], [], [], None, None, c.g)
        case Authenticated =>
          if redir.None? then Effects(Some(TypeError), [], [], [], None, None, c.g)
          else Effects(Some(Redirect(redir.value)), [], [], [], None, None, FS.Triggered(c.g))
        case _ => Effects(None, [Tr(site, WrongCredentials)], [], [], None, None, c.g)
  }

  lemma SignInRules(site: Site, env: Env, g: Globals, state: string, post: Post, redir: Option<string>, e: Effects)
    requires e == SignInSpec(site, env, g, state, post, redir)
    ensures !NonceOk(site, post) ==> e == Refused(g)
    ensures e.calls == [] && e.mails == [] && e.success.None? && e.page.None?
    // at most one message, and none when the request ends
    ensures |e.errors| <= 1 && (e.errors != [] ==> e.exit.None?)
    // a pending or disabled state for an anonymous visitor: its message, no check at all
    ensures NonceOk(site, post) && SigninRefusal(Anonymous(g), state).Some? ==>
      e == Effects(None, [Tr(site, SigninRefusal(Anonymous(g), state).value)], [], [], None, None, g)
    // otherwise any failure of the check gets the one generic message
    ensures var c := FS.CheckSpec(env, g, Some(Input(post, My.ACTION_SIGNIN, "login")),
                                  Some(Input(post, My.ACTION_SIGNIN, "password")), None,
                                  !Empty(Input(post, My.ACTION_SIGNIN, "remember")));
      NonceOk(site, post) && SigninRefusal(Anonymous(g), state).None? ==>
        && (e.errors != [] <==> c.outcome.Rejected? || c.outcome.Refused?)
        && (e.errors != [] ==> e.errors == [Tr(site, WrongCredentials)])
        && (c.outcome.Redirected? ==> e.exit == Some(Redirect(c.outcome.url)))
        && (c.outcome.Authenticated? ==> e.exit == Some(if redir.Some? then Redirect(redir.value) else TypeError))
    // the session changes only for credentials the directory accepts
    ensures e.g.session != g.session ==>
      var login := Input(post, My.ACTION_SIGNIN, "login");
      && e.exit.Some? && e.g.session.userId == Some(login)
      && env.auth.checkUser(login, Some(Input(post, My.ACTION_SIGNIN, "password")), None, false)
      && env.auth.permitted(login) && FS.Usable(env.auth, login)
  {
    var login := Input(post, My.ACTION_SIGNIN, "login");
    var pwd := Input(post, My.ACTION_SIGNIN, "password");
    var remember := !Empty(Input(post, My.ACTION_SIGNIN, "remember"));
    FS.CheckRules(env, g, Some(login), Some(pwd), None, remember, FS.CheckSpec(env, g, Some(login), Some(pwd), None, remember));
  }

  /** The account a sign-up form asks for: pending, in the blog's language. */
  function Applicant(site: Site, post: Post): NewUser {
    NewUser(Input(post, My.ACTION_SIGNUP, "login"), Input(post, My.ACTION_SIGNUP, "name"),
            Input(post, My.ACTION_SIGNUP, "firstname"), Input(post, My.ACTION_SIGNUP, "email"),
            Input(post, My.ACTION_SIGNUP, "password"), My.USER_PENDING, site.lang)
  }

  /** The sign-up checks on a posted form. */
  function SignupFormErrors(site: Site, post: Post): seq<Text> {
    SignupErrors(site.users, site.isEmail, Input(post, My.ACTION_SIGNUP, "login"),
                 Input(post, My.ACTION_SIGNUP, "email"), Input(post, My.ACTION_SIGNUP, "vemail"),
                 Input(post, My.ACTION_SIGNUP, "password"), Input(post, My.ACTION_SIGNUP, "vpassword"))
  }

  /** `signup`. */
  function SignUpSpec(site: Site, blog: Blog, g: Globals, post: Post): Effects
  {
    if !NonceOk(site, post) then Refused(g)
    else
      var login := Input(post, My.ACTION_SIGNUP, "login");
      if Empty(login) then Nothing(g)
      else
        var errs := SignupFormErrors(site, post);
        if errs != [] then Effects(None, Translated(site, errs), [], [], None, None, g)
        else
          var user := Applicant(site, post);
          RegisterSpec(site, blog.id, g, user, Mail.RegistrationMails(site.mailer, blog, user.id, user.pwd, user.email))
  }

  /** The `try` block of `signup`, `mails` being the registration mails:
      the account, the permission, the behaviour and the mails, any
      exception giving the generic message. */
  function RegisterSpec(site: Site, blogId: string, g: Globals, user: NewUser, mails: seq<Mail.Message>): Effects
  {
    if site.users.addUser(user) != Some(user.id) then
      Effects(None, [Tr(site, RegistrationFailed)], [AddUser(user)], [], None, None, g)
    else if !site.grantPermission(user.id, blogId) then
      Effects(None, [Tr(site, RegistrationFailed)], [AddUser(user), GrantPermission(user.id, blogId)], [], None, None, g)
    else
      var t := Mail.Transmit(site.transport, mails);
      Effects(None, if t.ok then [] else [Tr(site, RegistrationFailed)],
              [AddUser(user), GrantPermission(user.id, blogId), AfterSignup(user)], t.handed,
              if t.ok then Some(Tr(site, RegistrationThanks)) else None, None, g)
  }

  lemma SignUpRules(site: Site, blog: Blog, g: Globals, post: Post, e: Effects)
    requires e == SignUpSpec(site, blog, g, post)
    ensures !NonceOk(site, post) ==> e == Refused(g)
    ensures e.g == g && e.page.None? && (NonceOk(site, post) ==> e.exit.None?)
    // nothing without a login
    ensures Empty(Input(post, My.ACTION_SIGNUP, "login")) ==> e.errors == [] && e.calls == [] && e.mails == [] && e.success.None?
    // the validation messages come first, in order
    ensures NonceOk(site, post) && !Empty(Input(post, My.ACTION_SIGNUP, "login")) ==>
      var errs := SignupFormErrors(site, post);
      |errs| <= |e.errors| && e.errors[..|errs|] == Translated(site, errs)
    // an account is asked for only when no check failed, and it is pending
    ensures e.calls != [] <==>
      NonceOk(site, post) && !Empty(Input(post, My.ACTION_SIGNUP, "login")) && SignupFormErrors(site, post) == []
    ensures e.calls != [] ==> e.calls[0] == AddUser(Applicant(site, post)) && Applicant(site, post).status == My.USER_PENDING
    // the permission, the mails and the thanks only once the directory created that login
    ensures e.calls != [] && site.users.addUser(Applicant(site, post)) != Some(Input(post, My.ACTION_SIGNUP, "login")) ==>
      e.calls == [AddUser(Applicant(site, post))] && e.errors == [Tr(site, RegistrationFailed)] && e.mails == [] && e.success.None?
    // a permission that throws: the account stays, pending, with the generic message
    ensures var login := Input(post, My.ACTION_SIGNUP, "login");
      e.calls != [] && site.users.addUser(Applicant(site, post)) == Some(login) && !site.grantPermission(login, blog.id) ==>
        && e.calls == [AddUser(Applicant(site, post)), GrantPermission(login, blog.id)]
        && e.errors == [Tr(site, RegistrationFailed)] && e.mails == [] && e.success.None?
    // past the permission: the behaviour, then the mails, stopped by the first the transport refuses
    ensures |e.calls| > 2 ==>
      var login := Input(post, My.ACTION_SIGNUP, "login");
      var t := Mail.Transmit(site.transport, Mail.RegistrationMails(site.mailer, blog, login, Input(post, My.ACTION_SIGNUP, "password"),
                                                                    Input(post, My.ACTION_SIGNUP, "email")));
      && site.users.addUser(Applicant(site, post)) == Some(login) && site.grantPermission(login, blog.id)
      && e.calls == [AddUser(Applicant(site, post)), GrantPermission(login, blog.id), AfterSignup(Applicant(site, post))]
      && e.mails == t.handed
      && (e.success.Some? <==> t.ok)
      && (t.ok ==> e.errors == [] && e.success == Some(Tr(site, RegistrationThanks)))
      && (!t.ok ==> e.errors == [Tr(site, RegistrationFailed)])
    ensures e.mails != [] || e.success.Some? ==> |e.calls| == 3
  {
  }

  /** `recover`. */
  function RecoverSpec(site: Site, blog: Blog, g: Globals, state: string, post: Post): Effects
  {
    if !NonceOk(site, post) then Refused(g)
    else if !site.enableRecovery then Nothing(g)
    else if !Empty(state) then NewPasswordSpec(site, blog, g, state)
    else
      var login := Input(post, My.ACTION_RECOVER, "login");
      var email := Input(post, My.ACTION_RECOVER, "email");
      if !(Anonymous(g) && !Empty(login) && !Empty(email)) then Nothing(g)
      else RecoveryKeySpec(site, blog, g, login, email)
  }

  /** `recover` with a key in the state: a new password, then its mail;
      any exception gives the unknown-user message. */
  function NewPasswordSpec(site: Site, blog: Blog, g: Globals, state: string): Effects
  {
    match site.recoverPassword(state)
    case Some(rec) =>
      var t := Mail.Transmit(site.transport, Mail.PasswordMail(site.mailer, blog, rec.userId, rec.newPass, rec.email));
      Effects(None, if t.ok then [] else [Tr(site, UnknownUser)], [RecoverPassword(state)], t.handed,
              if t.ok then Some(Tr(site, NewPasswordMailed)) else None, None, g)
    case None => Effects(None, [Tr(site, UnknownUser)], [RecoverPassword(state)], [], None, None, g)
  }

  /** `recover` asked for by login and address: administrators are
      refused, otherwise a key is set and mailed; any exception gives the
      unknown-user message. */
  function RecoveryKeySpec(site: Site, blog: Blog, g: Globals, login: string, email: string): Effects
  {
    if site.users.known(login) && site.users.isAdmin(login) then
      Effects(None, [Tr(site, AdminUseBackend)], [], [], None, None, g)
    else
      match site.setRecoverKey(login, email)
      case Some(key) =>
        var t := Mail.Transmit(site.transport, Mail.RecoveryMail(site.mailer, blog, login, key, email));
        Effects(None, [Tr(site, if t.ok then RecoveryMailSent(email) else UnknownUser)], [SetRecoverKey(login, email)],
                t.handed, None, None, g)
      case None => Effects(None, [Tr(site, UnknownUser)], [SetRecoverKey(login, email)], [], None, None, g)
  }

  lemma RecoverRules(site: Site, blog: Blog, g: Globals, state: string, post: Post, e: Effects)
    requires e == RecoverSpec(site, blog, g, state, post)
    ensures !NonceOk(site, post) ==> e == Refused(g)
    ensures e.g == g && e.page.None? && (NonceOk(site, post) ==> e.exit.None?)
    ensures |e.errors| <= 1
    // nothing at all unless recovery is enabled
    ensures !site.enableRecovery ==> e.exit.Some? || e == Nothing(g)
    // a key in the state: a new password, mailed
    ensures NonceOk(site, post) && site.enableRecovery && !Empty(state) ==>
      e.calls == [RecoverPassword(state)]
      && (site.recoverPassword(state).None? ==> e.errors == [Tr(site, UnknownUser)] && e.mails == [])
      // the password is reset before the mail: a transport that throws
      // leaves it reset, with the unknown-user message
      && (site.recoverPassword(state).Some? ==>
            var rec := site.recoverPassword(state).value;
            var t := Mail.Transmit(site.transport, Mail.PasswordMail(site.mailer, blog, rec.userId, rec.newPass, rec.email));
            && e.mails == t.handed
            && (t.ok ==> e.errors == [] && e.success == Some(Tr(site, NewPasswordMailed)))
            && (!t.ok ==> e.errors == [Tr(site, UnknownUser)] && e.success.None?))
    // without a key: only an anonymous visitor giving both a login and an address
    ensures Empty(state) && !(Anonymous(g) && !Empty(Input(post, My.ACTION_RECOVER, "login"))
                              && !Empty(Input(post, My.ACTION_RECOVER, "email"))) ==>
      e.exit.Some? || e == Nothing(g)
    // an administrator's login is refused, and no key is set
    ensures var login := Input(post, My.ACTION_RECOVER, "login");
      Empty(state) && site.users.known(login) && site.users.isAdmin(login) ==>
        e.calls == [] && e.mails == [] && e.success.None?
    ensures var login := Input(post, My.ACTION_RECOVER, "login");
      var email := Input(post, My.ACTION_RECOVER, "email");
      NonceOk(site, post) && site.enableRecovery && Empty(state) && Anonymous(g) && !Empty(login) && !Empty(email) ==>
        if site.users.known(login) && site.users.isAdmin(login) then
          e.errors == [Tr(site, AdminUseBackend)]
        else
          && e.calls == [SetRecoverKey(login, email)] && e.success.None?
          && (site.setRecoverKey(login, email).None? ==> e.errors == [Tr(site, UnknownUser)] && e.mails == [])
          && (site.setRecoverKey(login, email).Some? ==>
                var t := Mail.Transmit(site.transport, Mail.RecoveryMail(site.mailer, blog, login, site.setRecoverKey(login, email).value, email));
                && e.mails == t.handed
                && e.errors == [Tr(site, if t.ok then RecoveryMailSent(email) else UnknownUser)])
  {
  }

  /** The change form's payload, decoded with the directory as it is before the change. */
  function ChangeTarget(env: Env, post: Post): FS.ChangeData {
    FS.Decode(env.auth, env.b64, Input(post, My.ACTION_CHANGE, "data"))
  }

  /** The checks of a posted change form. */
  function ChangeFormError(site: Site, env: Env, post: Post): Option<Text> {
    ChangeError(site.users, env.auth, ChangeTarget(env, post).userId,
                Input(post, My.ACTION_CHANGE, "password"), Input(post, My.ACTION_CHANGE, "vpassword"))
  }

  /** The change form passes every check and the directory stores the password. */
  predicate PasswordStored(site: Site, env: Env, post: Post) {
    && NonceOk(site, post) && site.enableRecovery && !Empty(Input(post, My.ACTION_CHANGE, "data"))
    && ChangeFormError(site, env, post).None?
    && site.users.update(ChangeTarget(env, post).userId, SetPassword(Input(post, My.ACTION_CHANGE, "password"), true)).None?
  }

  /** The link's three segments, to be posted back as the form's data. */
  function LinkData(env: Env, segments: seq<string>): string
    requires |segments| == 5
  {
    FS.EncodeAsWritten(env.crypto, env.b64, [FS.Str(segments[2]), FS.Str(segments[3]), FS.Str(segments[4])], false)
  }

  /** `change`. A stored password signs the user in against the directory as
      it is after the change, `env.auth` standing for it before. */
  function ChangeSpec(site: Site, env: Env, g: Globals, segments: seq<string>, post: Post): Effects
  {
    if !NonceOk(site, post) then Refused(g)
    else if !site.enableRecovery then Nothing(g)
    else
      var data := Input(post, My.ACTION_CHANGE, "data");
      if |segments| == 5 && Empty(data) then
        Effects(None, [Tr(site, MustSetNewPassword)], [], [], None, Some(Page(My.STATE_CHANGE, LinkData(env, segments))), g)
      else if Empty(data) then Nothing(g)
      else
        match ChangeFormError(site, env, post)
        case Some(t) => Effects(None, [Tr(site, t)], [], [], None, Some(Page(My.STATE_CHANGE, data)), g)
        case None => StorePasswordSpec(site, env, g, post)
  }

  /** A change form that passed its checks: the password is stored for the
      decoded user, lifting the forced change, and that user signed in. */
  function StorePasswordSpec(site: Site, env: Env, g: Globals, post: Post): Effects {
    var page := Page(My.STATE_CHANGE, Input(post, My.ACTION_CHANGE, "data"));
    var d := ChangeTarget(env, post);
    var pwd := Input(post, My.ACTION_CHANGE, "password");
    var call := UpdateUser(d.userId, SetPassword(pwd, true));
    match site.users.update(d.userId, SetPassword(pwd, true))
    case Some(failure) => Effects(None, [failure], [call], [], None, Some(page), g)
    case None =>
      var c := FS.CheckSpec(env.(auth := site.authAfterUpdate), g, Some(d.userId), Some(pwd), None, d.remember);
      if c.outcome.Redirected? then Effects(Some(Redirect(c.outcome.url)), [], [call], [], None, Some(page), c.g)
      else Effects(None, [], [call], [], Some(Tr(site, PasswordUpdated)), Some(Page(My.STATE_CONNECTED, "")), c.g)
  }


  lemma ChangeRules(site: Site, env: Env, g: Globals, segments: seq<string>, post: Post, e: Effects)
    requires e == ChangeSpec(site, env, g, segments, post)
    ensures !NonceOk(site, post) ==> e == Refused(g)
    ensures !site.enableRecovery ==> e.exit.Some? || e == Nothing(g)
    ensures e.mails == [] && |e.errors| <= 1
    // the link of a forced change: its payload becomes the form's data, unchanged
    ensures NonceOk(site, post) && site.enableRecovery && |segments| == 5 && Empty(Input(post, My.ACTION_CHANGE, "data")) ==>
      e == Effects(None, [Tr(site, MustSetNewPassword)], [], [], None,
                   Some(Page(My.STATE_CHANGE, Implode("/", segments[2..5]))), g)
    // a password is stored only when every check passed, for the decoded user, lifting the forced change
    ensures e.calls != [] <==>
      NonceOk(site, post) && site.enableRecovery && !Empty(Input(post, My.ACTION_CHANGE, "data"))
      && ChangeFormError(site, env, post).None?
    ensures e.calls != [] ==>
      e.calls == [UpdateUser(ChangeTarget(env, post).userId, SetPassword(Input(post, My.ACTION_CHANGE, "password"), true))]
    // a failed check keeps the form with its message and the same data
    ensures NonceOk(site, post) && site.enableRecovery && !Empty(Input(post, My.ACTION_CHANGE, "data"))
            && ChangeFormError(site, env, post).Some? ==>
      e == Effects(None, [Tr(site, ChangeFormError(site, env, post).value)], [], [], None,
                   Some(Page(My.STATE_CHANGE, Input(post, My.ACTION_CHANGE, "data"))), g)
    // the user is connected only after the password was stored
    ensures e.success.Some? ==>
      && e.calls != [] && e.errors == [] && e.exit.None?
      && e.success == Some(Tr(site, PasswordUpdated)) && e.page == Some(Page(My.STATE_CONNECTED, ""))
    ensures e.g != g ==> e.calls != []
    // a stored password: the user is signed in against the updated
    // directory, and connected unless that check redirects
    ensures PasswordStored(site, env, post) ==>
      var d := ChangeTarget(env, post);
      var c := FS.CheckSpec(env.(auth := site.authAfterUpdate), g, Some(d.userId),
                            Some(Input(post, My.ACTION_CHANGE, "password")), None, d.remember);
      && e.errors == [] && e.g == c.g
      && (c.outcome.Redirected? ==> e.exit == Some(Redirect(c.outcome.url)) && e.success.None?)
      && (!c.outcome.Redirected? ==> && e.exit.None? && e.success == Some(Tr(site, PasswordUpdated))
                                     && e.page == Some(Page(My.STATE_CONNECTED, "")))
    // the directory refusing the update: its message, the form kept, no sign-in
    ensures var d := ChangeTarget(env, post);
      var failure := site.users.update(d.userId, SetPassword(Input(post, My.ACTION_CHANGE, "password"), true));
      && NonceOk(site, post) && site.enableRecovery && !Empty(Input(post, My.ACTION_CHANGE, "data"))
      && ChangeFormError(site, env, post).None? && failure.Some? ==>
        && e.errors == [failure.value] && e.success.None? && e.exit.None? && e.g == g
        && e.page == Some(Page(My.STATE_CHANGE, Input(post, My.ACTION_CHANGE, "data")))
  {
    if |segments| == 5 {
      LinkDataIsPath(env, segments);
    }
  }

  lemma LinkDataIsPath(env: Env, segments: seq<string>)
    requires |segments| == 5
    ensures LinkData(env, segments) == Implode("/", segments[2..5])
  {
    assert FS.Strs([FS.Str(segments[2]), FS.Str(segments[3]), FS.Str(segments[4])]) == segments[2..5];
  }

  /** The user's site URL as stored: given a scheme, then filtered. */
  function StoredUrl(site: Site, post: Post): string {
    site.filterUrl(WithScheme(Input(post, My.ACTION_UPDPREF, "url")))
  }

  /** `updpref`: the signed in user's site URL, with `http://` in front when
      it has no http(s) scheme, is stored; a failure's message is shown. */
  function UpdPrefSpec(site: Site, g: Globals, post: Post): Effects
  {
    if !NonceOk(site, post) then Refused(g)
    else
      var call := UpdateUser(UserIdOf(g), SetUrl(StoredUrl(site, post)));
      match site.users.update(call.userId, call.change)
      case Some(failure) => Effects(None, [failure], [call], [], None, None, g)
      case None => Effects(None, [], [call], [], Some(Tr(site, ProfileUpdated)), None, g)
  }

  lemma UpdPrefRules(site: Site, g: Globals, post: Post, e: Effects)
    requires e == UpdPrefSpec(site, g, post)
    ensures !NonceOk(site, post) ==> e == Refused(g)
    ensures e.g == g && e.mails == [] && e.page.None? && (NonceOk(site, post) ==> e.exit.None?)
    ensures NonceOk(site, post) ==>
      var call := UpdateUser(UserIdOf(g), SetUrl(StoredUrl(site, post)));
      && e.calls == [call]
      && (e.errors == [] <==> site.users.update(call.userId, call.change).None?)
      && (e.errors != [] ==> e.errors == [site.users.update(call.userId, call.change).value] && e.success.None?)
      && (e.errors == [] ==> e.success == Some(Tr(site, ProfileUpdated)))
  {
  }

  /** The checks of a posted password form. */
  function UpdpassFormError(site: Site, post: Post): Option<Text> {
    UpdpassError(site.checkPassword, Input(post, My.ACTION_UPDPASS, "current"),
                 Input(post, My.ACTION_UPDPASS, "newpass"), Input(post, My.ACTION_UPDPASS, "vrfpass"))
  }

  /** `updpass`: at most one message; the new password is stored only when
      every check passed. */
  function UpdPassSpec(site: Site, g: Globals, post: Post): Effects
  {
    if !NonceOk(site, post) then Refused(g)
    else
      match UpdpassFormError(site, post)
      case Some(t) => Effects(None, [Tr(site, t)], [], [], None, None, g)
      case None =>
        var call := UpdateUser(UserIdOf(g), SetPassword(Input(post, My.ACTION_UPDPASS, "newpass"), false));
        match site.users.update(call.userId, call.change)
        case Some(failure) => Effects(None, [failure], [call], [], None, None, g)
        case None => Effects(None, [], [call], [], Some(Tr(site, PasswordUpdated)), None, g)
  }

  lemma UpdPassRules(site: Site, g: Globals, post: Post, e: Effects)
    requires e == UpdPassSpec(site, g, post)
    ensures !NonceOk(site, post) ==> e == Refused(g)
    ensures e.g == g && e.mails == [] && e.page.None? && (NonceOk(site, post) ==> e.exit.None?)
    ensures |e.errors| <= 1
    ensures NonceOk(site, post) && UpdpassFormError(site, post).Some? ==>
      e.errors == [Tr(site, UpdpassFormError(site, post).value)] && e.calls == [] && e.success.None?
    ensures e.calls != [] <==> NonceOk(site, post) && UpdpassFormError(site, post).None?
    ensures e.calls != [] ==>
      var call := UpdateUser(UserIdOf(g), SetPassword(Input(post, My.ACTION_UPDPASS, "newpass"), false));
      && e.calls == [call]
      && (e.success.Some? <==> site.users.update(call.userId, call.change).None?)
      && (e.success.Some? ==> e.success == Some(Tr(site, PasswordUpdated)) && e.errors == [])
  {
  }

  /** The actions that post a form and so pass `checkForm()` first. */
  predicate FormAction(action: string) {
    action in {My.ACTION_SIGNIN, My.ACTION_SIGNUP, My.ACTION_RECOVER, My.ACTION_CHANGE, My.ACTION_UPDPREF, My.ACTION_UPDPASS}
  }

  /** The `switch` of `sessionAction`. */
  function DispatchSpec(site: Site, env: Env, g: Globals, q: Parsed, post: Post, redir: Option<string>): Effects
  {
    if q.action == My.ACTION_SIGNOUT then SignOutSpec(env, g)
    else if q.action == My.ACTION_SIGNIN then SignInSpec(site, env, g, q.state, post, redir)
    else if q.action == My.ACTION_SIGNUP then SignUpSpec(site, env.blog, g, post)
    else if q.action == My.ACTION_RECOVER then RecoverSpec(site, env.blog, g, q.state, post)
    else if q.action == My.ACTION_CHANGE then ChangeSpec(site, env, g, q.segments, post)
    else if q.action == My.ACTION_UPDPREF then UpdPrefSpec(site, g, post)
    else if q.action == My.ACTION_UPDPASS then UpdPassSpec(site, g, post)
    else Nothing(g)
  }

  lemma DispatchRules(site: Site, env: Env, g: Globals, q: Parsed, post: Post, redir: Option<string>, e: Effects)
    requires e == DispatchSpec(site, env, g, q, post, redir)
    // every form action fails before any effect without a valid nonce
    ensures FormAction(q.action) && !NonceOk(site, post) ==> e == Refused(g)
    // an unknown action does nothing
    ensures q.action != My.ACTION_SIGNOUT && !FormAction(q.action) ==> e == Nothing(g)
    // only sign in and change of password touch the session state
    ensures e.g != g ==> q.action in {My.ACTION_SIGNOUT, My.ACTION_SIGNIN, My.ACTION_CHANGE}
  {
  }

  /** How the request ends after the action: its own exit, else the page
      with the errors collected. */
  function Respond(site: Site, e: Effects): (r: Response)
    ensures e.exit.Some? ==> r == e.exit.value
    ensures e.exit.None? ==> (r.Served? <==> site.tplset == "dotty" || site.tplset == "mustek")
    ensures e.exit.None? && r.Served? ==> (r.formError.Some? <==> e.errors != [])
    ensures e.exit.None? && r.Served? && e.errors != [] ==> r.formError.value == Implode("\n", e.errors)
  {
    if e.exit.Some? then e.exit.value else Serve(site, e.errors)
  }

  /** A GET of a form action, as the redirects of `check` produce (nothing
      posted), gets past `checkForm()` only if the nonce service accepts "-". */
  lemma EmptyPostNeedsNonce(site: Site, env: Env, g: Globals, args: Option<string>, redir: Option<string>)
    requires FormAction(ParseRequest(args, map[]).action) && !site.nonce("-")
    ensures Respond(site, DispatchSpec(site, env, g, ParseRequest(args, map[]), map[], redir)) == PreconditionFailed
  {
  }

  // =====================================================================
  // The handler

  class Handler {
    /** `self::$form_error` */
    var formError: seq<string>
    /** directory calls made */
    var calls: seq<Call>
    /** mails handed to the transport */
    var outbox: seq<Mail.Message>
    const site: Site

    /** A request starts with an empty error list. */
    constructor (site: Site)
      ensures this.site == site && formError == [] && calls == [] && outbox == []
    {
      this.site := site;
      formError := [];
      calls := [];
      outbox := [];
    }

    /** The action's effects are what the handler and the session now hold. */
    twostate predicate Applied(fs: FS.FrontendSession, e: Effects, new exit: Option<Response>)
      reads this, fs
    {
      && exit == e.exit
      && formError == old(formError) + e.errors
      && calls == old(calls) + e.calls
      && outbox == old(outbox) + e.mails
      && fs.g == e.g
      && fs.success == (if e.success.Some? then e.success.value else old(fs.success))
      && fs.state == (if e.page.Some? then e.page.value.state else old(fs.state))
      && fs.data == (if e.page.Some? then e.page.value.data else old(fs.data))
    }

    /** The directory the session sees after the action: only a stored
        password changes it. */
    function EnvAfter(site: Site, env: Env, q: Parsed, post: Post): Env {
      if q.action == My.ACTION_CHANGE && PasswordStored(site, env, post)
      then env.(auth := site.authAfterUpdate) else env
    }

    /** `sessionAction($args)`: `redir` is the request's `redir` field. */
    method SessionAction(fs: FS.FrontendSession?, args: Option<string>, post: Post, redir: Option<string>)
      returns (r: Response)
      requires formError == []
      modifies this, fs
      ensures !site.active || fs == null ==> r == NotFound && unchanged(this)
      ensures fs != null && !site.active ==> unchanged(fs)
      ensures site.active && fs != null ==>
        var e := DispatchSpec(site, old(fs.env), old(fs.g), ParseRequest(args, post), post, redir);
        && r == Respond(site, e)
        && formError == old(formError) + e.errors && calls == old(calls) + e.calls && outbox == old(outbox) + e.mails
        && fs.g == e.g
        && fs.state == (if e.page.Some? then e.page.value.state
                        else if Anonymous(old(fs.g)) then My.STATE_DISCONNECTED else My.STATE_CONNECTED)
        && fs.data == (if e.page.Some? then e.page.value.data else old(fs.data))
        && fs.success == (if e.success.Some? then e.success.value else old(fs.success))
        && fs.env == EnvAfter(site, old(fs.env), ParseRequest(args, post), post)
    {
      if !site.active || fs == null {
        return NotFound;
      }
      var q := ParseRequest(args, post);
      fs.state := if Anonymous(fs.g) then My.STATE_DISCONNECTED else My.STATE_CONNECTED;
      ghost var e := DispatchSpec(site, fs.env, fs.g, q, post, redir);
      var exit := Dispatch(fs, q, post, redir);
      assert exit == e.exit && formError == e.errors;
      if exit.Some? {
        return exit.value;
      }
      r := Serve(site, formError);
    }

    /** The `switch` on the action. */
    method Dispatch(fs: FS.FrontendSession, q: Parsed, post: Post, redir: Option<string>) returns (exit: Option<Response>)
      modifies this`formError, this`calls, this`outbox, fs`state, fs`data, fs`success, fs`g, fs`env
      ensures Applied(fs, DispatchSpec(site, old(fs.env), old(fs.g), q, post, redir), exit)
      ensures fs.env == EnvAfter(site, old(fs.env), q, post)
    {
      if q.action == My.ACTION_SIGNOUT {
        exit := SignOut(fs);
      } else if q.action == My.ACTION_SIGNIN {
        exit := SignIn(fs, q.state, post, redir);
      } else if q.action == My.ACTION_SIGNUP {
        exit := SignUp(fs, post);
      } else if q.action == My.ACTION_RECOVER {
        exit := Recover(fs, q.state, post);
      } else if q.action == My.ACTION_CHANGE {
        exit := Change(fs, q.segments, post);
      } else if q.action == My.ACTION_UPDPREF {
        exit := UpdatePreferences(fs, post);
      } else if q.action == My.ACTION_UPDPASS {
        exit := UpdatePassword(fs, post);
      } else {
        exit := None;
      }
    }

    method SignOut(fs: FS.FrontendSession) returns (exit: Option<Response>)
      modifies fs`g
      ensures Applied(fs, SignOutSpec(fs.env, old(fs.g)), exit)
    {
      fs.Kill();
      var url := fs.Redirect([fs.env.blog.url], "");
      assert Implode("/", [fs.env.blog.url]) == fs.env.blog.url;
      exit := Some(Redirect(url.value));
    }

    method SignIn(fs: FS.FrontendSession, state: string, post: Post, redir: Option<string>)
      returns (exit: Option<Response>)
      modifies this`formError, fs`g
      ensures Applied(fs, SignInSpec(site, fs.env, old(fs.g), state, post, redir), exit)
    {
      if !NonceOk(site, post) {
        return Some(PreconditionFailed);
      }
      var login := Input(post, My.ACTION_SIGNIN, "login");
      var password := Input(post, My.ACTION_SIGNIN, "password");
      var remember := !Empty(Input(post, My.ACTION_SIGNIN, "remember"));
      var refusal := SigninRefusal(Anonymous(fs.g), state);
      if refusal.Some? {
        formError := formError + [Tr(site, refusal.value)];
        return None;
      }
      var ok, out := fs.Check(Some(login), Some(password), None, remember);
      if out.Some? {
        return Some(Redirect(out.value));
      }
      if !ok {
        formError := formError + [Tr(site, WrongCredentials)];
        return None;
      }
      if redir.None? {
        return Some(TypeError);
      }
      var url := fs.Redirect([redir.value], "");
      assert Implode("/", [redir.value]) == redir.value;
      return Some(Redirect(url.value));
    }

    method SignUp(fs: FS.FrontendSession, post: Post) returns (exit: Option<Response>)
      modifies this`formError, this`calls, this`outbox, fs`success
      ensures Applied(fs, SignUpSpec(site, fs.env.blog, fs.g, post), exit)
    {
      if !NonceOk(site, post) {
        return Some(PreconditionFailed);
      }
      var login := Input(post, My.ACTION_SIGNUP, "login");
      if !Empty(login) {
        var errs := SignupFormErrors(site, post);
        if errs != [] {
          formError := formError + Translated(site, errs);
        } else {
          var user := Applicant(site, post);
          Register(fs, user, Mail.RegistrationMails(site.mailer, fs.env.blog, user.id, user.pwd, user.email));
        }
      }
      return None;
    }

    /** The `try` block of `signup`, sending `mails`. */
    method Register(fs: FS.FrontendSession, user: NewUser, mails: seq<Mail.Message>)
      modifies this`formError, this`calls, this`outbox, fs`success
      ensures Applied(fs, RegisterSpec(site, fs.env.blog.id, fs.g, user, mails), None)
    {
      var blogId := fs.env.blog.id;
      if site.users.addUser(user) != Some(user.id) {
        calls := calls + [AddUser(user)];
        formError := formError + [Tr(site, RegistrationFailed)];
      } else if !site.grantPermission(user.id, blogId) {
        calls := calls + [AddUser(user), GrantPermission(user.id, blogId)];
        formError := formError + [Tr(site, RegistrationFailed)];
      } else {
        calls := calls + [AddUser(user), GrantPermission(user.id, blogId), AfterSignup(user)];
        var t := Mail.Transmit(site.transport, mails);
        outbox := outbox + t.handed;
        if t.ok {
          fs.success := Tr(site, RegistrationThanks);
        } else {
          formError := formError + [Tr(site, RegistrationFailed)];
        }
      }
    }

    method Recover(fs: FS.FrontendSession, state: string, post: Post) returns (exit: Option<Response>)
      modifies this`formError, this`calls, this`outbox, fs`success
      ensures Applied(fs, RecoverSpec(site, fs.env.blog, fs.g, state, post), exit)
    {
      if !NonceOk(site, post) {
        return Some(PreconditionFailed);
      }
      var login := Input(post, My.ACTION_RECOVER, "login");
      var email := Input(post, My.ACTION_RECOVER, "email");
      if site.enableRecovery {
        if !Empty(state) {
          NewPassword(fs, state);
        } else if Anonymous(fs.g) && !Empty(login) && !Empty(email) {
          RecoveryKey(fs, login, email);
        }
      }
      return None;
    }

    /** The `recover` branch with a key in the state. */
    method NewPassword(fs: FS.FrontendSession, state: string)
      modifies this`formError, this`calls, this`outbox, fs`success
      ensures Applied(fs, NewPasswordSpec(site, fs.env.blog, fs.g, state), None)
    {
      var res := site.recoverPassword(state);
      calls := calls + [RecoverPassword(state)];
      if res.Some? {
        var t := Mail.Transmit(site.transport, Mail.PasswordMail(site.mailer, fs.env.blog, res.value.userId, res.value.newPass, res.value.email));
        outbox := outbox + t.handed;
        if t.ok {
          fs.success := Tr(site, NewPasswordMailed);
        } else {
          formError := formError + [Tr(site, UnknownUser)];
        }
      } else {
        formError := formError + [Tr(site, UnknownUser)];
      }
    }

    /** The `recover` branch asking for a key by login and address. */
    method RecoveryKey(fs: FS.FrontendSession, login: string, email: string)
      modifies this`formError, this`calls, this`outbox
      ensures Applied(fs, RecoveryKeySpec(site, fs.env.blog, fs.g, login, email), None)
    {
      if site.users.known(login) && site.users.isAdmin(login) {
        formError := formError + [Tr(site, AdminUseBackend)];
      } else {
        var key := site.setRecoverKey(login, email);
        calls := calls + [SetRecoverKey(login, email)];
        if key.Some? {
          var t := Mail.Transmit(site.transport, Mail.RecoveryMail(site.mailer, fs.env.blog, login, key.value, email));
          outbox := outbox + t.handed;
          formError := formError + [Tr(site, if t.ok then RecoveryMailSent(email) else UnknownUser)];
        } else {
          formError := formError + [Tr(site, UnknownUser)];
        }
      }
    }

    method Change(fs: FS.FrontendSession, segments: seq<string>, post: Post) returns (exit: Option<Response>)
      modifies this`formError, this`calls, fs`state, fs`data, fs`success, fs`g, fs`env
      ensures Applied(fs, ChangeSpec(site, old(fs.env), old(fs.g), segments, post), exit)
      // once a password is stored the session sees the directory as it now is
      ensures fs.env == (if PasswordStored(site, old(fs.env), post) then old(fs.env).(auth := site.authAfterUpdate) else old(fs.env))
    {
      if !NonceOk(site, post) {
        return Some(PreconditionFailed);
      }
      var data := Input(post, My.ACTION_CHANGE, "data");
      if site.enableRecovery {
        if |segments| == 5 && Empty(data) {
          formError := formError + [Tr(site, MustSetNewPassword)];
          fs.state := My.STATE_CHANGE;
          fs.data := FS.EncodeAsWritten(fs.env.crypto, fs.env.b64, [FS.Str(segments[2]), FS.Str(segments[3]), FS.Str(segments[4])], false);
        } else if !Empty(data) {
          fs.state := My.STATE_CHANGE;
          fs.data := data;
          var e := ChangeFormError(site, fs.env, post);
          if e.Some? {
            formError := formError + [Tr(site, e.value)];
          } else {
            exit := StorePassword(fs, post);
            return;
          }
        }
      }
      return None;
    }

    method StorePassword(fs: FS.FrontendSession, post: Post) returns (exit: Option<Response>)
      requires fs.state == My.STATE_CHANGE && fs.data == Input(post, My.ACTION_CHANGE, "data")
      modifies this`formError, this`calls, fs`state, fs`data, fs`success, fs`g, fs`env
      ensures Applied(fs, StorePasswordSpec(site, old(fs.env), old(fs.g), post), exit)
      ensures fs.env == (if site.users.update(ChangeTarget(old(fs.env), post).userId,
                                              SetPassword(Input(post, My.ACTION_CHANGE, "password"), true)).None?
                         then old(fs.env).(auth := site.authAfterUpdate) else old(fs.env))
    {
      var d := ChangeTarget(fs.env, post);
      var password := Input(post, My.ACTION_CHANGE, "password");
      var failure := site.users.update(d.userId, SetPassword(password, true));
      calls := calls + [UpdateUser(d.userId, SetPassword(password, true))];
      if failure.Some? {
        formError := formError + [failure.value];
        return None;
      }
      fs.env := fs.env.(auth := site.authAfterUpdate);
      var _, out := fs.Check(Some(d.userId), Some(password), None, d.remember);
      if out.Some? {
        return Some(Redirect(out.value));
      }
      fs.state := My.STATE_CONNECTED;
      fs.data := "";
      fs.success := Tr(site, PasswordUpdated);
      return None;
    }

    method UpdatePreferences(fs: FS.FrontendSession, post: Post) returns (exit: Option<Response>)
      modifies this`formError, this`calls, fs`success
      ensures Applied(fs, UpdPrefSpec(site, fs.g, post), exit)
    {
      if !NonceOk(site, post) {
        return Some(PreconditionFailed);
      }
      var url := Input(post, My.ACTION_UPDPREF, "url");
      if !HasScheme(url) {
        url := "http://" + url;
      }
      url := site.filterUrl(url);
      var userId := UserIdOf(fs.g);
      var failure := site.users.update(userId, SetUrl(url));
      calls := calls + [UpdateUser(userId, SetUrl(url))];
      if failure.Some? {
        formError := formError + [failure.value];
      } else {
        fs.success := Tr(site, ProfileUpdated);
      }
      return None;
    }

    method UpdatePassword(fs: FS.FrontendSession, post: Post) returns (exit: Option<Response>)
      modifies this`formError, this`calls, fs`success
      ensures Applied(fs, UpdPassSpec(site, fs.g, post), exit)
    {
      if !NonceOk(site, post) {
        return Some(PreconditionFailed);
      }
      var current := Input(post, My.ACTION_UPDPASS, "current");
      var newpass := Input(post, My.ACTION_UPDPASS, "newpass");
      var vrfpass := Input(post, My.ACTION_UPDPASS, "vrfpass");
      var userId := UserIdOf(fs.g);
      var e := UpdpassError(site.checkPassword, current, newpass, vrfpass);
      assert e == UpdpassFormError(site, post);
      if e.Some? {
        formError := formError + [Tr(site, e.value)];
      } else {
        var call := UpdateUser(userId, SetPassword(newpass, false));
        var failure := site.users.update(userId, SetPassword(newpass, false));
        calls := calls + [call];
        if failure.Some? {
          assert UpdPassSpec(site, fs.g, post) == Effects(None, [failure.value], [call], [], None, None, fs.g);
          formError := formError + [failure.value];
        } else {
          assert UpdPassSpec(site, fs.g, post) == Effects(None, [], [call], [], Some(Tr(site, PasswordUpdated)), None, fs.g);
          fs.success := Tr(site, PasswordUpdated);
        }
      }
      return None;
    }
  }
}
