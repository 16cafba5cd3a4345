/** The plugin's constants (src/My.php). This My.php defines only
    USER_PENDING, the SESSION_* texts and four ACTION_* names. The other
    STATE_* and ACTION_* values the dispatcher uses are given the plain
    word they name, so several constants share a string: "connected",
    "disconnected", "pending" and "change". */
module My {
  const Id: string := "FrontendSession"

  /** user status of an account waiting for an administrator */
  const USER_PENDING: int := -201

  const SESSION_CONNECTED: string := "connected"
  const SESSION_DISCONNECTED: string := "disconnected"
  const SESSION_PENDING: string := "pending"

  const ACTION_SIGNIN: string := "signin"
  const ACTION_SIGNOUT: string := "signout"
  const ACTION_SIGNUP: string := "signup"
  const ACTION_PENDING: string := "pending"
  const ACTION_RECOVER: string := "recover"
  const ACTION_CHANGE: string := "change"
  const ACTION_UPDPREF: string := "updpref"
  const ACTION_UPDPASS: string := "updpass"

  const STATE_CONNECTED: string := "connected"
  const STATE_DISCONNECTED: string := "disconnected"
  const STATE_PENDING: string := "pending"
  const STATE_DISABLED: string := "disabled"
  const STATE_CHANGE: string := "change"

  /** lifetime of the remember-me cookie, `strtotime('+15 days')` */
  const REMEMBER_SECONDS: int := 15 * 86400
}

/** What the plugin asks of the blog engine and of PHP without seeing how it
    is done: keyed hashing, base64, the user directory, the current blog.
    Each is a value of function type handed in by the caller, so the model
    states its results in terms of these answers and nothing more. */
module Host {
  import opened Php

  /** `Http::browserUID($key)` (a keyed hash of the browser's request
      headers) and `App::auth()->cryptLegacy($s)`, with the server's
      master key. */
  datatype Crypto = Crypto(masterKey: string, browserUID: string -> string, cryptLegacy: string -> string)

  /** `browserUID` answers with 40 lower-case hex digits (an HMAC-SHA1). */
  ghost predicate HexFingerprints(c: Crypto) {
    forall k :: |c.browserUID(k)| == 40 && IsHexText(c.browserUID(k))
  }

  /** `base64_encode` and strict `base64_decode` (None for `false`). */
  datatype Base64 = Base64(encode: string -> string, decode: string -> Option<string>)

  /** Decoding inverts encoding, and encodings come in blocks of four. */
  ghost predicate SoundBase64(b: Base64) {
    forall s :: b.decode(b.encode(s)) == Some(s) && |b.encode(s)| % 4 == 0
  }

  /** The user directory, as `App::auth()` and `App::users()` answer. */
  datatype Auth = Auth(
    /** `checkUser($id, $pwd, $key, $check_blog)`: the credentials are
        accepted. `check()` passes `$check_blog = false`; the payload decoding
        and the "unchanged password" test keep the default `true`. */
    checkUser: (string, Option<string>, Option<string>, bool) -> bool,
    /** `check(My::id(), blog id)` once that user is loaded */
    permitted: string -> bool,
    /** `getInfo('user_status')` of that user */
    status: string -> int,
    /** `mustChangePassword()` of that user */
    mustChangePassword: string -> bool,
    /** `App::status()->user()->isRestricted($status)` */
    isRestricted: int -> bool)

  /** `App::auth()->check(My::id(), blog id)` for whoever App::auth() holds. */
  predicate Permitted(a: Auth, authUser: Option<string>) {
    authUser.Some? && a.permitted(authUser.value)
  }

  /** The blog being served: `App::blog()->id()`, `->url()`, `->name()`,
      and the session page's path `App::url()->getURLFor(My::id())`. */
  datatype Blog = Blog(id: string, url: string, name: string, sessionPath: string)

  /** Everything a request's session logic consults, `now` standing for `time()`. */
  datatype Env = Env(crypto: Crypto, b64: Base64, auth: Auth, blog: Blog, now: int)

  /** A user cursor given to `addUser`. */
  datatype NewUser = NewUser(id: string, name: string, firstname: string, email: string, pwd: string, status: int, lang: string)

  /** A user cursor given to `updUser`: a new password (with the forced
      change of password lifted or not), a new site URL, a new status. */
  datatype Update =
    | SetPassword(pwd: string, clearChange: bool)
    | SetUrl(url: string)
    | SetStatus(status: int)

  /** `App::users()`. `update` answers `None` when `updUser` returns and
      `Some(message)` when it throws; `addUser` answers the id it returns,
      `None` when it throws. */
  datatype Users = Users(
    /** `userExists($id)`, and `getUser($id)` is not empty */
    known: string -> bool,
    /** `getUser($id)->admin() != ''` */
    isAdmin: string -> bool,
    addUser: NewUser -> Option<string>,
    update: (string, Update) -> Option<string>)

  /** The session page of the blog, `App::blog()->url() . App::url()->getURLFor(My::id())` */
  function SessionUrl(b: Blog): string {
    b.url + b.sessionPath
  }
}

/** The request-wide state the session code reads and writes: `$_SESSION`
    (three keys), the remember-me entry of `$_COOKIE`, the user App::auth()
    holds, and what the response has been given so far. */
module Request {
  import opened Php

  /** `$_SESSION[<prefix>_user_id]`, `[<prefix>_browser_uid]`, `[<prefix>_blog_id]` */
  datatype SessionVars = SessionVars(userId: Option<string>, browserUid: Option<string>, blogId: Option<string>)

  const NoSession: SessionVars := SessionVars(None, None, None)

  /** What is sent, in order: cookies (`value` '' with a past expiry clears
      one), session start and destruction, and the blog's cache trigger. */
  datatype Effect =
    | Cookie(value: string, expires: int)
    | LegacyCookie(value: string, expires: int, path: string, secure: bool)
    | StartSession
    | DestroySession
    /** the engine's own session cookie, expired, on path '/' */
    | SessionCookieCleared
    | TriggerBlog

  datatype Globals = Globals(session: SessionVars, cookie: Option<string>, authUser: Option<string>, sent: seq<Effect>)
}
