/** The session helper of the current plugin version (src/FrontendSession.php):
    the remember-me token, the password-change payload, the credential check
    that ends in one of refused, rejected, a redirect (pending, disabled,
    change of password) or authenticated, and the checks run when the helper
    is built for a request. */
module FrontendSession {
  import opened Php
  import opened Host
  import opened Request
  import My

  // =====================================================================
  // Token codec

  /** `uid()`: the fingerprint of the browser alone, kept in the session. */
  function BrowserUid(c: Crypto): string {
    c.browserUID(c.masterKey)
  }

  /** The keyed fingerprint heading a remember-me token for `u`. It is made
      of the master key, the browser and the user id: not of the password. */
  function Fingerprint(c: Crypto, u: string): string {
    c.browserUID(c.masterKey + u + c.cryptLegacy(u))
  }

  /** `uid($user_id)`: for a non-empty id, the 104-character remember-me
      token, 40 characters of fingerprint then the hex of the id packed into
      32 bytes. */
  function Uid(c: Crypto, u: string): (r: string)
    ensures HexFingerprints(c) && u != "" ==> |r| == 104 && IsHexText(r)
    ensures HexFingerprints(c) && u == "" ==> |r| == 40
  {
    if u == "" then BrowserUid(c) else Fingerprint(c, u) + Bin2Hex(PackA32(u))
  }

  /** A user id that `pack('a32')` keeps whole and `trim` leaves alone. */
  predicate PackableId(u: string) {
    u != "" && |u| <= 32 && IsBytes(u) && Trimmed(u)
  }

  /** What a remember-me cookie carries: a user id and the key to check. */
  datatype Credentials = Credentials(userId: Option<string>, key: Option<string>)

  /** The cookie branch of the constructor: only a value of exactly 104
      characters is looked at; the id is the trimmed unpacking of the hex
      after offset 40, the key the first 40 characters. `unpack` cannot fail
      on 64 hex digits, so the id is always there. */
  function ParseRememberCookie(cookie: string): (r: Option<Credentials>)
    ensures r.Some? <==> |cookie| == 104
    ensures r.Some? ==> r.value.key == Some(cookie[..40])
    ensures r.Some? ==> r.value.userId.Some? && |r.value.userId.value| <= 32
    ensures r.Some? ==> r.value.userId == Some(Trim(PackHex(cookie[40..])))
  {
    if |cookie| != 104 then None
    else
      var packed := PackHex(cookie[40..]);
      assert |packed| == 32 && packed[..32] == packed;
      match UnpackA32(packed)
      case Some(id) => Some(Credentials(Some(Trim(id)), Some(cookie[..40])))
      case None => Some(Credentials(None, None))
  }

  /** Reading back a token minted by `uid` gives its user id and fingerprint. */
  lemma RememberTokenRoundTrip(c: Crypto, u: string)
    requires HexFingerprints(c) && PackableId(u)
    ensures ParseRememberCookie(Uid(c, u)) == Some(Credentials(Some(u), Some(Fingerprint(c, u))))
  {
    var t := Uid(c, u);
    assert t[..40] == Fingerprint(c, u);
    assert t[40..] == Bin2Hex(PackA32(u));
    HexIdRoundTrip(u);
  }

  /** A PHP value in the array handed to `encode`. */
  datatype Value = Str(s: string) | Bool(b: bool)

  /** `(string) $v` */
  function ToStr(v: Value): string {
    match v
    case Str(s) => s
    case Bool(b) => if b then "1" else ""
  }

  /** `!empty($v)` */
  predicate Truthy(v: Value) {
    match v
    case Str(s) => !Empty(s)
    case Bool(b) => b
  }

  function Strs(data: seq<Value>): (r: seq<string>)
    ensures |r| == |data| && forall i :: 0 <= i < |data| ==> r[i] == ToStr(data[i])
  {
    seq(|data|, i requires 0 <= i < |data| => ToStr(data[i]))
  }

  /** `encode($data, $encode)` as written: with a two-element array to
      encode, the flag is read from `$data[2]`, which is never there, so the
      third segment is always ''. */
  function EncodeAsWritten(c: Crypto, b64: Base64, data: seq<Value>, encode: bool): string {
    if |data| == 2 && encode then
      Implode("/", [b64.encode(ToStr(data[0])), Uid(c, ToStr(data[0])), ""])
    else Implode("/", Strs(data))
  }

  /** `encode($data, $encode)` as evidently intended: `base64(user)/uid(user)/flag`
      with the flag '1' when the remember-me value is set and '' otherwise;
      any other array is joined with '/'. */
  function Encode(c: Crypto, b64: Base64, data: seq<Value>, encode: bool): string {
    if |data| == 2 && encode then
      Implode("/", [b64.encode(ToStr(data[0])), Uid(c, ToStr(data[0])), if Truthy(data[1]) then "1" else ""])
    else Implode("/", Strs(data))
  }

  /** What `decode` gives: the user id ('' when the payload is not trusted)
      and the remember-me flag. */
  datatype ChangeData = ChangeData(userId: string, remember: bool)

  /** `decode($data)`: the id is '' unless the first segment is valid base64
      and the second is 104 characters long, and it is non-empty only when
      the directory accepts the key (the second segment's first 40
      characters) for the decoded user; `remember` is set exactly when the
      third segment is "1". */
  function Decode(auth: Auth, b64: Base64, data: string): (r: ChangeData)
    ensures var parts := Explode('/', data);
      r.remember <==> |parts| >= 3 && parts[2] == "1"
    ensures var parts := Explode('/', data);
      r.userId != "" ==>
        && |parts| >= 2 && |parts[1]| == 104
        && var user := b64.decode(if Empty(parts[0]) then "" else parts[0]);
        && user.Some? && r.userId == Trim(user.value)
        && auth.checkUser(r.userId, None, Some(parts[1][..40]), true)
  {
    var parts := Explode('/', data);
    var user := b64.decode(if Empty(parts[0]) then "" else parts[0]);
    var cookie := if |parts| >= 2 then parts[1] else "";
    var userId :=
      if user.Some? && |cookie| == 104 then
        match UnpackA32(PackHex(cookie[40..]))
        case Some(_) => if auth.checkUser(Trim(user.value), None, Some(cookie[..40]), true) then Trim(user.value) else ""
        case None => ""
      else "";
    ChangeData(userId, |parts| >= 3 && parts[2] == "1")
  }

  /** A token has no '/' in it: it is hex throughout. */
  lemma UidHasNoSlash(c: Crypto, u: string)
    requires HexFingerprints(c) && u != ""
    ensures '/' !in Uid(c, u)
  {
    var t := Uid(c, u);
    assert IsHexText(t);
    forall i | 0 <= i < |t| ensures t[i] != '/' {
      assert t[i] in HexDigits;
    }
  }

  /** The pieces of an encoded payload hold no '/', so `explode` finds them. */
  lemma PayloadPieces(e: string, t: string, flag: string)
    requires '/' !in e && '/' !in t && '/' !in flag
    ensures Explode('/', Implode("/", [e, t, flag])) == [e, t, flag]
  {
    var parts := [e, t, flag];
    assert forall i :: 0 <= i < |parts| ==> '/' !in parts[i];
    ExplodeImplode('/', parts);
  }

  /** `decode` on a payload whose three segments are known. */
  lemma DecodeSegments(auth: Auth, b64: Base64, data: string, e: string, t: string, f: string)
    requires Explode('/', data) == [e, t, f] && |t| == 104
    ensures Decode(auth, b64, data).remember <==> f == "1"
    ensures var user := b64.decode(if Empty(e) then "" else e);
      Decode(auth, b64, data).userId ==
        if user.Some? && auth.checkUser(Trim(user.value), None, Some(t[..40]), true) then Trim(user.value) else ""
  {
    assert |PackHex(t[40..])| == 32;
  }

  /** The payload round trip: decoding what `encode([$u, $remember], true)`
      produced gives back the user exactly when the directory accepts the
      fingerprint for `u` (and '' otherwise), and the remember-me flag. */
  lemma ChangePayloadRoundTrip(env: Env, u: string, remember: bool)
    requires HexFingerprints(env.crypto) && SoundBase64(env.b64) && PackableId(u)
    requires '/' !in env.b64.encode(u)
    ensures Decode(env.auth, env.b64, Encode(env.crypto, env.b64, [Str(u), Bool(remember)], true))
         == ChangeData(if env.auth.checkUser(u, None, Some(Fingerprint(env.crypto, u)), true) then u else "", remember)
  {
    var e := env.b64.encode(u);
    var t := Uid(env.crypto, u);
    EncodedSegments(env.crypto, env.b64, u, remember);
    DecodeSegments(env.auth, env.b64, Encode(env.crypto, env.b64, [Str(u), Bool(remember)], true), e, t, if remember then "1" else "");
    assert env.b64.decode(if Empty(e) then "" else e) == Some(u) by {
      assert |e| % 4 == 0;
    }
    assert t[..40] == Fingerprint(env.crypto, u);
    TrimOfTrimmed(u);
  }

  /** `encode([$u, $remember], true)` splits back into its three segments. */
  lemma EncodedSegments(c: Crypto, b64: Base64, u: string, remember: bool)
    requires HexFingerprints(c) && PackableId(u) && '/' !in b64.encode(u)
    ensures Explode('/', Encode(c, b64, [Str(u), Bool(remember)], true))
         == [b64.encode(u), Uid(c, u), if remember then "1" else ""]
    ensures |Uid(c, u)| == 104
  {
    UidHasNoSlash(c, u);
    PayloadPieces(b64.encode(u), Uid(c, u), if remember then "1" else "");
  }

  /** The encoding as written loses the remember-me flag: a payload made for
      a user who asked to be remembered decodes with `remember` false. */
  lemma EncodeAsWrittenLosesRemember(env: Env, u: string)
    requires HexFingerprints(env.crypto) && PackableId(u)
    requires '/' !in env.b64.encode(u)
    ensures !Decode(env.auth, env.b64, EncodeAsWritten(env.crypto, env.b64, [Str(u), Bool(true)], true)).remember
  {
    UidHasNoSlash(env.crypto, u);
    PayloadPieces(env.b64.encode(u), Uid(env.crypto, u), "");
  }

  // =====================================================================
  // Request state transitions

  /** `reset()`: a present remember-me cookie is dropped and cleared in the browser. */
  function ResetSpec(g: Globals): (r: Globals)
    ensures r.cookie == None && r.session == g.session && r.authUser == g.authUser
    ensures g.cookie.Some? ==> r.sent == g.sent + [Cookie("", -600)]
    ensures g.cookie.None? ==> r.sent == g.sent
  {
    if g.cookie.Some? then g.(cookie := None, sent := g.sent + [Cookie("", -600)]) else g
  }

  /** `kill()`: the session is destroyed, then the cookie reset. */
  function KillSpec(g: Globals): (r: Globals)
    ensures r.session == NoSession && r.cookie == None && r.authUser == g.authUser
    ensures |r.sent| > |g.sent| && r.sent[|g.sent|] == DestroySession
  {
    ResetSpec(g.(session := NoSession, sent := g.sent + [DestroySession]))
  }

  /** Before `Http::redirect` the blog's cache is triggered. */
  function Triggered(g: Globals): Globals {
    g.(sent := g.sent + [TriggerBlog])
  }

  /** Where `check` ends. */
  datatype Outcome =
    | Refused          // nothing to check: `false` before any directory call
    | Rejected         // credentials or permission refused: `false`
    | Redirected(url: string)
    | Authenticated    // `true`

  datatype Checked = Checked(outcome: Outcome, g: Globals)

  /** The first test of `check`: no user id, or an empty password or key. */
  predicate NothingToCheck(userId: Option<string>, pwd: Option<string>, key: Option<string>) {
    userId.None? || pwd == Some("") || key == Some("")
  }

  /** The account may hold a session: not pending, not restricted, no forced
      change of password. */
  predicate Usable(auth: Auth, u: string) {
    auth.status(u) != My.USER_PENDING && !auth.isRestricted(auth.status(u)) && !auth.mustChangePassword(u)
  }

  /** `redirect(blog url . session path, action, state)` */
  function SessionRedirect(blog: Blog, action: string, state: string): string {
    Implode("/", [SessionUrl(blog), action, state])
  }

  /** `check($user_id, $user_pwd, $user_key, $redir, $remember)`: its
      properties are `CheckRules`. */
  function CheckSpec(env: Env, g: Globals, userId: Option<string>, pwd: Option<string>, key: Option<string>, remember: bool): Checked
    requires remember && key.Some? ==> g.cookie.Some?
  {
    if NothingToCheck(userId, pwd, key) then Checked(Refused, g)
    else
      var u := userId.value;
      var accepted := env.auth.checkUser(u, pwd, key, false);
      var g1 := if accepted then g.(authUser := Some(u)) else g;
      if accepted && env.auth.permitted(u) then AdmitSpec(env, g1, u, key, remember)
      else Checked(Rejected, ResetSpec(g1))
  }

  /** The part of `check` after the credentials and the permission were
      accepted: the account's status decides between the redirects and the
      session. */
  function AdmitSpec(env: Env, g: Globals, u: string, key: Option<string>, remember: bool): Checked
    requires remember && key.Some? ==> g.cookie.Some?
  {
    var status := env.auth.status(u);
    if status == My.USER_PENDING then
      Checked(Redirected(SessionRedirect(env.blog, My.ACTION_SIGNIN, My.STATE_PENDING)), Triggered(ResetSpec(g)))
    else if env.auth.isRestricted(status) then
      Checked(Redirected(SessionRedirect(env.blog, My.ACTION_SIGNIN, My.STATE_DISABLED)), Triggered(ResetSpec(g)))
    else if env.auth.mustChangePassword(u) then
      var payload := EncodeAsWritten(env.crypto, env.b64, [Str(u), Bool(remember)], true);
      Checked(Redirected(SessionRedirect(env.blog, My.ACTION_CHANGE, payload)), Triggered(ResetSpec(g)))
    else
      var g2 := g.(session := SessionVars(Some(u), Some(Uid(env.crypto, "")), Some(env.blog.id)));
      if remember then
        var value := if key.None? then Uid(env.crypto, u) else g.cookie.value;
        Checked(Authenticated, g2.(sent := g2.sent + [Cookie(value, env.now + My.REMEMBER_SECONDS)]))
      else Checked(Authenticated, g2)
  }

  /** What `check` promises: which outcome each case of the credentials
      and the account gets, and what happens to the session and the cookie. */
  lemma CheckRules(env: Env, g: Globals, userId: Option<string>, pwd: Option<string>, key: Option<string>, remember: bool, r: Checked)
    requires remember && key.Some? ==> g.cookie.Some?
    requires r == CheckSpec(env, g, userId, pwd, key, remember)
    // nothing to check: no directory call, nothing changes
    ensures NothingToCheck(userId, pwd, key) ==> r == Checked(Refused, g)
    // refused credentials or permission: the cookie goes, no session
    ensures r.outcome.Rejected? <==>
      !NothingToCheck(userId, pwd, key) && !(env.auth.checkUser(userId.value, pwd, key, false) && env.auth.permitted(userId.value))
    // only a usable account with accepted credentials and permission gets a session
    ensures r.outcome.Authenticated? <==>
      && !NothingToCheck(userId, pwd, key)
      && env.auth.checkUser(userId.value, pwd, key, false) && env.auth.permitted(userId.value)
      && Usable(env.auth, userId.value)
    ensures !r.outcome.Authenticated? ==> r.g.session == g.session
    ensures r.outcome.Rejected? || r.outcome.Redirected? ==> r.g.cookie == None
    ensures (r.outcome.Rejected? || r.outcome.Redirected?) && g.cookie.Some? ==> Cookie("", -600) in r.g.sent
    // the redirects: pending, then disabled, then change of password
    ensures r.outcome.Redirected? ==>
      var u := userId.value;
      r.outcome.url ==
        if env.auth.status(u) == My.USER_PENDING then SessionRedirect(env.blog, My.ACTION_SIGNIN, My.STATE_PENDING)
        else if env.auth.isRestricted(env.auth.status(u)) then SessionRedirect(env.blog, My.ACTION_SIGNIN, My.STATE_DISABLED)
        else SessionRedirect(env.blog, My.ACTION_CHANGE, EncodeAsWritten(env.crypto, env.b64, [Str(u), Bool(remember)], true))
    ensures r.outcome.Redirected? ==> |r.g.sent| > 0 && r.g.sent[|r.g.sent| - 1] == TriggerBlog
    // a session bound to the user, this browser and this blog
    ensures r.outcome.Authenticated? ==>
      && r.g.session == SessionVars(userId, Some(BrowserUid(env.crypto)), Some(env.blog.id))
      && r.g.authUser == userId && r.g.cookie == g.cookie
    // remember me: a fresh token for a password, the presented cookie for a key
    ensures r.outcome.Authenticated? && remember ==>
      r.g.sent == g.sent + [Cookie(if key.None? then Uid(env.crypto, userId.value) else g.cookie.value,
                                   env.now + My.REMEMBER_SECONDS)]
    ensures r.outcome.Authenticated? && !remember ==> r.g.sent == g.sent
  {
  }

  /** A must-change-password account signing in with remember-me is sent
      to the change page with a payload whose decoding has lost the
      remember-me flag. */
  lemma ForcedChangeForgetsRemember(env: Env, g: Globals, u: string, pwd: Option<string>)
    requires HexFingerprints(env.crypto) && PackableId(u) && '/' !in env.b64.encode(u)
    requires pwd != Some("") && env.auth.checkUser(u, pwd, None, false) && env.auth.permitted(u)
    requires env.auth.status(u) != My.USER_PENDING && !env.auth.isRestricted(env.auth.status(u))
    requires env.auth.mustChangePassword(u)
    ensures var payload := EncodeAsWritten(env.crypto, env.b64, [Str(u), Bool(true)], true);
      && CheckSpec(env, g, Some(u), pwd, None, true).outcome == Redirected(SessionRedirect(env.blog, My.ACTION_CHANGE, payload))
      && !Decode(env.auth, env.b64, payload).remember
  {
    EncodeAsWrittenLosesRemember(env, u);
  }

  /** Where a step of the request ends: `Some(url)` once `Http::redirect`
      has been called (it exits), `None` when the request goes on. */
  datatype Step = Step(exit: Option<string>, g: Globals)

  function ExitOf(o: Outcome): Option<string> {
    if o.Redirected? then Some(o.url) else None
  }

  /** A session is valid for this request: bound to this browser and this
      blog, with App::auth() holding a user who has the plugin's right. */
  predicate ValidSession(env: Env, g: Globals) {
    g.session.userId.Some? ==>
      && g.session.browserUid == Some(BrowserUid(env.crypto))
      && g.session.blogId == Some(env.blog.id)
      && Permitted(env.auth, g.authUser)
  }

  /** The constructor, from `session()->start()` on (the start itself is the
      engine's). A session user is re-checked; a browser mismatch destroys the
      session, clears the cookie and goes home; a stored blog id other than
      this blog's is dropped, and then a session user without it or without
      the right is logged out; with no session user, a 104-character cookie
      is checked as a key login with remember-me. */
  function BootSpec(env: Env, g: Globals): (r: Step)
    // whatever survives the constructor is a valid session
    ensures r.exit.None? ==> ValidSession(env, r.g)
    // a stored browser fingerprint that is not this browser's, on a session
    // the re-check did not renew: destroyed, cookie cleared, back home
    ensures g.session.userId.Some? && g.session.browserUid != Some(BrowserUid(env.crypto))
         && !CheckSpec(env, g, g.session.userId, None, None, false).outcome.Authenticated?
         && !CheckSpec(env, g, g.session.userId, None, None, false).outcome.Redirected?
         ==> r.exit == Some(env.blog.url) && r.g.session == NoSession
             && |r.g.sent| >= 2 && r.g.sent[|r.g.sent| - 2] == Cookie("", -600)
    // a session on this browser that the re-check neither renewed nor
    // redirected, holding another blog's id: the id is dropped, then the
    // session is killed and the request goes home
    ensures var c := CheckSpec(env, g, g.session.userId, None, None, false);
      g.session.userId.Some? && g.session.browserUid == Some(BrowserUid(env.crypto))
      && !c.outcome.Authenticated? && !c.outcome.Redirected?
      && g.session.blogId.Some? && g.session.blogId != Some(env.blog.id)
      ==> && r.exit == Some(env.blog.url) && r.g.session == NoSession && r.g.cookie == None
          && DestroySession in r.g.sent && r.g.sent[|r.g.sent| - 1] == TriggerBlog
    // no session user: the cookie is consulted exactly when it is 104 characters long
    ensures g.session.userId.None? && (g.cookie.None? || |g.cookie.value| != 104) ==>
      r.exit.None? && r.g.cookie == g.cookie && r.g.sent == g.sent
    // no session user and a 104-character cookie: a key login with
    // remember-me for the id and fingerprint the cookie holds, once the
    // session's blog id is settled (this blog's, or dropped if foreign)
    ensures g.session.userId.None? && g.cookie.Some? && |g.cookie.value| == 104 ==>
      var cookie := g.cookie.value;
      var blogId := if g.session.blogId.None? || g.session.blogId == Some(env.blog.id) then Some(env.blog.id) else None;
      var c := CheckSpec(env, g.(session := g.session.(blogId := blogId)),
                         Some(Trim(PackHex(cookie[40..]))), None, Some(cookie[..40]), true);
      r.exit == ExitOf(c.outcome) && r.g == c.g
  {
    var s1 :=
      if g.session.userId.Some? then
        var c := CheckSpec(env, g, g.session.userId, None, None, false);
        CheckRules(env, g, g.session.userId, None, None, false, c);
        if c.outcome.Redirected? then Step(Some(c.outcome.url), c.g)
        else if c.g.session.browserUid != Some(Uid(env.crypto, "")) then
          var g1 := c.g.(session := NoSession, sent := c.g.sent + [DestroySession, Cookie("", -600)]);
          Step(Some(env.blog.url), Triggered(g1))
        else Step(None, c.g)
      else Step(None, g);
    if s1.exit.Some? then s1
    else
      var sv := s1.g.session;
      var g2 :=
        if sv.blogId.None? then s1.g.(session := sv.(blogId := Some(env.blog.id)))
        else if sv.blogId != Some(env.blog.id) then s1.g.(session := sv.(blogId := None))
        else s1.g;
      if g2.session.userId.Some? && (g2.session.blogId.None? || !Permitted(env.auth, g2.authUser)) then
        Step(Some(env.blog.url), Triggered(KillSpec(g2)))
      else if g2.session.userId.None? && g2.cookie.Some? && |g2.cookie.value| == 104 then
        var cred := ParseRememberCookie(g2.cookie.value).value;
        var c := CheckSpec(env, g2, cred.userId, None, cred.key, true);
        CheckRules(env, g2, cred.userId, None, cred.key, true, c);
        Step(ExitOf(c.outcome), c.g)
      else Step(None, g2)
  }

  // =====================================================================
  // The helper object

  class FrontendSession {
    /** errors stack */
    var errors: seq<string>
    var state: string
    var data: string
    var success: string
    /** `$_SESSION`, `$_COOKIE`, App::auth() and the response, for this request */
    var g: Globals
    var env: Env

    /** The properties' initial values; the constructor's checks are `Start`. */
    constructor (env: Env, g: Globals)
      ensures this.env == env && this.g == g
      ensures errors == [] && state == My.STATE_DISCONNECTED && data == "" && success == ""
    {
      this.env := env;
      this.g := g;
      errors := [];
      state := My.STATE_DISCONNECTED;
      data := "";
      success := "";
    }

    /** `setCookie($expires, $value)`: the remember-me cookie is sent with
        the session's cookie parameters; `$_COOKIE` is not touched. */
    method SetCookie(expires: int, value: string)
      modifies this`g
      ensures g == old(g).(sent := old(g).sent + [Cookie(value, expires)])
    {
      g := g.(sent := g.sent + [Cookie(value, expires)]);
    }

    /** `reset()` */
    method Reset()
      modifies this`g
      ensures g == ResetSpec(old(g))
    {
      if g.cookie.Some? {
        g := g.(cookie := None);
        SetCookie(-600, "");
      }
    }

    /** `redirect(...$args)`: the arguments joined with '/' (the current URI
        when there are none) after the cache trigger; the request ends there. */
    method Redirect(args: seq<string>, selfUri: string) returns (exit: Option<string>)
      modifies this`g
      ensures g == Triggered(old(g))
      ensures exit == Some(if args == [] then selfUri else Implode("/", args))
    {
      g := g.(sent := g.sent + [TriggerBlog]);
      exit := Some(if args == [] then selfUri else Implode("/", args));
    }

    /** `kill()` */
    method Kill()
      modifies this`g
      ensures g == KillSpec(old(g))
    {
      g := g.(session := NoSession, sent := g.sent + [DestroySession]);
      Reset();
    }

    /** `check($user_id, $user_pwd, $user_key, $redir, $remember)`; `$redir`
        is not used by the method. */
    method Check(userId: Option<string>, pwd: Option<string>, key: Option<string>, remember: bool)
      returns (ok: bool, exit: Option<string>)
      requires remember && key.Some? ==> g.cookie.Some?
      modifies this`g
      ensures var r := CheckSpec(env, old(g), userId, pwd, key, remember);
        g == r.g && ok == r.outcome.Authenticated? && exit == ExitOf(r.outcome)
    {
      if userId.None? || (pwd.Some? && pwd.value == "") || (key.Some? && key.value == "") {
        return false, None;
      }
      var u := userId.value;
      var accepted := env.auth.checkUser(u, pwd, key, false);
      if accepted {
        g := g.(authUser := Some(u));
      }
      if accepted && env.auth.permitted(u) {
        ok, exit := Admit(u, key, remember);
      } else {
        Reset();
        ok, exit := false, None;
      }
    }

    /** `check` once the credentials and the permission were accepted. */
    method Admit(u: string, key: Option<string>, remember: bool) returns (ok: bool, exit: Option<string>)
      requires remember && key.Some? ==> g.cookie.Some?
      modifies this`g
      ensures var r := AdmitSpec(env, old(g), u, key, remember);
        g == r.g && ok == r.outcome.Authenticated? && exit == ExitOf(r.outcome)
    {
      var status := env.auth.status(u);
      if status == My.USER_PENDING {
        Reset();
        exit := Redirect([SessionUrl(env.blog), My.ACTION_SIGNIN, My.STATE_PENDING], "");
        return false, exit;
      } else if env.auth.isRestricted(status) {
        Reset();
        exit := Redirect([SessionUrl(env.blog), My.ACTION_SIGNIN, My.STATE_DISABLED], "");
        return false, exit;
      } else if env.auth.mustChangePassword(u) {
        Reset();
        var payload := EncodeAsWritten(env.crypto, env.b64, [Str(u), Bool(remember)], true);
        exit := Redirect([SessionUrl(env.blog), My.ACTION_CHANGE, payload], "");
        return false, exit;
      }
      g := g.(session := SessionVars(Some(u), Some(Uid(env.crypto, "")), Some(env.blog.id)));
      if remember {
        SetCookie(env.now + My.REMEMBER_SECONDS, if key.None? then Uid(env.crypto, u) else g.cookie.value);
      }
      return true, None;
    }

    /** The constructor's body, after `session()->start()`. */
    method Start() returns (exit: Option<string>)
      modifies this`g
      ensures Step(exit, g) == BootSpec(env, old(g))
    {
      if g.session.userId.Some? {
        var _, out := Check(g.session.userId, None, None, false);
        if out.Some? {
          return out;
        }
        if Some(Uid(env.crypto, "")) != g.session.browserUid {
          g := g.(session := NoSession, sent := g.sent + [DestroySession]);
          SetCookie(-600, "");
          exit := Redirect([env.blog.url], "");
          return;
        }
      }
      if g.session.blogId.None? {
        g := g.(session := g.session.(blogId := Some(env.blog.id)));
      } else if g.session.blogId != Some(env.blog.id) {
        g := g.(session := g.session.(blogId := None));
      }
      if g.session.userId.Some? && (g.session.blogId.None? || !Permitted(env.auth, g.authUser)) {
        Kill();
        exit := Redirect([env.blog.url], "");
        return;
      }
      if g.session.userId.None? && g.cookie.Some? && |g.cookie.value| == 104 {
        var cred := ParseRememberCookie(g.cookie.value).value;
        var _, out := Check(cred.userId, None, cred.key, true);
        return out;
      }
      return None;
    }

    /** `getErrors()` */
    method GetErrors() returns (r: seq<string>)
      ensures r == errors
    {
      r := errors;
    }

    /** `hasError()` */
    method HasError() returns (r: bool)
      ensures r <==> |errors| > 0
    {
      r := errors != [];
    }

    /** `addError($error)`: the message goes on top of the stack. */
    method AddError(e: string)
      modifies this`errors
      ensures errors == old(errors) + [e]
    {
      errors := errors + [e];
    }
  }
}
