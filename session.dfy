/** The session helper of the older version of the plugin (src/Session.php),
    kept beside the current one and modelled as it is written: a static
    class over `$_SESSION` and `$_COOKIE`. It differs from the current
    helper: an empty password is still checked, a disabled account is not
    redirected to a page of its own, every attempted check ends in a
    redirect, and its cookies carry a path and the `secure` flag. */
module LegacySession {
  import opened Php
  import opened Host
  import opened Request
  import FS = FrontendSession
  import My

  /** What the older helper asks of the engine beyond the current one's
      needs. */
  datatype Engine = Engine(
    /** `App::auth()->sessionExists()` */
    sessionExists: bool,
    /** `App::auth()->checkSession()`: `None` when it throws */
    checkSession: Option<bool>,
    /** `parse_url(App::blog()->url())['scheme']`, `None` when there is none */
    scheme: Option<string>,
    /** `Http::getSelfURI()` */
    selfUri: string)

  /** `preg_match('%^http[s]?$%', $scheme)`: without the D modifier `$`
      also matches before a final line feed. */
  predicate HttpScheme(s: string) {
    s == "http" || s == "https" || s == "http\n" || s == "https\n"
  }

  /** `isSSL()`: a missing, empty or non-http(s) scheme is not secure, and
      among the http(s) ones only exactly "https" is. */
  function IsSSL(scheme: Option<string>): (r: bool)
    ensures r <==> scheme == Some("https")
  {
    if scheme.None? || Empty(scheme.value) || !HttpScheme(scheme.value) then false
    else scheme.value == "https"
  }

  /** The remember-me token the older helper writes for a password login:
      the keyed fingerprint of the user, then the hex of the id packed into
      32 bytes. There is no case for an empty id. */
  function LegacyToken(c: Crypto, u: string): string {
    FS.Fingerprint(c, u) + Bin2Hex(PackA32(u))
  }

  /** For any non-empty id the older token is the current `uid($user_id)`,
      so a cookie written by one version is read by the other. */
  lemma LegacyTokenIsUid(c: Crypto, u: string)
    requires u != ""
    ensures LegacyToken(c, u) == FS.Uid(c, u)
  {
  }

  // =====================================================================
  // Request state transitions

  /** `resetCookie()`: a present cookie is unset and cleared in the browser,
      an hour in the past, `secure` as the blog's scheme says. */
  function ResetCookieSpec(now: int, ssl: bool, g: Globals): (r: Globals)
    ensures r.cookie == None && r.session == g.session && r.authUser == g.authUser
    ensures g.cookie.Some? ==> r.sent == g.sent + [LegacyCookie("", now - 3600, "", ssl)]
    ensures g.cookie.None? ==> r.sent == g.sent
  {
    if g.cookie.Some? then g.(cookie := None, sent := g.sent + [LegacyCookie("", now - 3600, "", ssl)]) else g
  }

  /** `killSession()`: the session is destroyed, then the cookie reset. */
  function KillSessionSpec(now: int, ssl: bool, g: Globals): (r: Globals)
    ensures r.session == NoSession && r.cookie == None && r.authUser == g.authUser
    ensures |r.sent| > |g.sent| && r.sent[|g.sent|] == DestroySession
  {
    ResetCookieSpec(now, ssl, g.(session := NoSession, sent := g.sent + [DestroySession]))
  }

  /** `checkUser` consults the directory only for a user id with a password
      or a key; an empty one still counts. */
  predicate Attempted(userId: Option<string>, pwd: Option<string>, key: Option<string>) {
    userId.Some? && (pwd.Some? || key.Some?)
  }

  /** The credentials and the right on the blog are accepted. */
  predicate Admitted(auth: Auth, u: string, pwd: Option<string>, key: Option<string>) {
    auth.checkUser(u, pwd, key, false) && auth.permitted(u)
  }

  /** An admitted account that is neither pending nor restricted gets a session. */
  predicate Opens(auth: Auth, u: string, pwd: Option<string>, key: Option<string>) {
    Admitted(auth, u, pwd, key) && auth.status(u) != My.USER_PENDING && !auth.isRestricted(auth.status(u))
  }

  /** Where a pending account is sent: the session page's pending action. */
  function PendingUrl(blog: Blog): string {
    SessionUrl(blog) + "/" + My.ACTION_PENDING
  }

  /** `checkUser($user_id, $user_pwd, $user_key, $redir, $remember)`: its
      properties are `CheckUserRules`. */
  function CheckUserSpec(env: Env, eng: Engine, g: Globals, userId: Option<string>, pwd: Option<string>,
                         key: Option<string>, redir: Option<string>, remember: bool): FS.Step
    requires remember && key.Some? ==> g.cookie.Some?
  {
    if !Attempted(userId, pwd, key) then FS.Step(None, g)
    else
      var u := userId.value;
      var ssl := IsSSL(eng.scheme);
      var accepted := env.auth.checkUser(u, pwd, key, false);
      var g1 := if accepted then g.(authUser := Some(u)) else g;
      if accepted && env.auth.permitted(u) && env.auth.status(u) == My.USER_PENDING then
        FS.Step(Some(PendingUrl(env.blog)), FS.Triggered(ResetCookieSpec(env.now, ssl, g1)))
      else
        var g2 := if accepted && env.auth.permitted(u) then OpenSpec(env, ssl, g1, u, key, remember)
                  else ResetCookieSpec(env.now, ssl, g1);
        FS.Step(Some(redir.GetOr(eng.selfUri)), FS.Triggered(g2))
  }

  /** `checkUser` once an admitted account is known not to be pending: a
      restricted one only loses its cookie, any other gets the session and,
      with remember-me, the cookie for 15 days on path '/'. */
  function OpenSpec(env: Env, ssl: bool, g: Globals, u: string, key: Option<string>, remember: bool): Globals
    requires remember && key.Some? ==> g.cookie.Some?
  {
    if env.auth.isRestricted(env.auth.status(u)) then ResetCookieSpec(env.now, ssl, g)
    else
      var g1 := g.(session := SessionVars(Some(u), Some(FS.BrowserUid(env.crypto)), Some(env.blog.id)),
                   sent := g.sent + [StartSession]);
      if remember then
        var value := if key.None? then LegacyToken(env.crypto, u) else g.cookie.value;
        g1.(sent := g1.sent + [LegacyCookie(value, env.now + My.REMEMBER_SECONDS, "/", ssl)])
      else g1
  }

  /** What `checkUser` promises about where the request goes and the session. */
  lemma CheckUserRules(env: Env, eng: Engine, g: Globals, userId: Option<string>, pwd: Option<string>,
                       key: Option<string>, redir: Option<string>, remember: bool, r: FS.Step)
    requires remember && key.Some? ==> g.cookie.Some?
    requires r == CheckUserSpec(env, eng, g, userId, pwd, key, redir, remember)
    // nothing to check: nothing happens
    ensures !Attempted(userId, pwd, key) ==> r == FS.Step(None, g)
    // every attempt ends in a redirect, after the cache trigger
    ensures Attempted(userId, pwd, key) ==>
      && r.exit == Some(if Admitted(env.auth, userId.value, pwd, key) && env.auth.status(userId.value) == My.USER_PENDING
                        then PendingUrl(env.blog) else redir.GetOr(eng.selfUri))
      && |r.g.sent| > 0 && r.g.sent[|r.g.sent| - 1] == TriggerBlog
    // only an account that opens gets the session, bound to this browser and blog
    ensures Attempted(userId, pwd, key) && Opens(env.auth, userId.value, pwd, key) ==>
      && r.g.session == SessionVars(userId, Some(FS.BrowserUid(env.crypto)), Some(env.blog.id))
      && r.g.cookie == g.cookie && r.g.authUser == userId
    ensures !(Attempted(userId, pwd, key) && Opens(env.auth, userId.value, pwd, key)) ==>
      r.g.session == g.session
  {
    if Attempted(userId, pwd, key) {
      var u := userId.value;
      var ssl := IsSSL(eng.scheme);
      var g1 := if env.auth.checkUser(u, pwd, key, false) then g.(authUser := Some(u)) else g;
      var cleared := ResetCookieSpec(env.now, ssl, g1);
      if Admitted(env.auth, u, pwd, key) && env.auth.status(u) == My.USER_PENDING {
        assert r == FS.Step(Some(PendingUrl(env.blog)), FS.Triggered(cleared));
      } else if Admitted(env.auth, u, pwd, key) {
        assert r == FS.Step(Some(redir.GetOr(eng.selfUri)), FS.Triggered(OpenSpec(env, ssl, g1, u, key, remember)));
      } else {
        assert r == FS.Step(Some(redir.GetOr(eng.selfUri)), FS.Triggered(cleared));
      }
    }
  }

  /** What `checkUser` promises about the remember-me cookie. */
  lemma CheckUserCookies(env: Env, eng: Engine, g: Globals, userId: Option<string>, pwd: Option<string>,
                         key: Option<string>, redir: Option<string>, remember: bool, r: FS.Step)
    requires remember && key.Some? ==> g.cookie.Some?
    requires r == CheckUserSpec(env, eng, g, userId, pwd, key, redir, remember)
    // an attempt that does not open a session clears the cookie: refused, pending or restricted alike
    ensures Attempted(userId, pwd, key) && !Opens(env.auth, userId.value, pwd, key) ==>
      && r.g.cookie == None
      && (g.cookie.Some? ==> LegacyCookie("", env.now - 3600, "", IsSSL(eng.scheme)) in r.g.sent)
    // remember me: a fresh token for a password, the presented cookie for a key
    ensures Attempted(userId, pwd, key) && Opens(env.auth, userId.value, pwd, key) && remember ==>
      r.g.sent == g.sent + [StartSession,
                            LegacyCookie(if key.None? then LegacyToken(env.crypto, userId.value) else g.cookie.value,
                                         env.now + My.REMEMBER_SECONDS, "/", IsSSL(eng.scheme)),
                            TriggerBlog]
    ensures Attempted(userId, pwd, key) && Opens(env.auth, userId.value, pwd, key) && !remember ==>
      r.g.sent == g.sent + [StartSession, TriggerBlog]
  {
    if Attempted(userId, pwd, key) {
      var u := userId.value;
      var ssl := IsSSL(eng.scheme);
      var g1 := if env.auth.checkUser(u, pwd, key, false) then g.(authUser := Some(u)) else g;
      var cleared := ResetCookieSpec(env.now, ssl, g1);
      if g.cookie.Some? {
        assert cleared.sent[|g.sent|] == LegacyCookie("", env.now - 3600, "", ssl);
      }
      if Admitted(env.auth, u, pwd, key) && env.auth.status(u) == My.USER_PENDING {
        assert r == FS.Step(Some(PendingUrl(env.blog)), FS.Triggered(cleared));
      } else if Admitted(env.auth, u, pwd, key) {
        assert r == FS.Step(Some(redir.GetOr(eng.selfUri)), FS.Triggered(OpenSpec(env, ssl, g1, u, key, remember)));
      } else {
        assert r == FS.Step(Some(redir.GetOr(eng.selfUri)), FS.Triggered(cleared));
      }
    }
  }

  /** The older helper sends a disabled account back where it came from,
      without a session, where the current one redirects it to the
      session page's "disabled" state. */
  lemma RestrictedAccountsDiffer(env: Env, eng: Engine, g: Globals, u: string, pwd: string, redir: Option<string>)
    requires pwd != "" && env.auth.checkUser(u, Some(pwd), None, false) && env.auth.permitted(u)
    requires env.auth.status(u) != My.USER_PENDING && env.auth.isRestricted(env.auth.status(u))
    ensures var old_ := CheckUserSpec(env, eng, g, Some(u), Some(pwd), None, redir, false);
      old_.exit == Some(redir.GetOr(eng.selfUri)) && old_.g.session == g.session
    ensures FS.CheckSpec(env, g, Some(u), Some(pwd), None, false).outcome
         == FS.Redirected(FS.SessionRedirect(env.blog, My.ACTION_SIGNIN, My.STATE_DISABLED))
  {
    var r := CheckUserSpec(env, eng, g, Some(u), Some(pwd), None, redir, false);
    CheckUserRules(env, eng, g, Some(u), Some(pwd), None, redir, false, r);
  }

  /** An empty password is refused by the current helper before the
      directory is asked; the older one asks it, and ends in a redirect. */
  lemma EmptyPasswordsDiffer(env: Env, eng: Engine, g: Globals, u: string, redir: Option<string>)
    ensures CheckUserSpec(env, eng, g, Some(u), Some(""), None, redir, false).exit.Some?
    ensures FS.CheckSpec(env, g, Some(u), Some(""), None, false) == FS.Checked(FS.Refused, g)
  {
    var r := CheckUserSpec(env, eng, g, Some(u), Some(""), None, redir, false);
    CheckUserRules(env, eng, g, Some(u), Some(""), None, redir, false, r);
  }

  /** `checkCookie()`: with no session user and a 104-character cookie, the
      cookie is checked as a key login with remember-me. */
  function CheckCookieSpec(env: Env, eng: Engine, g: Globals, redir: Option<string>): FS.Step {
    if g.session.userId.None? && g.cookie.Some? && |g.cookie.value| == 104 then
      var cred := FS.ParseRememberCookie(g.cookie.value).value;
      CheckUserSpec(env, eng, g, cred.userId, None, cred.key, redir, true)
    else FS.Step(None, g)
  }

  /** The cookie is looked at only when there is no session user and it is
      exactly 104 characters long, and then the request always ends in a
      redirect. */
  lemma CheckCookieRules(env: Env, eng: Engine, g: Globals, redir: Option<string>, r: FS.Step)
    requires r == CheckCookieSpec(env, eng, g, redir)
    ensures r.exit.Some? <==> g.session.userId.None? && g.cookie.Some? && |g.cookie.value| == 104
    ensures r.exit.None? ==> r == FS.Step(None, g)
    ensures r.exit.Some? ==>
      var cred := FS.ParseRememberCookie(g.cookie.value).value;
      r.exit == Some(if Admitted(env.auth, cred.userId.value, None, cred.key)
                        && env.auth.status(cred.userId.value) == My.USER_PENDING
                     then PendingUrl(env.blog) else redir.GetOr(eng.selfUri))
  {
    if g.session.userId.None? && g.cookie.Some? && |g.cookie.value| == 104 {
      var cred := FS.ParseRememberCookie(g.cookie.value).value;
      CheckUserRules(env, eng, g, cred.userId, None, cred.key, redir, true, r);
    }
  }

  /** `startSession()`: with an existing session, a failed session check
      clears the engine's cookie and goes home; then a stored blog id other
      than this blog's is dropped, and without it, or without the right on
      the blog, the session is killed and the visitor sent home. */
  function StartSessionSpec(env: Env, eng: Engine, g: Globals): FS.Step {
    if !eng.sessionExists then FS.Step(None, g)
    else if eng.checkSession == Some(false) then
      FS.Step(Some(env.blog.url), FS.Triggered(g.(sent := g.sent + [SessionCookieCleared])))
    else
      var sv := g.session;
      var g1 :=
        if sv.blogId.None? then g.(session := sv.(blogId := Some(env.blog.id)))
        else if sv.blogId != Some(env.blog.id) then g.(session := sv.(blogId := None))
        else g;
      if g1.session.blogId.None? || !Permitted(env.auth, g1.authUser) then
        FS.Step(Some(env.blog.url), FS.Triggered(KillSessionSpec(env.now, IsSSL(eng.scheme), g1)))
      else FS.Step(None, g1)
  }

  /** What survives `startSession` is a session on this blog for a user with
      the right; a session of another blog is killed, whoever holds it. */
  lemma StartSessionRules(env: Env, eng: Engine, g: Globals, r: FS.Step)
    requires r == StartSessionSpec(env, eng, g)
    ensures !eng.sessionExists ==> r == FS.Step(None, g)
    ensures eng.sessionExists && r.exit.None? ==>
      r.g.session.blogId == Some(env.blog.id) && Permitted(env.auth, r.g.authUser)
      && r.g.session.userId == g.session.userId && r.g.sent == g.sent
    ensures eng.sessionExists && eng.checkSession == Some(false) ==>
      r.exit == Some(env.blog.url) && r.g.session == g.session && SessionCookieCleared in r.g.sent
    ensures eng.sessionExists && eng.checkSession != Some(false)
            && g.session.blogId.Some? && g.session.blogId != Some(env.blog.id) ==>
      r.exit == Some(env.blog.url) && r.g.session == NoSession && r.g.cookie == None
      && DestroySession in r.g.sent
    ensures r.exit.Some? ==> r.exit == Some(env.blog.url)
  {
    if eng.sessionExists && eng.checkSession != Some(false) && g.session.blogId.Some? && g.session.blogId != Some(env.blog.id) {
      var g1 := g.(session := g.session.(blogId := None));
      var k := KillSessionSpec(env.now, IsSSL(eng.scheme), g1);
      assert k.sent[|g1.sent|] == DestroySession;
      assert FS.Triggered(k).sent[|g1.sent|] == DestroySession;
    }
  }

  // =====================================================================
  // The static class

  /** `Session`: its static methods work on the request's `$_SESSION`,
      `$_COOKIE` and response, held here in `g`. */
  class Session {
    var g: Globals
    const env: Env
    const engine: Engine

    constructor (env: Env, engine: Engine, g: Globals)
      ensures this.env == env && this.engine == engine && this.g == g
    {
      this.env := env;
      this.engine := engine;
      this.g := g;
    }

    /** `resetCookie()` */
    method ResetCookie()
      modifies this`g
      ensures g == ResetCookieSpec(env.now, IsSSL(engine.scheme), old(g))
    {
      if g.cookie.Some? {
        g := g.(cookie := None);
        g := g.(sent := g.sent + [LegacyCookie("", env.now - 3600, "", IsSSL(engine.scheme))]);
      }
    }

    /** `killSession()` */
    method KillSession()
      modifies this`g
      ensures g == KillSessionSpec(env.now, IsSSL(engine.scheme), old(g))
    {
      g := g.(session := NoSession, sent := g.sent + [DestroySession]);
      ResetCookie();
    }

    /** `redirect($redir)`: the cache trigger, then `Http::redirect`, which
        ends the request. */
    method Redirect(url: string) returns (exit: Option<string>)
      modifies this`g
      ensures g == FS.Triggered(old(g)) && exit == Some(url)
    {
      g := g.(sent := g.sent + [TriggerBlog]);
      exit := Some(url);
    }

    /** `checkUser($user_id, $user_pwd, $user_key, $redir, $remember)` */
    method CheckUser(userId: Option<string>, pwd: Option<string>, key: Option<string>, redir: Option<string>, remember: bool)
      returns (exit: Option<string>)
      requires remember && key.Some? ==> g.cookie.Some?
      modifies this`g
      ensures FS.Step(exit, g) == CheckUserSpec(env, engine, old(g), userId, pwd, key, redir, remember)
    {
      if userId.Some? && (pwd.Some? || key.Some?) {
        var u := userId.value;
        var accepted := env.auth.checkUser(u, pwd, key, false);
        if accepted {
          g := g.(authUser := Some(u));
        }
        if accepted && env.auth.permitted(u) {
          if env.auth.status(u) == My.USER_PENDING {
            ResetCookie();
            exit := Redirect(SessionUrl(env.blog) + "/" + My.ACTION_PENDING);
            return;
          }
          Open(u, key, remember);
        } else {
          ResetCookie();
        }
        exit := Redirect(redir.GetOr(engine.selfUri));
      } else {
        exit := None;
      }
    }

    /** The part of `checkUser` for an admitted account that is not pending. */
    method Open(u: string, key: Option<string>, remember: bool)
      requires remember && key.Some? ==> g.cookie.Some?
      modifies this`g
      ensures g == OpenSpec(env, IsSSL(engine.scheme), old(g), u, key, remember)
    {
      if env.auth.isRestricted(env.auth.status(u)) {
        ResetCookie();
        return;
      }
      g := g.(sent := g.sent + [Effect.StartSession]);
      g := g.(session := SessionVars(Some(u), Some(FS.BrowserUid(env.crypto)), Some(env.blog.id)));
      if remember {
        var cookie := if key.None? then LegacyToken(env.crypto, u) else g.cookie.value;
        g := g.(sent := g.sent + [LegacyCookie(cookie, env.now + My.REMEMBER_SECONDS, "/", IsSSL(engine.scheme))]);
      }
    }

    /** `checkCookie()`; `redir` is the request's `redir` field. */
    method CheckCookie(redir: Option<string>) returns (exit: Option<string>)
      modifies this`g
      ensures FS.Step(exit, g) == CheckCookieSpec(env, engine, old(g), redir)
    {
      if g.session.userId.None? && g.cookie.Some? && |g.cookie.value| == 104 {
        var cred := FS.ParseRememberCookie(g.cookie.value).value;
        exit := CheckUser(cred.userId, None, cred.key, redir, true);
      } else {
        exit := None;
      }
    }

    /** `startSession()`; it returns `true` whenever it returns. */
    method StartSession() returns (exit: Option<string>)
      modifies this`g
      ensures FS.Step(exit, g) == StartSessionSpec(env, engine, old(g))
    {
      if !engine.sessionExists {
        return None;
      }
      if engine.checkSession == Some(false) {
        g := g.(sent := g.sent + [SessionCookieCleared]);
        exit := Redirect(env.blog.url);
        return;
      }
      if g.session.blogId.None? {
        g := g.(session := g.session.(blogId := Some(env.blog.id)));
      } else if g.session.blogId != Some(env.blog.id) {
        g := g.(session := g.session.(blogId := None));
      }
      if g.session.blogId.None? || !Permitted(env.auth, g.authUser) {
        KillSession();
        exit := Redirect(env.blog.url);
        return;
      }
      return None;
    }
  }
}
