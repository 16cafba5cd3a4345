/** The session page's handler of the older version of the plugin
    (src/UrlHandler.php), modelled as it is written: the action comes from
    the URL or the form, sign in and sign out go through the older session
    helper, sign up collects its messages in a local list and the values that
    passed their checks in local variables, and the page is served only for
    the "dotty" template set. */
module UrlHandler {
  import opened Php
  import opened Host
  import opened Request
  import opened Texts
  import FU = FrontendUrl
  import LS = LegacySession
  import FS = FrontendSession
  import Mail
  import My

  /** The request fields the handler reads, each `<id><name>`. */
  datatype FormKey =
    | ActionField | Login | Password | Remember
    | UserLogin | UserFirstname | UserName | UserEmail | UserEsecond | UserPwd | UserPsecond

  /** `$_POST` */
  type Post = map<FormKey, string>

  /** `$_POST[$key] ?? $default` */
  function PostOr(post: Post, key: FormKey, default: string): string {
    if key in post then post[key] else default
  }

  /** `$_POST[$key] ?? null` */
  function PostOpt(post: Post, key: FormKey): Option<string> {
    if key in post then Some(post[key]) else None
  }

  /** The blog and its services, as the handler consults them. */
  datatype Site = Site(
    /** the `active` setting */
    active: bool,
    /** the `tplset` of the blog's theme */
    tplset: string,
    /** `system->lang` */
    lang: string,
    /** `Text::isEmail()` */
    isEmail: string -> bool,
    users: Users,
    /** `My::settings()->get($state)`: the message shown for a session state */
    stateMessage: string -> string,
    /** `setUserPermissions($login, ...)` returns (false: it throws) */
    grantPermission: (string, string) -> bool,
    /** mail settings and the locale's texts */
    mailer: Mail.Mailer,
    /** whether the mail transport's `sendMail` returns for a message (false: it throws) */
    transport: Mail.Message -> bool)

  /** How a request ends: `p404`, `Http::redirect`, the served page with
      the `form_error` context value, or nothing at all (a sign in that
      checked nothing leaves the switch without serving a page). */
  datatype Response =
    | NotFound
    | Redirect(url: string)
    | Served(formError: Option<string>)
    | Blank

  function Tr(site: Site, t: Text): string {
    site.mailer.tr(t)
  }

  // =====================================================================
  // Request parsing

  /** The action: the first '/'-segment of the URL part after its first
      character, replaced by the form's action field when that is not
      `empty()`. */
  function ActionOf(args: Option<string>, post: Post): (a: string)
    ensures ActionField in post && !Empty(post[ActionField]) ==> a == post[ActionField]
    ensures !(ActionField in post && !Empty(post[ActionField])) && args.None? ==> a == ""
    ensures !(ActionField in post && !Empty(post[ActionField])) && args.Some? ==>
      a == Explode('/', if args.value == "" then "" else args.value[1..])[0]
  {
    var fromUrl := if args.None? then "" else Explode('/', if args.value == "" then "" else args.value[1..])[0];
    if ActionField in post && !Empty(post[ActionField]) then post[ActionField] else fromUrl
  }

  /** A URL part `/<action>/…` gives its action back when nothing is POSTed. */
  lemma ActionFromPath(parts: seq<string>)
    requires |parts| >= 1 && forall i :: 0 <= i < |parts| ==> '/' !in parts[i]
    ensures ActionOf(Some("/" + Implode("/", parts)), map[]) == parts[0]
  {
    var args := "/" + Implode("/", parts);
    assert args[1..] == Implode("/", parts);
    ExplodeImplode('/', parts);
  }

  // =====================================================================
  // Sign up

  /** The sign-up checks, in order: the login, the e-mail, the password,
      each group adding at most one message. */
  function SignupErrors(users: Users, isEmail: string -> bool, login: string,
                        email: string, esecond: string, pwd: string, psecond: string): (errs: seq<Text>)
    ensures |errs| <= 3
    ensures errs == [] <==>
      FU.ValidLogin(login) && !users.known(login) && email == esecond && isEmail(email) && pwd == psecond && |pwd| >= 6
    ensures UsernameNotValid in errs <==> !FU.ValidLogin(login)
    ensures UsernameNotAvailable in errs <==> FU.ValidLogin(login) && users.known(login)
    ensures EmailsMismatch in errs <==> email != esecond
    ensures EmailNotValid in errs <==> email == esecond && !isEmail(email)
    ensures PasswordsMismatchSignup in errs <==> pwd != psecond
    ensures PasswordTooShortSignup in errs <==> pwd == psecond && |pwd| < 6
  {
    var loginErr := LoginErrors(users, login);
    var emailErr := EmailErrors(isEmail, email, esecond);
    var pwdErr := PasswordErrors(pwd, psecond);
    FU.InFour(loginErr, emailErr, pwdErr, []);
    assert loginErr + emailErr + pwdErr + [] == loginErr + emailErr + pwdErr;
    loginErr + emailErr + pwdErr
  }

  function LoginErrors(users: Users, login: string): seq<Text> {
    if !FU.ValidLogin(login) then [UsernameNotValid]
    else if users.known(login) then [UsernameNotAvailable] else []
  }

  function EmailErrors(isEmail: string -> bool, email: string, esecond: string): seq<Text> {
    if email != esecond then [EmailsMismatch]
    else if !isEmail(email) then [EmailNotValid] else []
  }

  function PasswordErrors(pwd: string, psecond: string): seq<Text> {
    if pwd != psecond then [PasswordsMismatchSignup]
    else if |pwd| < 6 then [PasswordTooShortSignup] else []
  }

  /** The current handler checks the same three groups with the same
      messages, then adds "Username already exists." for a known login;
      the older one stops after the three groups. */
  lemma SignupErrorsAgainstCurrent(users: Users, isEmail: string -> bool, login: string,
                                   email: string, esecond: string, pwd: string, psecond: string)
    ensures FU.SignupErrors(users, isEmail, login, email, esecond, pwd, psecond)
         == SignupErrors(users, isEmail, login, email, esecond, pwd, psecond)
            + (if users.known(login) then [UsernameExists] else [])
  {
  }

  /** The older registration mails: the user's, then one per administrator
      entry, with the blog's id where the current ones name the blog. */
  function UserBody(m: Mail.Mailer, blog: Blog, userId: string, pwd: string): string {
    m.tr(LegacyThanksForRegistrationOn(blog.id)) + "\n\n"
    + m.tr(LegacyYourLogin(userId)) + "\n"
    + m.tr(LegacyYourPassword(pwd)) + "\n\n"
    + m.tr(ReviewBeforeActivation) + "\n"
    + m.tr(EmailWhenReady) + "\n"
  }

  /** The back office link: `http_build_query` of the pending status, the
      id and the blog (the URL-encoding of the values is not modelled). */
  function PendingUsersLink(m: Mail.Mailer, blog: Blog, userId: string): string {
    m.adminUrl + "?status=" + IntToString(My.USER_PENDING) + "&q=" + userId + "&switchblog=" + blog.id
  }

  function AdminBody(m: Mail.Mailer, blog: Blog, userId: string, email: string): string {
    m.tr(LegacyRegistrationMadeOn(blog.id)) + "\n\n"
    + m.tr(LegacyUserLogin(userId)) + "\n"
    + m.tr(LegacyUserEmail(email)) + "\n"
    + m.tr(ReviewUserAccount) + "\n"
    + PendingUsersLink(m, blog, userId) + "\n"
  }

  /** Everything `sendRegistrationMail` sends. */
  function RegistrationMails(m: Mail.Mailer, blog: Blog, userId: string, pwd: string, email: string): seq<Mail.Message> {
    Mail.MailTo(m, blog, email, m.tr(ConfirmationOfRegistration), UserBody(m, blog, userId, pwd))
    + Mail.MailsTo(m, blog, Mail.AdminRecipients(Explode(',', m.emailRegistration)),
                   m.tr(NewUserRegistration), AdminBody(m, blog, userId, email))
  }

  /** Who the registration mails go to: the user first, then the trimmed
      non-empty administrator entries, in order; nothing without a sender. */
  lemma RegistrationRecipients(m: Mail.Mailer, blog: Blog, userId: string, pwd: string, email: string)
    ensures var sent := RegistrationMails(m, blog, userId, pwd, email);
      var admins := Mail.AdminRecipients(Explode(',', m.emailRegistration));
      && (Empty(m.emailFrom) ==> sent == [])
      && (!Empty(m.emailFrom) ==>
            && |sent| == 1 + |admins| && sent[0].to == email
            && forall i :: 1 <= i < |sent| ==> sent[i].to == admins[i - 1])
  {
    var admins := Mail.AdminRecipients(Explode(',', m.emailRegistration));
    if !Empty(m.emailFrom) {
      Mail.FirstThenEach(Mail.MailTo(m, blog, email, m.tr(ConfirmationOfRegistration), UserBody(m, blog, userId, pwd)),
                         Mail.MailsTo(m, blog, admins, m.tr(NewUserRegistration), AdminBody(m, blog, userId, email)),
                         email, admins);
    }
  }

  /** `sendRegistrationMail($user_id, $user_pwd, $user_email)` */
  method SendRegistrationMail(m: Mail.Mailer, blog: Blog, userId: string, pwd: string, email: string)
    returns (sent: seq<Mail.Message>)
    ensures sent == RegistrationMails(m, blog, userId, pwd, email)
  {
    sent := Mail.MailTo(m, blog, email, m.tr(ConfirmationOfRegistration), UserBody(m, blog, userId, pwd));
    var admins := Mail.NotifyAdmins(m, blog, Explode(',', m.emailRegistration),
                                    m.tr(NewUserRegistration), AdminBody(m, blog, userId, email));
    sent := sent + admins;
  }

  /** The account a valid sign-up form asks for: pending, in the blog's language. */
  function Applicant(site: Site, post: Post): NewUser {
    NewUser(PostOr(post, UserLogin, ""), PostOr(post, UserName, ""), PostOr(post, UserFirstname, ""),
            PostOr(post, UserEmail, ""), PostOr(post, UserPwd, ""), My.USER_PENDING, site.lang)
  }

  function FormErrors(site: Site, post: Post): seq<Text> {
    SignupErrors(site.users, site.isEmail, PostOr(post, UserLogin, ""),
                 PostOr(post, UserEmail, ""), PostOr(post, UserEsecond, ""),
                 PostOr(post, UserPwd, ""), PostOr(post, UserPsecond, ""))
  }

  /** What a sign-up does: the `form_error` it leaves (`None`: untouched),
      the directory calls and the mails. */
  datatype Registration = Registration(formError: Option<string>, calls: seq<FU.Call>, mails: seq<Mail.Message>)

  /** The messages of the list, translated, joined with " \n". */
  function Joined(site: Site, errs: seq<Text>): string {
    Implode(" \n", seq(|errs|, i requires 0 <= i < |errs| => Tr(site, errs[i])))
  }

  /** `signup`: nothing without a login; otherwise the messages joined with
      " \n", or the account created, the permission granted and the mails
      sent, with the thanks as the form's message. The thanks are set
      before the mails: a permission or a transport that throws replaces
      them with the generic message. */
  function SignUpSpec(site: Site, blog: Blog, post: Post): Registration {
    if EmptyOpt(PostOpt(post, UserLogin)) then Registration(None, [], [])
    else
      var errs := FormErrors(site, post);
      if errs != [] then Registration(Some(Joined(site, errs)), [], [])
      else
        var user := Applicant(site, post);
        if site.users.addUser(user) != Some(user.id) then
          Registration(Some(Joined(site, [RegistrationFailed])), [FU.AddUser(user)], [])
        else if !site.grantPermission(user.id, blog.id) then
          Registration(Some(Joined(site, [RegistrationFailed])), [FU.AddUser(user), FU.GrantPermission(user.id, blog.id)], [])
        else
          var t := Mail.Transmit(site.transport, RegistrationMails(site.mailer, blog, user.id, user.pwd, user.email));
          Registration(Some(if t.ok then Tr(site, RegistrationThanks) else Joined(site, [RegistrationFailed])),
                       [FU.AddUser(user), FU.GrantPermission(user.id, blog.id)], t.handed)
  }

  lemma SignUpRules(site: Site, blog: Blog, post: Post, r: Registration)
    requires r == SignUpSpec(site, blog, post)
    ensures EmptyOpt(PostOpt(post, UserLogin)) ==> r == Registration(None, [], [])
    // an account is asked for only when no check failed, pending, with the posted values
    ensures r.calls != [] <==> !EmptyOpt(PostOpt(post, UserLogin)) && FormErrors(site, post) == []
    ensures r.calls != [] ==>
      && r.calls[0] == FU.AddUser(NewUser(post[UserLogin], PostOr(post, UserName, ""), PostOr(post, UserFirstname, ""),
                                          PostOr(post, UserEmail, ""), PostOr(post, UserPwd, ""), My.USER_PENDING, site.lang))
      && FU.ValidLogin(post[UserLogin]) && site.isEmail(PostOr(post, UserEmail, "")) && |PostOr(post, UserPwd, "")| >= 6
    // a failed check: its messages, joined, and nothing else
    ensures !EmptyOpt(PostOpt(post, UserLogin)) && FormErrors(site, post) != [] ==>
      r == Registration(Some(Joined(site, FormErrors(site, post))), [], [])
    // mails only for an account the directory created and granted
    ensures r.mails != [] ==>
      && site.users.addUser(Applicant(site, post)) == Some(post[UserLogin])
      && site.grantPermission(post[UserLogin], blog.id)
      && r.calls == [FU.AddUser(Applicant(site, post)), FU.GrantPermission(post[UserLogin], blog.id)]
    // once created: the thanks exactly when the permission and every mail went through
    ensures r.calls != [] && site.users.addUser(Applicant(site, post)) == Some(post[UserLogin]) ==>
      var login := post[UserLogin];
      var t := Mail.Transmit(site.transport, RegistrationMails(site.mailer, blog, login, PostOr(post, UserPwd, ""),
                                                               PostOr(post, UserEmail, "")));
      && r.calls == [FU.AddUser(Applicant(site, post)), FU.GrantPermission(login, blog.id)]
      && (!site.grantPermission(login, blog.id) ==> r.mails == [] && r.formError == Some(Joined(site, [RegistrationFailed])))
      && (site.grantPermission(login, blog.id) ==>
            && r.mails == t.handed
            && r.formError == Some(if t.ok then Tr(site, RegistrationThanks) else Joined(site, [RegistrationFailed])))
  {
  }

  // =====================================================================
  // The handler

  /** The template set decides: only "dotty" is served. */
  function Serve(site: Site, formError: Option<string>): (r: Response)
    ensures r.Served? <==> site.tplset == "dotty"
    ensures r.Served? ==> r.formError == formError
  {
    if site.tplset != "dotty" then NotFound else Served(formError)
  }

  /** The frontend context's session fields, the directory calls and the
      mails of the request. */
  class Handler {
    var sessionState: string
    var sessionMessage: string
    var formError: Option<string>
    var calls: seq<FU.Call>
    var outbox: seq<Mail.Message>
    const site: Site

    constructor (site: Site)
      ensures this.site == site && calls == [] && outbox == [] && formError == None
    {
      this.site := site;
      sessionState := "";
      sessionMessage := "";
      formError := None;
      calls := [];
      outbox := [];
    }

    /** `sessionSign($args)`: `redir` is the request's `redir` field. */
    method SessionSign(s: LS.Session, args: Option<string>, post: Post, redir: Option<string>) returns (r: Response)
      modifies this, s
      ensures !site.active ==> r == NotFound && s.g == old(s.g) && calls == old(calls) && outbox == old(outbox)
      ensures site.active ==>
        var action := ActionOf(args, post);
        var anonymous := FU.Anonymous(old(s.g));
        var state := if anonymous then My.SESSION_DISCONNECTED else My.SESSION_CONNECTED;
        // the form error is reset before the switch
        && (action != My.ACTION_SIGNUP && !(action == My.ACTION_PENDING && anonymous) ==> formError == None)
        && (action == My.ACTION_SIGNOUT || action == My.ACTION_SIGNIN ==> calls == old(calls) && outbox == old(outbox))
        && (action == My.ACTION_SIGNOUT ==>
              && r == Redirect(s.env.blog.url)
              && s.g == FS.Triggered(LS.KillSessionSpec(s.env.now, LS.IsSSL(s.engine.scheme), old(s.g))))
        && (action == My.ACTION_SIGNIN ==>
              var st := LS.CheckUserSpec(s.env, s.engine, old(s.g), PostOpt(post, Login), PostOpt(post, Password), None,
                                         redir, !EmptyOpt(PostOpt(post, Remember)));
              && s.g == st.g && r == (if st.exit.Some? then Redirect(st.exit.value) else Blank))
        && (action == My.ACTION_SIGNUP ==>
              var su := SignUpSpec(site, s.env.blog, post);
              && r == Serve(site, su.formError) && formError == su.formError
              && calls == old(calls) + su.calls && outbox == old(outbox) + su.mails && s.g == old(s.g))
        && (action == My.ACTION_PENDING && anonymous ==>
              && r == Serve(site, Some(Tr(site, AccountNotYetActivated))) && formError == Some(Tr(site, AccountNotYetActivated))
              && sessionState == My.SESSION_PENDING && sessionMessage == site.stateMessage(My.SESSION_PENDING))
        && (action == My.ACTION_PENDING && !anonymous ==> r == Serve(site, None))
        && (action !in {My.ACTION_SIGNOUT, My.ACTION_SIGNIN, My.ACTION_SIGNUP} ==>
              && s.g == old(s.g) && calls == old(calls) && outbox == old(outbox))
        && (action !in {My.ACTION_SIGNOUT, My.ACTION_SIGNIN, My.ACTION_SIGNUP, My.ACTION_PENDING} ==>
              r == Serve(site, None))
        && (action != My.ACTION_PENDING || !anonymous ==>
              sessionState == state && sessionMessage == site.stateMessage(state))
    {
      if !site.active {
        return NotFound;
      }
      var action := ActionOf(args, post);
      var anonymous := FU.Anonymous(s.g);
      sessionState := if anonymous then My.SESSION_DISCONNECTED else My.SESSION_CONNECTED;
      sessionMessage := site.stateMessage(sessionState);
      formError := None;
      if action == My.ACTION_SIGNOUT {
        s.KillSession();
        var exit := s.Redirect(s.env.blog.url);
        return Redirect(exit.value);
      } else if action == My.ACTION_SIGNIN {
        var exit := s.CheckUser(PostOpt(post, Login), PostOpt(post, Password), None, redir, !EmptyOpt(PostOpt(post, Remember)));
        return if exit.Some? then Redirect(exit.value) else Blank;
      } else if action == My.ACTION_SIGNUP {
        SignUp(s.env.blog, post);
      } else if action == My.ACTION_PENDING {
        if anonymous {
          formError := Some(Tr(site, AccountNotYetActivated));
          sessionState := My.SESSION_PENDING;
          sessionMessage := site.stateMessage(My.SESSION_PENDING);
        }
      }
      return Serve(site, formError);
    }

    /** The `signup` branch: the account is created only when the message
        list stayed empty. */
    method SignUp(blog: Blog, post: Post)
      modifies this`formError, this`calls, this`outbox
      ensures var su := SignUpSpec(site, blog, post);
        && formError == (if su.formError.Some? then su.formError else old(formError))
        && calls == old(calls) + su.calls && outbox == old(outbox) + su.mails
    {
      if EmptyOpt(PostOpt(post, UserLogin)) {
        return;
      }
      var err, userId, firstname, name, email, pwd := Validate(post);
      if err == [] {
        var user := NewUser(userId, name, firstname, email, pwd, My.USER_PENDING, site.lang);
        assert user == Applicant(site, post);
        var added := site.users.addUser(user);
        if added != Some(userId) {
          calls := calls + [FU.AddUser(user)];
          err := err + [RegistrationFailed];
        } else {
          calls := calls + [FU.AddUser(user), FU.GrantPermission(userId, blog.id)];
          if !site.grantPermission(userId, blog.id) {
            err := err + [RegistrationFailed];
          } else {
            formError := Some(Tr(site, RegistrationThanks));
            var t := Mail.Transmit(site.transport, RegistrationMails(site.mailer, blog, userId, pwd, email));
            outbox := outbox + t.handed;
            if !t.ok {
              err := err + [RegistrationFailed];
            }
          }
        }
      }
      if err != [] {
        formError := Some(Joined(site, err));
      }
    }

    /** The checks of `signup`: the messages go to a local list, and each
        group's value is captured only in the branch where the group passed. */
    method Validate(post: Post) returns (err: seq<Text>, userId: string, firstname: string, name: string, email: string, pwd: string)
      requires UserLogin in post
      ensures err == FormErrors(site, post)
      ensures err == [] ==> NewUser(userId, name, firstname, email, pwd, My.USER_PENDING, site.lang) == Applicant(site, post)
    {
      err := [];
      userId, email, pwd := "", "", "";
      var login := post[UserLogin];
      if !FU.ValidLogin(login) {
        err := err + [UsernameNotValid];
      } else if site.users.known(login) {
        err := err + [UsernameNotAvailable];
      } else {
        userId := login;
      }
      assert err == LoginErrors(site.users, login);
      firstname := PostOr(post, UserFirstname, "");
      name := PostOr(post, UserName, "");
      var mail := PostOr(post, UserEmail, "");
      if mail != PostOr(post, UserEsecond, "") {
        err := err + [EmailsMismatch];
      } else if !site.isEmail(mail) {
        err := err + [EmailNotValid];
      } else {
        email := mail;
      }
      assert err == LoginErrors(site.users, login) + EmailErrors(site.isEmail, mail, PostOr(post, UserEsecond, ""));
      var password := PostOr(post, UserPwd, "");
      if password != PostOr(post, UserPsecond, "") {
        err := err + [PasswordsMismatchSignup];
      } else if |password| < 6 {
        err := err + [PasswordTooShortSignup];
      } else {
        pwd := password;
      }
    }
  }
}
