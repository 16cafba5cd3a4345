/** The back office hooks of the plugin (src/Backend.php): the blog
    settings it stores, the editor and menu registrations, the bulk
    "mark as pending" action on users and the activation mail sent when an
    administrator enables a pending account. */
module Backend {
  import opened Php
  import opened Host
  import opened Texts
  import Mail
  import My

  // =====================================================================
  // adminBeforeBlogSettingsUpdate
  // =====================================================================

  /** The plugin's blog settings; the form field of each is the plugin id
      followed by its name. `Other` is any other setting of the plugin's
      namespace (`limit_comment`, `enable_recovery`, `disable_css`, ...),
      which the settings form does not write. */
  datatype SettingName = Active | ActiveRegistration | EmailRegistration | EmailFrom | Connected | Disconnected | PendingText
                       | Other(name: string)

  /** A stored setting value. */
  datatype Value = Bool(b: bool) | Str(s: string) | Null

  /** The POSTed blog preferences form. */
  type Form = map<SettingName, string>

  /** `!empty($_POST[$k])` */
  predicate Checked(post: Form, k: SettingName) {
    k in post && !Empty(post[k])
  }

  /** `(string) $_POST[$k]`: a missing field is `null`, cast to ''. */
  function Posted(post: Form, k: SettingName): string {
    if k in post then post[k] else ""
  }

  /** `$_POST[$k]` as is. */
  function Raw(post: Form, k: SettingName): Value {
    if k in post then Str(post[k]) else Null
  }

  /** The plugin's settings namespace of the blog. */
  class BlogSettings {
    var stored: map<SettingName, Value>

    constructor(initial: map<SettingName, Value>)
      ensures stored == initial
    {
      stored := initial;
    }

    /** `put($name, $value)` */
    method Put(name: SettingName, v: Value)
      modifies this
      ensures stored == old(stored)[name := v]
    {
      stored := stored[name := v];
    }
  }

  /** The settings once the form is stored over `base`: the two switches
      as booleans, the two mail addresses as strings, the three page texts
      as posted. */
  function Stored(base: map<SettingName, Value>, post: Form): map<SettingName, Value> {
    base[Active := Bool(Checked(post, Active))]
        [ActiveRegistration := Bool(Checked(post, ActiveRegistration))]
        [EmailRegistration := Str(Posted(post, EmailRegistration))]
        [EmailFrom := Str(Posted(post, EmailFrom))]
        [Connected := Raw(post, Connected)]
        [Disconnected := Raw(post, Disconnected)]
        [PendingText := Raw(post, PendingText)]
  }

  /** Every setting of the form is written, whatever was stored before,
      and every other setting of the namespace is left as it was; a switch
      is on exactly when its field was posted and is not `empty()` (an
      unticked box posts nothing, "0" is off); a missing address is stored
      as ''. */
  lemma StoredRules(base: map<SettingName, Value>, post: Form, k: SettingName)
    ensures !k.Other? ==> k in Stored(base, post) && k in Stored(map[], post)
                          && Stored(base, post)[k] == Stored(map[], post)[k]
    ensures k.Other? ==> (k in Stored(base, post) <==> k in base)
                         && (k in base ==> Stored(base, post)[k] == base[k])
    ensures Stored(base, post)[Active] == Bool(true) <==> Active in post && post[Active] != "" && post[Active] != "0"
    ensures Stored(base, post)[ActiveRegistration].b <==> Checked(post, ActiveRegistration)
    ensures EmailFrom !in post ==> Stored(base, post)[EmailFrom] == Str("")
    ensures k in post && !k.Other? && k != Active && k != ActiveRegistration ==> Stored(base, post)[k] == Str(post[k])
  {
    match k {
      case Active =>
      case ActiveRegistration =>
      case EmailRegistration =>
      case EmailFrom =>
      case Connected =>
      case Disconnected =>
      case PendingText =>
      case Other(_) =>
    }
  }

  /** `adminBeforeBlogSettingsUpdate($blog_settings)` */
  method BeforeBlogSettingsUpdate(settings: BlogSettings, post: Form)
    modifies settings
    ensures settings.stored == Stored(old(settings.stored), post)
  {
    settings.Put(Active, Bool(Checked(post, Active)));
    settings.Put(ActiveRegistration, Bool(Checked(post, ActiveRegistration)));
    settings.Put(EmailRegistration, Str(Posted(post, EmailRegistration)));
    settings.Put(EmailFrom, Str(Posted(post, EmailFrom)));
    settings.Put(Connected, Raw(post, Connected));
    settings.Put(Disconnected, Raw(post, Disconnected));
    settings.Put(PendingText, Raw(post, PendingText));
  }

  // =====================================================================
  // adminPostEditorTags, adminSimpleMenuAddType
  // =====================================================================

  /** The three text areas of the settings form, as editor selectors. */
  const EditorIds: seq<string> := ["#" + My.Id + "connected", "#" + My.Id + "disconnected", "#" + My.Id + "pending"]

  /** `adminPostEditorTags(…, $context, $alt_tags, …)`: the text areas are
      handed to the editor of the blog description only. */
  function EditorTags(context: string, altTags: seq<string>): (r: seq<string>)
    ensures |r| >= |altTags| && r[..|altTags|] == altTags
    ensures context == "blog_desc" <==> |r| == |altTags| + 3
    ensures context == "blog_desc" ==> r[|altTags|..] == EditorIds
  {
    if context == "blog_desc" then altTags + EditorIds else altTags
  }

  /** A simple menu type: its label and whether it takes a parameter. */
  datatype MenuType = MenuType(title: string, param: bool)

  /** `adminSimpleMenuAddType($items)`: the public login page is offered
      while the plugin is active, under the plugin's id. */
  function MenuTypes(active: bool, tr: Translation, items: map<string, MenuType>): (r: map<string, MenuType>)
    ensures active ==> r == items[My.Id := MenuType(tr(PublicLoginPage), false)]
    ensures !active ==> r == items
    ensures forall k :: k in items && k != My.Id ==> k in r && r[k] == items[k]
  {
    if active then items[My.Id := MenuType(tr(PublicLoginPage), false)] else items
  }

  // =====================================================================
  // adminUsersActions
  // =====================================================================

  /** The `updUser` calls of the bulk action: every listed user, set to
      `USER_PENDING`. */
  function MarkCalls(ids: seq<string>): (calls: seq<(string, Update)>)
    ensures |calls| == |ids|
    ensures forall i :: 0 <= i < |ids| ==> calls[i] == (ids[i], SetStatus(My.USER_PENDING))
  {
    seq(|ids|, i requires 0 <= i < |ids| => (ids[i], SetStatus(My.USER_PENDING)))
  }

  /** The messages of the `updUser` calls that throw, in order. */
  function MarkErrors(users: Users, ids: seq<string>): (errs: seq<string>)
    ensures |errs| <= |ids|
    // every recorded message is the failure of one of the listed updates
    ensures forall m :: m in errs ==> exists k :: 0 <= k < |ids| && users.update(ids[k], SetStatus(My.USER_PENDING)) == Some(m)
    decreases |ids|
  {
    if ids == [] then []
    else
      var last := ids[|ids| - 1];
      MarkErrors(users, ids[..|ids| - 1])
      + (match users.update(last, SetStatus(My.USER_PENDING)) case Some(msg) => [msg] case None => [])
  }

  /** No error is recorded exactly when every update goes through. */
  lemma {:induction false} MarkErrorsNone(users: Users, ids: seq<string>)
    ensures MarkErrors(users, ids) == [] <==> forall i :: 0 <= i < |ids| ==> users.update(ids[i], SetStatus(My.USER_PENDING)).None?
    decreases |ids|
  {
    if ids != [] {
      var init := ids[..|ids| - 1];
      MarkErrorsNone(users, init);
      assert forall i :: 0 <= i < |init| ==> init[i] == ids[i];
    }
  }

  /** A user whose update throws leaves its message, whatever its place
      in the list: the loop goes on after a failure. */
  lemma {:induction false} MarkErrorsKept(users: Users, ids: seq<string>, j: int)
    requires 0 <= j < |ids| && users.update(ids[j], SetStatus(My.USER_PENDING)).Some?
    ensures users.update(ids[j], SetStatus(My.USER_PENDING)).value in MarkErrors(users, ids)
    decreases |ids|
  {
    if j < |ids| - 1 {
      MarkErrorsKept(users, ids[..|ids| - 1], j);
    }
  }

  /** The back office request as the bulk action changes it: the error
      stack (`App::error()`), the success notices, the redirect that ends
      the request, and the `updUser` calls made on the directory. */
  class BackOffice {
    var errors: seq<string>
    var notices: seq<Text>
    var redirect: Option<string>
    var calls: seq<(string, Update)>
    const users: Users

    constructor(users: Users)
      ensures errors == [] && notices == [] && redirect == None && calls == []
      ensures this.users == users
    {
      errors, notices, redirect, calls := [], [], None, [];
      this.users := users;
    }

    /** `updUser($u, $cur)` with `user_status` set to `USER_PENDING`; a
        throw is added to the error stack. */
    method MarkPending(u: string)
      modifies this
      ensures calls == old(calls) + [(u, SetStatus(My.USER_PENDING))]
      ensures errors == old(errors) + (match users.update(u, SetStatus(My.USER_PENDING)) case Some(msg) => [msg] case None => [])
      ensures notices == old(notices) && redirect == old(redirect)
    {
      calls := calls + [(u, SetStatus(My.USER_PENDING))];
      match users.update(u, SetStatus(My.USER_PENDING)) {
        case Some(msg) => errors := errors + [msg];
        case None =>
      }
    }

    /** `adminUsersActions($users, $blogs, $action, $redir)`: only the
        plugin's own action acts; every user is updated, failures are
        recorded and the loop goes on; the notice and the redirect come
        only when the error stack is empty at the end. */
    method UsersActions(ids: seq<string>, action: string, redir: string)
      modifies this
      ensures action != My.Id ==> errors == old(errors) && notices == old(notices) && redirect == old(redirect) && calls == old(calls)
      ensures action == My.Id ==> calls == old(calls) + MarkCalls(ids) && errors == old(errors) + MarkErrors(users, ids)
      ensures action == My.Id && errors == [] ==> notices == old(notices) + [MarkedPending] && redirect == Some(redir)
      ensures action != My.Id || errors != [] ==> notices == old(notices) && redirect == old(redirect)
    {
      if action != My.Id {
        return;
      }
      ghost var errors0, calls0 := errors, calls;
      var i := 0;
      while i < |ids|
        invariant 0 <= i <= |ids|
        invariant calls == calls0 + MarkCalls(ids[..i])
        invariant errors == errors0 + MarkErrors(users, ids[..i])
        invariant notices == old(notices) && redirect == old(redirect)
      {
        assert ids[..i + 1][..i] == ids[..i];
        MarkPending(ids[i]);
        assert MarkCalls(ids[..i + 1]) == MarkCalls(ids[..i]) + [(ids[i], SetStatus(My.USER_PENDING))];
        i := i + 1;
      }
      assert ids[..i] == ids;
      if errors == [] {
        notices := notices + [MarkedPending];
        redirect := Some(redir);
      }
    }
  }

  // =====================================================================
  // The activation mail
  // =====================================================================

  /** Dotclear's `ENABLED` user status. */
  const USER_ENABLED: int := 1

  /** A PHP value handed to a built-in function. */
  datatype Arg = StrArg(s: string) | IntArg(n: int) | BoolArg(b: bool)

  /** What a call of a built-in gives: its string result, or the
      `TypeError` PHP throws under `strict_types` for an argument of the
      wrong type. */
  datatype Call = Returned(s: string) | TypeError

  /** `wordwrap($string, $width = 75, $break = "\n", $cut_long_words = false)`
      under `strict_types`: a string, then an int, a string and a bool.
      The breaking of long lines itself is not modelled: the text comes
      back as is. */
  function Wordwrap(args: seq<Arg>): (r: Call)
    ensures r.Returned? <==> (1 <= |args| <= 4 && args[0].StrArg? && (|args| >= 2 ==> args[1].IntArg?)
                             && (|args| >= 3 ==> args[2].StrArg?) && (|args| == 4 ==> args[3].BoolArg?))
    ensures r.Returned? ==> r.s == args[0].s
  {
    if 1 <= |args| <= 4 && args[0].StrArg? && (|args| >= 2 ==> args[1].IntArg?)
       && (|args| >= 3 ==> args[2].StrArg?) && (|args| == 4 ==> args[3].BoolArg?)
    then Returned(args[0].s)
    else TypeError
  }

  /** The three lines of the activation mail. */
  function Greeting(m: Mail.Mailer, blog: Blog): string {
    m.tr(ThanksDollarS) + "\n\n" + m.tr(AccountActivated) + "\n"
  }

  function SignInLine(m: Mail.Mailer, blog: Blog): string {
    m.tr(SignInAt(SessionUrl(blog))) + "\n"
  }

  /** `mailActivation($user_email)` as written: the sign-in line is passed
      to `wordwrap` as a second argument, the width, and 80 as the line
      break. */
  function MailActivationAsWritten(m: Mail.Mailer, blog: Blog, email: string): Call {
    Wordwrap([StrArg(Greeting(m, blog)), StrArg(SignInLine(m, blog)), IntArg(80)])
  }

  /** As written, the activation mail is never sent: whatever the blog,
      its texts and the address, building the body throws. */
  lemma MailActivationAsWrittenThrows(m: Mail.Mailer, blog: Blog, email: string)
    ensures MailActivationAsWritten(m, blog, email) == TypeError
  {
    assert [StrArg(Greeting(m, blog)), StrArg(SignInLine(m, blog)), IntArg(80)][1].StrArg?;
  }

  /** `mailActivation($user_email)` as evidently intended, the body being
      the three lines joined and wrapped at 80 (the same body as the
      plugin's `sendActivationMail`). */
  function MailActivation(m: Mail.Mailer, blog: Blog, email: string): (sent: seq<Mail.Message>)
    ensures sent == Mail.ActivationMail(m, blog, email)
  {
    var body := Greeting(m, blog) + SignInLine(m, blog);
    assert body == Greeting(m, blog) + m.tr(SignInAt(SessionUrl(blog))) + "\n";
    assert [StrArg(body), IntArg(80)][1].IntArg?;
    match Wordwrap([StrArg(body), IntArg(80)])
    case Returned(body) => Mail.Sent(Mail.MailSender(m, blog, email, m.tr(ConfirmationOfActivation), body))
    case TypeError => []
  }

  // =====================================================================
  // adminBeforeUserUpdate, adminBeforeUserEnable
  // =====================================================================

  /** The record a user query gives, as far as the hooks read it: whether
      it has a row, and the `user_email` field (`None` when the record
      has no such field, read as `null`). */
  datatype Lookup = Lookup(isEmpty: bool, email: Option<string>)

  /** `getUsers(['user_id' => $id, 'user_status' => USER_PENDING], $count_only)`,
      `pending` being the address of the user when it is a pending
      account: a count query gives its one row, the count, whatever
      matched, and no address. */
  function PendingLookup(pending: Option<string>, countOnly: bool): (l: Lookup)
    ensures countOnly ==> !l.isEmpty && l.email.None?
    ensures !countOnly ==> (l.isEmpty <==> pending.None?) && l.email == pending
  {
    if countOnly then Lookup(false, None)
    else Lookup(pending.None?, pending)
  }

  /** What a hook does: nothing, send mails, or throw. */
  datatype HookOutcome = Quiet | Mailed(sent: seq<Mail.Message>) | Threw

  /** `self::mailActivation($user->user_email)` as written: a `null`
      address is refused by the `string` parameter, otherwise the body is
      built as written and the mail sent. */
  function ActivateAsWritten(m: Mail.Mailer, blog: Blog, email: Option<string>): (r: HookOutcome)
    ensures r == Threw
  {
    if email.None? then Threw
    else
      var to := email.value;
      MailActivationAsWrittenThrows(m, blog, to);
      match MailActivationAsWritten(m, blog, to)
      case Returned(body) => Mailed(Mail.Sent(Mail.MailSender(m, blog, to, m.tr(ConfirmationOfActivation), body)))
      case TypeError => Threw
  }

  /** `adminBeforeUserUpdate($cur, $user_id)` as written: the pending test
      is a count query, which always has its row, so every update that
      sets the enabled status reaches the mail, pending account or not,
      and throws there. */
  function BeforeUserUpdateAsWritten(m: Mail.Mailer, blog: Blog, pending: Option<string>, newStatus: Option<int>): (r: HookOutcome)
    ensures r != Quiet <==> newStatus == Some(USER_ENABLED)
    ensures r == Quiet || r == Threw
  {
    var user := PendingLookup(pending, true);
    if !user.isEmpty && newStatus == Some(USER_ENABLED) then ActivateAsWritten(m, blog, user.email) else Quiet
  }

  /** `adminBeforeUserEnable($user_id)` as written: pending accounts only,
      and the mail throws. */
  function BeforeUserEnableAsWritten(m: Mail.Mailer, blog: Blog, pending: Option<string>): (r: HookOutcome)
    ensures r != Quiet <==> pending.Some?
    ensures r == Quiet || r == Threw
  {
    var user := PendingLookup(pending, false);
    if !user.isEmpty then ActivateAsWritten(m, blog, user.email) else Quiet
  }

  /** As written, enabling an account that is not pending through the
      user form reaches the activation mail exactly as enabling a pending
      one does. */
  lemma {:induction false} UpdateIgnoresPending(m: Mail.Mailer, blog: Blog, email: string)
    ensures BeforeUserUpdateAsWritten(m, blog, None, Some(USER_ENABLED))
         == BeforeUserUpdateAsWritten(m, blog, Some(email), Some(USER_ENABLED)) == Threw
  {
    assert PendingLookup(None, true) == PendingLookup(Some(email), true);
  }

  /** `adminBeforeUserUpdate` as evidently intended: a plain query, so that
      only a pending account being enabled is mailed, at its address, with
      the intended activation mail. */
  function BeforeUserUpdate(m: Mail.Mailer, blog: Blog, pending: Option<string>, newStatus: Option<int>): (sent: seq<Mail.Message>)
    ensures sent != [] ==> pending.Some? && newStatus == Some(USER_ENABLED)
    ensures pending.Some? && newStatus == Some(USER_ENABLED) && !Empty(m.emailFrom) ==>
      |sent| == 1 && sent[0].to == pending.value
  {
    var user := PendingLookup(pending, false);
    if !user.isEmpty && user.email.Some? && newStatus == Some(USER_ENABLED) then MailActivation(m, blog, user.email.value) else []
  }

  /** `adminBeforeUserEnable($user_id)` with the intended mail. */
  function BeforeUserEnable(m: Mail.Mailer, blog: Blog, pending: Option<string>): (sent: seq<Mail.Message>)
    ensures sent != [] ==> pending.Some?
    ensures pending.Some? && !Empty(m.emailFrom) ==> |sent| == 1 && sent[0].to == pending.value
  {
    var user := PendingLookup(pending, false);
    if !user.isEmpty && user.email.Some? then MailActivation(m, blog, user.email.value) else []
  }

  /** With the intended hooks, an account that is not pending, or that
      stays disabled, is never mailed, and a pending account is mailed
      once whichever of the two hooks enables it. */
  lemma ActivationOnlyFromPending(m: Mail.Mailer, blog: Blog, email: string, status: Option<int>)
    ensures BeforeUserUpdate(m, blog, None, status) == [] && BeforeUserEnable(m, blog, None) == []
    ensures status != Some(USER_ENABLED) ==> BeforeUserUpdate(m, blog, Some(email), status) == []
    ensures BeforeUserUpdate(m, blog, Some(email), Some(USER_ENABLED)) == BeforeUserEnable(m, blog, Some(email))
  {
  }
}
