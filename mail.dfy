/** The plugin's mails (src/Mail.php): the `email_from` guard and the subject
    of `mailSender`, the registration mails (the user's, then one per
    administrator address of the comma-separated `email_registration`
    setting), the activation mail, the recovery link and the new-password
    mail. Line breaking by `wordwrap(…, 80)`, the headers and the base64
    header encoding are not modelled. */
module Mail {
  import opened Php
  import opened Host
  import opened Texts
  import My

  /** A mail handed to the transport. */
  datatype Message = Message(to: string, subject: string, body: string)

  /** What the mails are made from: the `email_from` and
      `email_registration` settings, the back office URL
      (`App::config()->adminUrl()`) and the locale's texts. */
  datatype Mailer = Mailer(emailFrom: string, emailRegistration: string, adminUrl: string, tr: Translation)

  /** `mailSender($dest, $subject, $message)` (src/Mail.php and the copy in
      src/My.php): nothing is sent without a sender address; the subject is
      prefixed with the blog's name in brackets. */
  function MailSender(m: Mailer, blog: Blog, dest: string, subject: string, message: string): (r: Option<Message>)
    ensures r.None? <==> Empty(m.emailFrom)
    ensures r.Some? ==> r.value.to == dest && r.value.body == message
    ensures r.Some? ==> r.value.subject == "[" + blog.name + "] " + subject
  {
    if Empty(m.emailFrom) then None
    else Some(Message(dest, "[" + blog.name + "] " + subject, message))
  }

  function Sent(m: Option<Message>): seq<Message> {
    if m.Some? then [m.value] else []
  }

  /** What the transport did with a batch of mails: the ones handed to
      `RootMail::sendMail`, in order, and whether every call returned. */
  datatype Transmitted = Transmitted(handed: seq<Message>, ok: bool)

  /** The mails of a batch sent one after the other, `accepts` telling
      whether `sendMail` returns for a message (false: it throws). The
      first refused message ends the batch; the ones after it are never
      handed over. */
  function Transmit(accepts: Message -> bool, mails: seq<Message>): (t: Transmitted)
    ensures t.ok <==> forall k :: 0 <= k < |mails| ==> accepts(mails[k])
    ensures t.ok ==> t.handed == mails
    ensures !t.ok ==> && 0 < |t.handed| <= |mails| && t.handed == mails[..|t.handed|]
                      && !accepts(mails[|t.handed| - 1])
                      && forall k :: 0 <= k < |t.handed| - 1 ==> accepts(mails[k])
  {
    if mails == [] then Transmitted([], true)
    else if !accepts(mails[0]) then Transmitted([mails[0]], false)
    else
      var rest := Transmit(accepts, mails[1..]);
      assert forall k :: 1 <= k < |mails| ==> mails[k] == mails[1..][k - 1];
      Transmitted([mails[0]] + rest.handed, rest.ok)
  }

  /** `label value` followed by a line break, as the bodies print fields. */
  function Field(m: Mailer, name: Text, value: string): string {
    m.tr(name) + " " + value + "\n"
  }

  function RegistrationBody(m: Mailer, blog: Blog, userId: string, pwd: string): string {
    m.tr(ThanksForRegistrationOn(blog.name)) + "\n\n"
    + Field(m, SiteLabel, blog.name + " - " + blog.url)
    + Field(m, UsernameLabel, userId)
    + Field(m, PasswordLabel, pwd) + "\n"
    + m.tr(ReviewBeforeActivation) + "\n"
    + m.tr(EmailWhenReady) + "\n"
  }

  /** The back office link of the notification: the users list filtered on
      pending accounts and the new id, on this blog (`http_build_query`;
      the URL-encoding of the values is not modelled). */
  function PendingUsersLink(m: Mailer, blog: Blog, userId: string): string {
    m.adminUrl + "?process=Users&status=" + IntToString(My.USER_PENDING) + "&q=" + userId + "&switchblog=" + blog.id
  }

  function AdminBody(m: Mailer, blog: Blog, userId: string, email: string): string {
    m.tr(RegistrationMadeOn(blog.name, blog.id)) + "\n\n"
    + Field(m, UsernameLabel, userId)
    + Field(m, EmailLabel, email)
    + m.tr(ReviewUserAccount) + "\n"
    + PendingUsersLink(m, blog, userId) + "\n"
  }

  /** The administrator addresses of a split `email_registration`: each entry
      trimmed, entries `empty()` after trimming skipped, in order. */
  function AdminRecipients(entries: seq<string>): (r: seq<string>)
    ensures |r| <= |entries|
    ensures forall i :: 0 <= i < |r| ==> !Empty(r[i]) && Trimmed(r[i])
  {
    if entries == [] then []
    else
      var last := entries[|entries| - 1];
      AdminRecipients(entries[..|entries| - 1]) + (if Empty(Trim(last)) then [] else [Trim(last)])
  }

  /** The recipients of one more entry. */
  lemma RecipientsStep(entries: seq<string>, i: nat)
    requires i < |entries|
    ensures Empty(Trim(entries[i])) ==> AdminRecipients(entries[..i + 1]) == AdminRecipients(entries[..i])
    ensures !Empty(Trim(entries[i])) ==> AdminRecipients(entries[..i + 1]) == AdminRecipients(entries[..i]) + [Trim(entries[i])]
  {
    assert entries[..i + 1][..i] == entries[..i];
  }

  /** No administrator address is lost: an entry that is not empty once
      trimmed is a recipient. */
  lemma {:induction false} AdminRecipientKept(entries: seq<string>, i: nat)
    requires i < |entries| && !Empty(Trim(entries[i]))
    ensures Trim(entries[i]) in AdminRecipients(entries)
    decreases |entries|
  {
    var n := |entries| - 1;
    var x, last := Trim(entries[i]), Trim(entries[n]);
    var pre, tail := AdminRecipients(entries[..n]), if Empty(last) then [] else [last];
    RecipientsStep(entries, n);
    assert entries[..n + 1] == entries;
    assert AdminRecipients(entries) == pre + tail;
    if i < n {
      assert entries[..n][i] == entries[i];
      AdminRecipientKept(entries[..n], i);
      assert x in pre;
    } else {
      assert i == n;
    }
  }

  /** No administrator address is made up: a recipient is a trimmed entry. */
  lemma {:induction false} AdminRecipientSource(entries: seq<string>, a: string) returns (i: nat)
    requires a in AdminRecipients(entries)
    ensures i < |entries| && a == Trim(entries[i])
    decreases |entries|
  {
    var n := |entries| - 1;
    RecipientsStep(entries, n);
    assert entries[..n + 1] == entries;
    if a in AdminRecipients(entries[..n]) {
      i := AdminRecipientSource(entries[..n], a);
    } else {
      i := n;
    }
  }

  /** The confirmation mail to the new user. */
  function UserMail(m: Mailer, blog: Blog, userId: string, pwd: string, email: string): seq<Message> {
    Sent(MailSender(m, blog, email, m.tr(ConfirmationOfRegistration), RegistrationBody(m, blog, userId, pwd)))
  }

  /** The mail `mailSender` sends to one recipient. */
  function MailTo(m: Mailer, blog: Blog, to: string, subject: string, body: string): seq<Message> {
    Sent(MailSender(m, blog, to, subject, body))
  }

  /** One mail per recipient, in order, all with the same subject and body. */
  function MailsTo(m: Mailer, blog: Blog, recipients: seq<string>, subject: string, body: string): (r: seq<Message>)
    ensures Empty(m.emailFrom) ==> r == []
    ensures !Empty(m.emailFrom) ==> |r| == |recipients| && forall i :: 0 <= i < |r| ==> r[i].to == recipients[i]
  {
    if recipients == [] then []
    else
      MailsTo(m, blog, recipients[..|recipients| - 1], subject, body)
      + MailTo(m, blog, recipients[|recipients| - 1], subject, body)
  }

  lemma MailsToStep(m: Mailer, blog: Blog, recipients: seq<string>, r: string, subject: string, body: string)
    ensures MailsTo(m, blog, recipients + [r], subject, body)
         == MailsTo(m, blog, recipients, subject, body) + MailTo(m, blog, r, subject, body)
  {
    assert (recipients + [r])[..|recipients|] == recipients;
  }

  /** The administrator notifications of a registration. */
  function AdminMails(m: Mailer, blog: Blog, recipients: seq<string>, userId: string, email: string): seq<Message> {
    MailsTo(m, blog, recipients, m.tr(NewUserRegistration), AdminBody(m, blog, userId, email))
  }

  /** Everything `sendRegistrationMail` sends. */
  function RegistrationMails(m: Mailer, blog: Blog, userId: string, pwd: string, email: string): seq<Message> {
    UserMail(m, blog, userId, pwd, email)
    + AdminMails(m, blog, AdminRecipients(Explode(',', m.emailRegistration)), userId, email)
  }

  /** `sendRegistrationMail($user_id, $user_pwd, $user_email)`: the user's
      mail first, then one mail per administrator entry that is not empty
      once trimmed, sent to the trimmed address. */
  method SendRegistrationMail(m: Mailer, blog: Blog, userId: string, pwd: string, email: string)
    returns (sent: seq<Message>)
    ensures sent == RegistrationMails(m, blog, userId, pwd, email)
  {
    var first := UserMail(m, blog, userId, pwd, email);
    var admins := NotifyAdmins(m, blog, Explode(',', m.emailRegistration), m.tr(NewUserRegistration), AdminBody(m, blog, userId, email));
    sent := first + admins;
  }

  /** The loop of `sendRegistrationMail` over the entries of `email_registration`. */
  method NotifyAdmins(m: Mailer, blog: Blog, entries: seq<string>, subject: string, body: string)
    returns (sent: seq<Message>)
    ensures sent == MailsTo(m, blog, AdminRecipients(entries), subject, body)
  {
    sent := [];
    var i := 0;
    while i < |entries|
      invariant 0 <= i <= |entries|
      invariant sent == MailsTo(m, blog, AdminRecipients(entries[..i]), subject, body)
    {
      var mail := entries[i];
      ghost var before := AdminRecipients(entries[..i]);
      RecipientsStep(entries, i);
      if !Empty(Trim(mail)) {
        MailsToStep(m, blog, before, Trim(mail), subject, body);
        sent := sent + MailTo(m, blog, Trim(mail), subject, body);
      }
      i := i + 1;
    }
    assert entries[..i] == entries;
  }

  /** Who the registration mails go to: the user first, then the trimmed
      administrator addresses; nothing at all without a sender address. */
  lemma RegistrationRecipients(m: Mailer, blog: Blog, userId: string, pwd: string, email: string)
    ensures var sent := RegistrationMails(m, blog, userId, pwd, email);
      var admins := AdminRecipients(Explode(',', m.emailRegistration));
      && (Empty(m.emailFrom) ==> sent == [])
      && (!Empty(m.emailFrom) ==>
            && |sent| == 1 + |admins| && sent[0].to == email
            && forall i :: 1 <= i < |sent| ==> sent[i].to == admins[i - 1])
  {
    var admins := AdminRecipients(Explode(',', m.emailRegistration));
    if !Empty(m.emailFrom) {
      FirstThenEach(UserMail(m, blog, userId, pwd, email), AdminMails(m, blog, admins, userId, email), email, admins);
    }
  }

  /** One mail to `first`, then one mail per address of `rest`, in order. */
  lemma FirstThenEach(head: seq<Message>, tail: seq<Message>, first: string, rest: seq<string>)
    requires |head| == 1 && head[0].to == first
    requires |tail| == |rest| && forall i :: 0 <= i < |tail| ==> tail[i].to == rest[i]
    ensures var sent := head + tail;
      |sent| == 1 + |rest| && sent[0].to == first
      && forall i :: 1 <= i < |sent| ==> sent[i].to == rest[i - 1]
  {
    var sent := head + tail;
    forall i | 1 <= i < |sent| ensures sent[i].to == rest[i - 1] {
      assert sent[i] == tail[i - 1];
    }
  }

  /** `sendActivationMail($user_email)`: as written, the greeting is the
      format with `$s`, which `sprintf` does not fill. */
  function ActivationMail(m: Mailer, blog: Blog, email: string): (r: seq<Message>)
    ensures Empty(m.emailFrom) ==> r == []
    ensures !Empty(m.emailFrom) ==> |r| == 1 && r[0].to == email
  {
    Sent(MailSender(m, blog, email, m.tr(ConfirmationOfActivation),
      m.tr(ThanksDollarS) + "\n\n" + m.tr(AccountActivated) + "\n" + m.tr(SignInAt(SessionUrl(blog))) + "\n"))
  }

  /** The address in the recovery mail: blog URL, session page, the recover
      action and the key. */
  function RecoveryLink(blog: Blog, key: string): string {
    SessionUrl(blog) + "/" + My.ACTION_RECOVER + "/" + key
  }

  function RecoveryIntro(m: Mailer, blog: Blog, userId: string): string {
    m.tr(ResetRequested) + "\n\n"
    + Field(m, SiteLabel, blog.name + " - " + blog.url)
    + Field(m, UsernameLabel, userId) + "\n"
    + m.tr(VisitToReset)
  }

  /** `sendRecoveryMail($user_id, $user_key, $user_email)`: one mail to the
      user whose body carries the recovery link on a line of its own. */
  function RecoveryMail(m: Mailer, blog: Blog, userId: string, key: string, email: string): (r: seq<Message>)
    ensures Empty(m.emailFrom) ==> r == []
    ensures !Empty(m.emailFrom) ==>
      |r| == 1 && r[0].to == email && IsFactor("\n" + RecoveryLink(blog, key) + "\n", r[0].body)
  {
    var intro := RecoveryIntro(m, blog, userId);
    var link := RecoveryLink(blog, key);
    LineInBody(intro, link);
    Sent(MailSender(m, blog, email, m.tr(PasswordReset), intro + "\n" + link + "\n"))
  }

  lemma LineInBody(intro: string, line: string)
    ensures IsFactor("\n" + line + "\n", intro + "\n" + line + "\n")
  {
    FactorMiddle(intro, "\n" + line + "\n", "");
    assert intro + ("\n" + line + "\n") + "" == intro + "\n" + line + "\n";
  }

  lemma FieldsInBody(head: string, user: string, pass: string, tail: string)
    ensures IsFactor(user, head + user + pass + tail) && IsFactor(pass, head + user + pass + tail)
  {
    FactorMiddle(head, user, pass + tail);
    FactorMiddle(head + user, pass, tail);
    assert head + user + (pass + tail) == head + user + pass + tail;
  }

  function PasswordHead(m: Mailer, blog: Blog): string {
    m.tr(ResetRequested) + "\n\n" + Field(m, SiteLabel, blog.name + " - " + blog.url)
  }

  function PasswordTail(m: Mailer, blog: Blog): string {
    m.tr(VisitToSignIn) + "\n" + SessionUrl(blog) + "\n"
  }

  /** `sendPasswordMail($user_id, $user_pwd, $user_email)`: one mail whose
      body names the user and gives the new password. */
  function PasswordMail(m: Mailer, blog: Blog, userId: string, pwd: string, email: string): (r: seq<Message>)
    ensures Empty(m.emailFrom) ==> r == []
    ensures !Empty(m.emailFrom) ==>
      |r| == 1 && r[0].to == email
      && IsFactor(Field(m, UsernameLabel, userId), r[0].body) && IsFactor(Field(m, PasswordLabel, pwd), r[0].body)
  {
    var head := PasswordHead(m, blog);
    var user := Field(m, UsernameLabel, userId);
    var pass := Field(m, PasswordLabel, pwd);
    var tail := PasswordTail(m, blog);
    FieldsInBody(head, user, pass, tail);
    Sent(MailSender(m, blog, email, m.tr(YourNewPassword), head + user + pass + tail))
  }
}
