# FrontendSession: a Dafny model of the plugin's authentication core

FrontendSession is a Dotclear plugin that lets visitors sign up, sign in and
manage their account on the public side of a blog. This project models the
parts of the plugin that decide who gets a session and what each request
does, and proves properties of that model:

- **Remember-me token and credential state machine** (`FrontendSession`, in
  `frontend_session.dfy`):
  - the 104-character remember token;
  - the parsing of the remember cookie;
  - the password-change payload `base64(user)/token/flag` and its decoding;
  - `check`, which ends in one of: nothing to check, rejected, a redirect, or
    authenticated;
  - the session checks made when a request starts;
  - the error list.
- **Action dispatcher** (`FrontendUrl`, `frontend_url.dfy`):
  - sign in, sign up, sign out, recover, change, updpref and updpass;
  - the nonce gate;
  - the error list and how the page is served.
- **The older variant**, modelled as written and kept separate:
  - `LegacySession` (`session.dfy`) for `src/Session.php`;
  - `UrlHandler` (`url_handler.dfy`) for `src/UrlHandler.php`.
- **Comment gating** (`Comments`, `comments.dfy`):
  - `commentsActive`;
  - the `CommentOptions` holder;
  - the moderation and author override before a comment is created;
  - the action buttons and the posted-id match under posts and comments;
  - the comment preview fill.
- **Template tags** (`FrontendTemplate`, `template.dfy`): the PHP code the
  tags compile to, as strings.
- **Mails** (`Mail`, `mail.dfy`):
  - the sender guard and the subject;
  - the registration recipients;
  - the recovery link;
  - the contents of the password mail.
- **Back-office hooks** (`Backend`, `backend.dfy`):
  - the blog settings;
  - the editor tags and the menu type;
  - the bulk "mark pending" action;
  - the activation mail.

Supporting modules:

- `php.dfy` (`Php`) defines the PHP built-ins the code relies on, concretely:
  `explode`/`implode`, `trim`, `bin2hex`, `pack('H*')`, `pack`/`unpack('a32')`
  and integer-to-string. This is what makes the token round trip provable.
- `host.dfy` (modules `My` and `Host`) holds:
  - the plugin's constants;
  - the framework services as oracles: the key-derived fingerprint, base64,
    the user directory, permissions and the nonce check;
  - the request globals: `$_SESSION`, `$_COOKIE`, the signed-in user, and
    the effects emitted so far (cookies, session start and destroy, the
    cache trigger).
- `texts.dfy` (`Texts`) lists the user-visible messages as a datatype,
  translated by an oracle.

Modelling conventions:

- **Request handlers** are classes whose methods change the session globals,
  the error list and the list of directory calls in place. Each method is
  proved equal to a specification function. The properties are proved about
  that function in a `…Rules` lemma.
- **Redirects and exceptions** end the request, so they are modelled as a
  returned exit value.

## Model

| member | source | states |
|---|---|---|
| FrontendSession.Uid | src/FrontendSession.php:101-109 | the token for a user is 104 hex characters (40-character fingerprint + 64 hex of the id packed in 32 bytes); without a user it is the 40-character browser fingerprint |
| FrontendSession.ParseRememberCookie | src/FrontendSession.php:66-75 | a cookie is parsed exactly when it has 104 characters; the key is its first 40 characters, the id the trimmed unpacking of the rest (at most 32 bytes) |
| FrontendSession.RememberTokenRoundTrip | src/FrontendSession.php:66-75 | parsing the token made for a packable user id gives back that id and its fingerprint |
| FrontendSession.Decode | src/FrontendSession.php:150-170 | remember is true exactly when the third segment is "1"; a non-empty id needs valid base64 in segment 0, a 104-character segment 1 and the directory accepting the key for that id |
| FrontendSession.UidHasNoSlash | src/FrontendSession.php:101-109 | a token contains no '/', so it is one segment of the change payload |
| FrontendSession.DecodeSegments | src/FrontendSession.php:150-170 | on a three-segment payload with a 104-character token, the decoded id and flag in terms of the segments |
| FrontendSession.ChangePayloadRoundTrip | src/FrontendSession.php:177-188 | with the corrected encoder, decoding an encoded [user, remember] gives back the user (when the directory accepts its token) and the remember flag |
| FrontendSession.EncodedSegments | src/FrontendSession.php:177-188 | the corrected encoder's payload splits into the base64 of the user, its 104-character token and the flag "1" or "" |
| FrontendSession.EncodeAsWrittenLosesRemember | src/FrontendSession.php:179-184 | the encoder as written always decodes with remember false, even for [user, true] |
| FrontendSession.ForcedChangeForgetsRemember | src/FrontendSession.php:211-213 | a must-change-password account signing in with "remember me" is redirected to the change page with a payload that decodes with remember false |
| FrontendSession.ResetSpec | src/FrontendSession.php:114-120 | the cookie is gone; a clearing cookie is sent only when one was present; the session is untouched |
| FrontendSession.KillSpec | src/FrontendSession.php:136-143 | the session is destroyed first, then the cookie is cleared |
| FrontendSession.CheckRules | src/FrontendSession.php:193-233 | nothing to check leaves everything as is; rejected iff the directory or the permission refuses; pending, disabled and change-password are redirected in that order with the cookie cleared, the change-password payload being the as-written encoding of [user, remember]; a session bound to user, browser and blog only for a usable account; remember sends a fresh token for a password and the presented cookie for a key |
| FrontendSession.BootSpec | src/FrontendSession.php:33-79 | a session that survives is bound to this browser, blog and a permitted user; a foreign browser fingerprint destroys the session, clears the cookie and goes home; a session user that does not pass the check and whose session names another blog id loses the session and the cookie and goes to the blog's home after a trigger; without a session user the cookie is consulted only at 104 characters, and then the outcome is the key login with remember-me for the id and fingerprint the cookie holds |
| FrontendSession.FrontendSession.constructor | src/FrontendSession.php:27-31 | a fresh object: no errors, state disconnected, empty data and success |
| FrontendSession.FrontendSession.SetCookie | src/FrontendSession.php:89-96 | appends one cookie with the given value and expiry |
| FrontendSession.FrontendSession.Reset | src/FrontendSession.php:114-120 | the globals become ResetSpec of the old ones |
| FrontendSession.FrontendSession.Redirect | src/FrontendSession.php:127-131 | triggers the blog and exits to the current URI or the arguments joined by '/' |
| FrontendSession.FrontendSession.Kill | src/FrontendSession.php:136-143 | the globals become KillSpec of the old ones |
| FrontendSession.FrontendSession.Check | src/FrontendSession.php:193-233 | new globals, result and exit are those of CheckSpec |
| FrontendSession.FrontendSession.Admit | src/FrontendSession.php:203-226 | the branch after accepted credentials, as AdmitSpec states it, with the change-password payload from the encoder as written |
| FrontendSession.FrontendSession.Start | src/FrontendSession.php:33-79 | exit and globals are those of BootSpec, whose check redirects through the encoder as written |
| FrontendSession.FrontendSession.GetErrors | src/FrontendSession.php:240-243 | returns the error list |
| FrontendSession.FrontendSession.HasError | src/FrontendSession.php:250-253 | true iff the list is not empty |
| FrontendSession.FrontendSession.AddError | src/FrontendSession.php:260-263 | appends exactly the message |
| FrontendUrl.ParseRequest | src/FrontendUrl.php:45-51 | action and state are URL segments 1 and 2, each overridden by its POST field when present |
| FrontendUrl.RedirectReachesHandler | src/FrontendUrl.php:45-51 | a session redirect URL parses back into the action and state it was built from |
| FrontendUrl.SigninRefusal | src/FrontendUrl.php:66-68 | a message only for an anonymous visitor in state pending or disabled, the matching one |
| FrontendUrl.SignupErrors | src/FrontendUrl.php:93-115 | no message iff login valid and free, addresses equal and valid, passwords equal and at least 6 bytes; each message iff its own condition; a taken valid login gets both "not available" (first) and "already exists" (last) |
| FrontendUrl.ChangeError | src/FrontendUrl.php:200-211 | missing user, then administrator, then empty or different passwords, then unchanged password, each exactly in its case |
| FrontendUrl.UpdpassError | src/FrontendUrl.php:265-272 | current password refused, then trimmed new password under 6, then mismatch; none iff all pass |
| FrontendUrl.WithScheme | src/FrontendUrl.php:237-240 | the result always has an http(s) scheme; a URL with one is unchanged, otherwise "http://" is prefixed |
| FrontendUrl.Serve | src/FrontendUrl.php:312-330 | served only for the dotty and mustek template sets, otherwise 404; the form error is set iff there are errors, joined with "\n" |
| FrontendUrl.ServedErrorsSplit | src/FrontendUrl.php:320-322 | messages without a newline can be recovered from the joined form error |
| FrontendUrl.SignOutRules | src/FrontendUrl.php:55-59 | session destroyed, cookie cleared, redirect to the blog, nothing else |
| FrontendUrl.SignInRules | src/FrontendUrl.php:61-81 | refused without a nonce; pending/disabled for an anonymous visitor gives exactly its message and no check; otherwise any failed check gives only the generic message; the session changes only for accepted, permitted, usable credentials |
| FrontendUrl.SignUpRules | src/FrontendUrl.php:83-147 | nothing without a login; validation messages first, in order; an account (pending) is asked for iff no check failed; a login the directory did not create gives only the generic message; a permission grant that throws keeps the account and gives the generic message; past it the AfterSignup behaviour runs, the mails are handed over until the first the transport refuses, and the thanks come iff all went through, otherwise the generic message |
| FrontendUrl.RecoverRules | src/FrontendUrl.php:149-182 | nothing unless recovery is enabled; with a key a new password is mailed, and an unknown key or a mail the transport refuses (after the reset) gives "unknown user"; without one only an anonymous visitor with login and address; an administrator is refused and no key is set; a key mail refused gives "unknown user" instead of "sent" |
| FrontendUrl.ChangeRules | src/FrontendUrl.php:184-232 | a forced-change link becomes the form's data unchanged; a password is stored iff every check passed, for the decoded user, lifting the forced change; a failed check keeps the form and data; a stored password signs the user in against the updated directory and, unless that check redirects, gives the success message and the connected page with empty data; an update the directory refuses gives exactly its message, keeps the form and signs no one in |
| FrontendUrl.LinkDataIsPath | src/FrontendUrl.php:191-195 | the data of a forced-change link is URL segments 2 to 4 joined by '/' |
| FrontendUrl.UpdPrefRules | src/FrontendUrl.php:234-258 | one update of the signed-in user's URL (with scheme); success message iff the directory reports no error, else exactly its error |
| FrontendUrl.UpdPassRules | src/FrontendUrl.php:260-289 | at most one message; an update (keeping the forced-change flag unset) iff the form passes; success iff the directory accepts it |
| FrontendUrl.DispatchRules | src/FrontendUrl.php:36-297 | every form action is refused before any effect without a valid nonce; an unknown action does nothing; only sign out, sign in and change touch the session |
| FrontendUrl.Respond | src/FrontendUrl.php:312-330 | an exit ends the request as is; otherwise the page is served as Serve says |
| FrontendUrl.EmptyPostNeedsNonce | src/FrontendUrl.php:302-307 | a form action reached by a plain GET fails the nonce check on the default "-" |
| FrontendUrl.Handler.constructor | src/FrontendUrl.php:36-51 | a request starts with no error, no call and no mail |
| FrontendUrl.Handler.SessionAction | src/FrontendUrl.php:36-297 | 404 when the plugin is off, leaving handler and session untouched; otherwise errors, calls, mails, globals, page state, data and success message are those of DispatchSpec, the directory the session sees changes only after a stored password, and the response is Respond's |
| FrontendUrl.Handler.Dispatch | src/FrontendUrl.php:53-295 | the switch's effects are DispatchSpec's; only a stored password changes the directory the session sees |
| FrontendUrl.Handler.SignOut | src/FrontendUrl.php:55-59 | effects are SignOutSpec's |
| FrontendUrl.Handler.SignIn | src/FrontendUrl.php:61-81 | effects are SignInSpec's |
| FrontendUrl.Handler.SignUp | src/FrontendUrl.php:83-147 | effects are SignUpSpec's, including its throwing paths |
| FrontendUrl.Handler.Register | src/FrontendUrl.php:117-141 | effects are RegisterSpec's: add the user, grant the permission, call AfterSignup, hand over the mails, then the thanks |
| FrontendUrl.Handler.Recover | src/FrontendUrl.php:149-182 | effects are RecoverSpec's |
| FrontendUrl.Handler.NewPassword | src/FrontendUrl.php:155-162 | effects are NewPasswordSpec's: reset, mail, success or "unknown user" |
| FrontendUrl.Handler.RecoveryKey | src/FrontendUrl.php:164-177 | effects are RecoveryKeySpec's: admin refusal, or set the key, mail it and report |
| FrontendUrl.Handler.Change | src/FrontendUrl.php:184-232 | effects are ChangeSpec's; after a stored password the session sees the updated directory |
| FrontendUrl.Handler.StorePassword | src/FrontendUrl.php:196-229 | effects are StorePasswordSpec's |
| FrontendUrl.Handler.UpdatePreferences | src/FrontendUrl.php:234-258 | effects are UpdPrefSpec's |
| FrontendUrl.Handler.UpdatePassword | src/FrontendUrl.php:260-289 | effects are UpdPassSpec's |
| LegacySession.IsSSL | src/Session.php:162-171 | true iff the parsed scheme is exactly "https" |
| LegacySession.LegacyTokenIsUid | src/Session.php:110-118 | the older remember token equals the newer one for any user |
| LegacySession.ResetCookieSpec | src/Session.php:151-157 | a clearing cookie (an hour back, empty path, secure iff SSL) only when one was present |
| LegacySession.KillSessionSpec | src/Session.php:139-146 | session destroyed first, then the cookie cleared |
| LegacySession.CheckUserRules | src/Session.php:89-134 | no-op unless a user and a password or key are given; every attempt ends in a redirect after the cache trigger, to the pending page for a pending account; only an opening account gets the session bound to browser and blog |
| LegacySession.CheckUserCookies | src/Session.php:96-125 | an attempt that opens nothing clears the cookie (refused, pending, restricted alike); remember sends a fresh token for a password and the presented cookie for a key, for 15 days on path '/', secure iff SSL |
| LegacySession.RestrictedAccountsDiffer | src/Session.php:101-102 | a restricted account is only redirected to the requested page, no session, where the newer code redirects it to signin/disabled |
| LegacySession.EmptyPasswordsDiffer | src/Session.php:91 | an empty password is still checked and redirected, where the newer code refuses it before any directory call |
| LegacySession.CheckCookieRules | src/Session.php:67-84 | acts iff there is no session user and a 104-character cookie; the redirect is the pending page or the requested one |
| LegacySession.StartSessionRules | src/Session.php:23-62 | nothing without a session; a session that survives is on this blog with a permitted user; a failed session check or a foreign blog id ends at the blog's home, the latter destroying the session |
| LegacySession.Session.constructor | src/Session.php:23-33 | the request's globals as given |
| LegacySession.Session.ResetCookie | src/Session.php:151-157 | globals become ResetCookieSpec's |
| LegacySession.Session.KillSession | src/Session.php:139-146 | globals become KillSessionSpec's |
| LegacySession.Session.Redirect | src/Session.php:178-182 | triggers the blog, exits to the URL |
| LegacySession.Session.CheckUser | src/Session.php:89-134 | exit and globals are CheckUserSpec's |
| LegacySession.Session.Open | src/Session.php:103-125 | globals become OpenSpec's |
| LegacySession.Session.CheckCookie | src/Session.php:67-84 | exit and globals are CheckCookieSpec's |
| LegacySession.Session.StartSession | src/Session.php:23-62 | exit and globals are StartSessionSpec's |
| UrlHandler.ActionOf | src/UrlHandler.php:37-49 | a non-empty POST action wins; otherwise the first '/'-segment after the leading character |
| UrlHandler.ActionFromPath | src/UrlHandler.php:37-49 | "/a/b/…" gives action a |
| UrlHandler.SignupErrors | src/UrlHandler.php:76-101 | at most three messages, one per group; none iff all groups pass; each message iff its condition |
| UrlHandler.SignupErrorsAgainstCurrent | src/UrlHandler.php:76-101 | the newer validation is the older one plus "already exists" for a known login |
| UrlHandler.RegistrationRecipients | src/UrlHandler.php:173-210 | nothing without a sender; otherwise the user first, then one mail per non-empty trimmed admin entry |
| UrlHandler.SendRegistrationMail | src/UrlHandler.php:173-210 | the loop sends RegistrationMails |
| UrlHandler.SignUpRules | src/UrlHandler.php:71-133 | nothing without a login; an account (pending, posted values) iff no check failed; failures are joined and nothing else happens; mails only for a created login whose permission was granted; once created, the thanks iff the permission and every mail went through, otherwise the generic message, with the mails handed over until the first refused |
| UrlHandler.Serve | src/UrlHandler.php:154-168 | served only for the dotty template set, with the given form error |
| UrlHandler.Handler.constructor | src/UrlHandler.php:31-35 | no calls, no mails, no form error |
| UrlHandler.Handler.SessionSign | src/UrlHandler.php:31-149 | 404 when off; the form error is reset first; sign out kills and goes home, sign in follows CheckUserSpec, and neither calls the directory nor sends mail; sign up follows SignUpSpec and its error; pending sets the pending error, state and message for anonymous visitors and is served without an error for a signed-in user; other actions change nothing |
| UrlHandler.Handler.SignUp | src/UrlHandler.php:71-133 | error, calls and mails are SignUpSpec's, including its throwing paths |
| UrlHandler.Handler.Validate | src/UrlHandler.php:76-101 | the messages are FormErrors; with none, the captured values are the applicant's |
| Comments.CommentsActive | src/RecordExtendPost.php:26-32 | false with limit_comment for users without permission; needs comments allowed and the post open; ttl 0 is no limit, otherwise open iff now < post time + ttl days |
| Comments.PermissionIrrelevantUnlimited | src/RecordExtendPost.php:28 | without limit_comment the permission does not change the result |
| Comments.ClosedStaysClosed | src/RecordExtendPost.php:31 | comments active now were active at any earlier time |
| Comments.ChosenUntouched | src/CommentOptions.php:29-41 | calls of the other kind leave an option as it was |
| Comments.ChosenLast | src/CommentOptions.php:43-51 | an option holds the value of the last call of its kind |
| Comments.CommentOptions.constructor | src/CommentOptions.php:20-27 | both options start null |
| Comments.CommentOptions.SetActive | src/CommentOptions.php:29-34 | sets only active and returns the same object |
| Comments.CommentOptions.SetModerate | src/CommentOptions.php:36-41 | sets only moderate and returns the same object |
| Comments.CommentOptions.Notify | src/FrontendBehaviors.php:155-156 | after the listeners each option is the last value set for it, or unchanged |
| Comments.CommentCursor.constructor | src/FrontendBehaviors.php:145 | the cursor holds the given fields |
| Comments.BeforeCreateRules | src/FrontendBehaviors.php:145-174 | untouched without a post id or an open post; the only exception is the limited-comments one, for an anonymous user under limit_comment; on an open post a permitted user's author, email and site replace the posted ones; status changes only to published or unpublished |
| Comments.BeforeCreateWithoutListeners | src/FrontendBehaviors.php:159-166 | no moderate call keeps the status; no active call on an open post, limit_comment and an anonymous user throws |
| Comments.BeforeCreateModeration | src/FrontendBehaviors.php:159-161 | the last moderate call decides: true unpublished, false published |
| Comments.BeforeCommentCreate | src/FrontendBehaviors.php:145-174 | fields and exception are BeforeCreateSpec's |
| Comments.Submits | src/FrontendBehaviors.php:63-68 | keeps exactly the submit buttons, in order |
| Comments.InOrderKept | src/FrontendBehaviors.php:63-68 | the filtered array, read in key order, is Submits of the items |
| Comments.NothingKept | src/FrontendBehaviors.php:63-72 | the filtered buttons are empty exactly when there is no submit button |
| Comments.FilterButtons | src/FrontendBehaviors.php:63-68 | the unset loop leaves the submit buttons at their keys |
| Comments.Shown | src/FrontendBehaviors.php:63-72 | never empty; either the single None or only submits, all of them |
| Comments.FormButtons | src/FrontendBehaviors.php:63-72 | the buttons shown are Shown's |
| Comments.EntryAfterContent | src/FrontendBehaviors.php:42-89 | a form iff permitted on a post; refused only for a posted id with a bad nonce; fired iff the posted post id is this post's |
| Comments.CommentAfterContent | src/FrontendBehaviors.php:91-140 | the same for a comment, on its posted comment id |
| Comments.ActionForOnePost | src/FrontendBehaviors.php:48-53 | one posted id fires the action for one post only |
| Comments.FillPreview | src/FrontendBehaviors.php:211-222 | a permitted user's name, email and site fill an existing preview, other keys untouched; otherwise unchanged |
| FrontendTemplate.Sign | src/FrontendTemplate.php:38 | '' for a truthy attribute, '!' for '' and '0' |
| FrontendTemplate.Conditions | src/FrontendTemplate.php:43-50 | one condition per given attribute, registration first |
| FrontendTemplate.OperatorOf | src/FrontendTemplate.php:40 | "&&" unless the tag names an operator |
| FrontendTemplate.SessionIfShape | src/FrontendTemplate.php:52-54 | the content alone without attributes; otherwise exactly `<?php if(` conditions joined by ' op ' `) : ?>` content `<?php endif; ?>` |
| FrontendTemplate.RegistrationCondMeans | src/FrontendTemplate.php:43-45 | the compiled guard is true iff registration is open, negated for a false attribute |
| FrontendTemplate.AuthenticateCondMeans | src/FrontendTemplate.php:48-50 | the compiled guard is true iff a user is signed in, negated for a false attribute |
| FrontendTemplate.IsAuthNegated | src/FrontendTemplate.php:114-121 | the test is negated iff `true` is given and false |
| FrontendTemplate.UrlSignout | src/FrontendTemplate.php:84 | the URL expression ends with the sign-out path iff `signout` is not empty |
| Mail.MailSender | src/Mail.php:30-51 | nothing without a sender address; otherwise to the recipient, with the body, under "[blog name] subject" |
| Mail.AdminRecipients | src/Mail.php:92-95 | only non-empty trimmed addresses, at most one per entry |
| Mail.AdminRecipientKept | src/Mail.php:92-95 | every entry non-empty after trimming is a recipient |
| Mail.AdminRecipientSource | src/Mail.php:92-95 | every recipient is the trimmed form of an entry |
| Mail.MailsTo | src/Mail.php:94-110 | one mail per recipient, in order, or none without a sender |
| Mail.SendRegistrationMail | src/Mail.php:74-113 | the mails sent are RegistrationMails |
| Mail.NotifyAdmins | src/Mail.php:92-112 | the loop sends one mail per admin recipient |
| Mail.RegistrationRecipients | src/Mail.php:74-113 | the user first, then each admin recipient in order; nothing without a sender |
| Mail.ActivationMail | src/Mail.php:56-69 | one mail to the user, or none without a sender |
| Mail.RecoveryMail | src/Mail.php:118-132 | one mail to the user whose body holds the line blog URL + session URL + "/recover/" + key |
| Mail.PasswordMail | src/Mail.php:137-152 | one mail to the user whose body holds the user id and the new password |
| Mail.Transmit | src/Mail.php:50 | the mails handed to the transport: all of them iff it accepts every one; otherwise a non-empty prefix ending at the first it refuses |
| Backend.StoredRules | src/Backend.php:108-116 | every setting of the form is written, whatever was stored; settings the form does not own (limit_comment, enable_recovery, …) keep their stored value and are not added; active and active_registration are "posted and not empty"; the texts are the posted strings |
| Backend.BlogSettings.constructor | src/Backend.php:108 | the settings as stored |
| Backend.BlogSettings.Put | src/Backend.php:109-115 | one setting replaced |
| Backend.BeforeBlogSettingsUpdate | src/Backend.php:108-116 | the new settings are Stored of the old ones |
| Backend.EditorTags | src/Backend.php:122-129 | the given tags are kept in front; the three text areas are appended iff the context is blog_desc |
| Backend.MenuTypes | src/Backend.php:131-135 | the login page type is added under the plugin id iff the plugin is active; other entries are kept |
| Backend.MarkCalls | src/Backend.php:145-150 | one update per listed user, to USER_PENDING |
| Backend.MarkErrors | src/Backend.php:147-153 | at most one error per user; every error is the failure message of one of the listed updates |
| Backend.MarkErrorsNone | src/Backend.php:147-153 | no error iff every update succeeded |
| Backend.MarkErrorsKept | src/Backend.php:147-153 | every failed update's message is recorded |
| Backend.BackOffice.constructor | src/Backend.php:144 | no errors, notices, redirect or calls |
| Backend.BackOffice.MarkPending | src/Backend.php:147-153 | one call; its error, if any, appended |
| Backend.BackOffice.UsersActions | src/Backend.php:144-160 | nothing unless the action is the plugin's; then every user is marked pending, failures are recorded and the loop goes on; notice and redirect only with no error |
| Backend.Wordwrap | src/Backend.php:185-190 | under strict types the call returns iff there are 1 to 4 arguments typed string, int, string, bool |
| Backend.MailActivationAsWrittenThrows | src/Backend.php:179-192 | the activation mail as written throws a TypeError for every blog |
| Backend.MailActivation | src/Backend.php:179-192 | the corrected activation mail is Mail.ActivationMail |
| Backend.PendingLookup | src/Backend.php:162-169 | the count query is never empty and has no address; the plain query is empty iff the user is not pending and gives that user's address |
| Backend.ActivateAsWritten | src/Backend.php:179-192 | the activation as written throws, whether the address is missing or present |
| Backend.BeforeUserUpdateAsWritten | src/Backend.php:161-166 | as written, the hook acts iff the new status is enabled, whether or not the user is pending, and then throws |
| Backend.BeforeUserEnableAsWritten | src/Backend.php:168-173 | as written, the hook acts iff the user is pending, and then throws |
| Backend.UpdateIgnoresPending | src/Backend.php:161-166 | as written, enabling a non-pending user through the form ends like enabling a pending one: in an exception |
| Backend.BeforeUserUpdate | src/Backend.php:161-167 | the corrected hook (a plain lookup, the corrected mail): a mail only for a pending user whose new status is enabled, to that user |
| Backend.BeforeUserEnable | src/Backend.php:168-173 | the corrected hook (the corrected mail): a mail only for a pending user, to that user |
| Backend.ActivationOnlyFromPending | src/Backend.php:161-173 | with the corrected hooks, no mail for a user who is not pending or not enabled; enabling a pending user mails the same in both hooks |
| Php.Explode | src/FrontendSession.php:152 | at least one part, none containing the separator, joined back to the input |
| Php.ExplodeImplode | src/FrontendSession.php:187 | splitting parts joined by the separator gives them back |
| Php.Trim | src/FrontendSession.php:71 | at most as long as the input; no trim byte at either end |
| Php.TrimStretch | src/FrontendSession.php:71 | the trimmed string is a contiguous stretch of the input with only trim bytes before and after it |
| Php.Bin2Hex | src/FrontendSession.php:108 | twice as long, all hex digits |
| Php.PackHex | src/FrontendSession.php:69 | half as long, rounding up, all bytes |
| Php.HexRoundTrip | src/FrontendSession.php:69 | packing the hex of a byte string gives it back |
| Php.PackA32 | src/FrontendSession.php:108 | 32 bytes: a short string padded with NULs |
| Php.UnpackA32 | src/FrontendSession.php:69 | the first 32 bytes when there are that many |
| Php.HexIdRoundTrip | src/FrontendSession.php:68-71 | unpacking the packed hex of a trimmed id of at most 32 bytes and trimming gives the id back |
| Php.IntToStringInjective | src/FrontendBehaviors.php:48-53 | different ids have different decimal texts |

## Left out

- Cryptography and encodings are oracles, `Crypto` and `Base64`. This covers
  `Http::browserUID`, `cryptLegacy` and `base64`. The model keeps only what
  the code relies on: a 40-hex-digit fingerprint, and base64 decoding that
  inverts encoding.
- The user directory is an oracle. This covers `checkUser`, the permission
  check, status, `isRestricted`, `mustChangePassword`, `getInfo` and
  `users()`.
- `checkUser` takes its `$check_blog` argument as a fourth parameter:
  `false` from `check()`, the default `true` from the payload decoding and
  the "unchanged password" test. What loading the user's blog does inside
  the directory is not modelled.
- A PHP string is a Dafny `string` holding one character per byte. Where
  the code works on bytes (`bin2hex`, `pack`, `unpack`) the characters are
  required to be below 256 (`Php.IsBytes`). Multibyte text is not decoded.
- The nonce check and the e-mail syntax check are oracles.
- Each message is a `Text` value and translation is an oracle. The French
  locale file is not part of this model.
- `Http::redirect` and thrown exceptions are terminal exit values. Headers
  are not modelled.
- `setcookie` and the session start/destroy/trigger calls are recorded as
  emitted effects. The cookie parameters the framework fills in are not
  modelled.
- Mail delivery is not modelled. A mail is the message handed over: `to`,
  subject and body. The `From` and `X-*` headers are not modelled.
- Mail.MailSender: the subject is kept as plain text. Its
  `RootMail::B64Header` encoding is not modelled.
- Mail.PendingUsersLink: the back-office link of the admin mails is built
  with `http_build_query`. The model joins the keys and values without
  URL-encoding them.
- `wordwrap` line breaking is not modelled: the text comes back unbroken.
- Php.Trim: its own contract states only the length bound and the trimmed
  ends, to keep the proofs that use it small. That the result is the input
  with only trim bytes removed around it is the lemma `Php.TrimStretch`.
- `time()` is the `now` parameter.
- The remember-cookie lifetime `strtotime('+15 days')` is now + 15 × 86400
  seconds.
- PHP's loose `==` and `!=` comparisons are modelled as strict equality on
  the strings involved. A posted id is compared with the decimal text of the
  numeric id.
- Comments.CommentsActive: the product `ttl * 86400` is unbounded. PHP
  integer overflow to float is not modelled.
- src/SessionHandler.php, the database session handler, is not part of this
  model.
- Rendering (widgets, profile page, form HTML, back-office forms) is not
  part of this model.
- Bootstrap (Prepend, Install, Frontend, `_define.php`) is not part of this
  model.
- The Telegram notifications are not part of this model.
- The JavaScript files are not part of this model.
- `adminSimpleMenuBeforeEdit` (src/Backend.php:137-143) only fills a form
  attribute for rendering, so it is not modelled.
- Comments.CommentOptions.constructor: the read-only `rs` and `cur`
  properties handed to listeners are not modelled. A listener is modelled
  as a sequence of `setActive`/`setModerate` calls (`Notify`), not as code
  that can also change the cursor.
- Backend.BeforeUserUpdate: the corrected hook models the lookup as a plain
  query, "a pending user with this id was found, with this address". The
  count query as written is `Backend.PendingLookup` with `countOnly`.
- Listeners of the `FrontendSessionAfterSignup` behaviour are recorded as a
  call. Exceptions they throw themselves are not modelled.
- The mail transport is an oracle that accepts or refuses each message. A
  refused message stands for `mail()` throwing; later messages are not
  handed over.
- The back-office activation mail is not passed through the transport
  oracle: an exception there would leave the user-form save, which is not
  modelled.
- UrlHandler.Handler.SignUp: the older handler catches only `Exception`.
  An `Error` thrown by the directory or the transport would escape it, and
  that is not modelled; every failure is treated as caught.
- FrontendSession.FrontendSession.Start: `App::frontend()->session()->start()`
  is not modelled. The request begins with its globals.
- FrontendUrl.Handler.SessionAction: reaching the template rendering is the
  `Served` response. The context variables it fills for the template are
  not modelled, except the page state, data and success message.
- The constants this version of `src/My.php` lacks are the `STATE_*`
  constants and `ACTION_RECOVER`, `ACTION_CHANGE`, `ACTION_UPDPREF` and
  `ACTION_UPDPASS`. Each is given the plain word it names, so some share a
  string: `STATE_CONNECTED` and `SESSION_CONNECTED` are "connected",
  `STATE_DISCONNECTED` and `SESSION_DISCONNECTED` are "disconnected",
  `STATE_PENDING`, `ACTION_PENDING` and `SESSION_PENDING` are "pending",
  and `STATE_CHANGE` and `ACTION_CHANGE` are "change".

## Findings

| source | as written | input that shows it | evidently intended | confidence | as-written member | corrected member |
|---|---|---|---|---|---|---|
| src/FrontendSession.php:179-184 | the flag segment is `(string) !empty($data[2])` on the two-element array `[user, remember]`, so it is always '' | `encode([$user, true], true)`, as sent for a must-change-password account signing in with "remember me" | the flag is `$data[1]`, so that `decode` gives remember true again | not executed | FrontendSession.EncodeAsWrittenLosesRemember | FrontendSession.ChangePayloadRoundTrip |
| src/Backend.php:185-190 | `wordwrap` gets the greeting as `$string`, the sign-in line as `$width` and 80 as `$break`; under `strict_types` a string for the int `$width` throws a TypeError | enabling any pending user from the back office | the two lines concatenated and wrapped at 80, as in src/Mail.php:62-67 | not executed | Backend.MailActivationAsWrittenThrows | Backend.MailActivation |
| src/Backend.php:161-166 | the lookup is `getUsers([...], true)`, a count query: it always has one row and no `user_email`, so the pending check passes for every user and `mailActivation(null)` throws | enabling, through the user form, any account, pending or not | a plain query, so that only pending accounts are mailed, at their address | not executed | Backend.UpdateIgnoresPending | Backend.ActivationOnlyFromPending |

Other observations, not findings:

- The sign-in sentence uses `"$s"` rather than `%s`, so the blog's name is
  never inserted in the activation greeting. Both src/Mail.php:63 and
  src/Backend.php:186 do this. The model keeps the text as written.
- A form action reached by a plain GET request has no nonce. `checkForm`
  then checks the default "-", which fails (`FrontendUrl.EmptyPostNeedsNonce`).
  The redirects to `signin/pending`, `signin/disabled` and `change/…` hit
  this, unless the nonce oracle accepts "-".
- The older `checkUser` does not redirect restricted accounts to a page of
  their own. It also checks an empty password against the directory. See
  `LegacySession.RestrictedAccountsDiffer` and
  `LegacySession.EmptyPasswordsDiffer`.
- The remember token does not depend on the password hash:
  `cryptLegacy($user_id)` is applied to the id.
