/** The user-visible messages. In the plugin each is `__('…')`, looked up in
    the locale's translation table, and a few are `sprintf` formats filled
    with a value. Here a message is a `Text` and the table is a function
    `Translation` handed in by the caller; `English` gives the untranslated
    source text. */
module Texts {

  datatype Text =
    // sign in (src/FrontendUrl.php)
    | AccountDisabled
    | AccountNotActivated
    | WrongCredentials
    // sign up (src/FrontendUrl.php, src/UrlHandler.php)
    | UsernameNotValid
    | UsernameNotAvailable
    | EmailsMismatch
    | EmailNotValid
    | PasswordsMismatchSignup
    | PasswordTooShortSignup
    | UsernameExists
    | RegistrationFailed
    | RegistrationThanks
    // recovery and change of password (src/FrontendUrl.php)
    | NewPasswordMailed
    | UnknownUser
    | AdminUseBackend
    | RecoveryMailSent(email: string)
    | MustSetNewPassword
    | UserNotFound
    | PasswordsDontMatch
    | PasswordUnchanged
    | PasswordUpdated
    // preferences (src/FrontendUrl.php)
    | ProfileUpdated
    | PasswordVerificationFailed
    | PasswordTooShort
    | PasswordsMismatch
    // the older handler (src/UrlHandler.php)
    | AccountNotYetActivated
    // mails (src/Mail.php, src/UrlHandler.php, src/Backend.php)
    | ConfirmationOfRegistration
    | ThanksForRegistrationOn(blogName: string)
    | SiteLabel
    | UsernameLabel
    | PasswordLabel
    | EmailLabel
    | ReviewBeforeActivation
    | EmailWhenReady
    | NewUserRegistration
    | RegistrationMadeOn(blogName: string, blogId: string)
    | ReviewUserAccount
    | PasswordReset
    | ResetRequested
    | VisitToReset
    | YourNewPassword
    | VisitToSignIn
    | LegacyThanksForRegistrationOn(blogId: string)
    | LegacyYourLogin(userId: string)
    | LegacyYourPassword(pwd: string)
    | LegacyRegistrationMadeOn(blogId: string)
    | LegacyUserLogin(userId: string)
    | LegacyUserEmail(email: string)
    | ConfirmationOfActivation
    /** the activation greeting as written, a format whose `$s` is no conversion */
    | ThanksDollarS
    | AccountActivated
    | SignInAt(url: string)
    // comments (src/FrontendBehaviors.php)
    | CommentsLimited
    // back office (src/Backend.php)
    | MarkedPending
    | PublicLoginPage

  /** `__()` with the locale of the request. */
  type Translation = Text -> string

  /** The texts as they appear in the source, formats filled in. */
  function English(t: Text): string {
    match t
    case AccountDisabled => "This account is disabled."
    case AccountNotActivated => "Your account is not yet activated. An administrator will review your account and validate it soon."
    case WrongCredentials => "Wrong username or password."
    case UsernameNotValid => "This username is not valid."
    case UsernameNotAvailable => "This username is not available."
    case EmailsMismatch => "Emails missmatch."
    case EmailNotValid => "Email is not valid."
    case PasswordsMismatchSignup => "Passwords missmatch."
    case PasswordTooShortSignup => "Password must be at lesat 6 characters long."
    case UsernameExists => "Username already exists."
    case RegistrationFailed => "Something went wrong while trying to register user."
    case RegistrationThanks => "Thank you for your registration. An administrator will validate your request soon."
    case NewPasswordMailed => "Your new password is in your mailbox."
    case UnknownUser => "Unknow username or email."
    case AdminUseBackend => "You are an admin, you must change password from backend."
    case RecoveryMailSent(email) => "The e-mail was sent successfully to " + email + "."
    case MustSetNewPassword => "You must set a new password."
    case UserNotFound => "Unable to retrieve user informations."
    case PasswordsDontMatch => "Passwords don't match"
    case PasswordUnchanged => "You didn't change your password."
    case PasswordUpdated => "Password successfully updated."
    case ProfileUpdated => "Profil successfully updated."
    case PasswordVerificationFailed => "Password verification failed."
    case PasswordTooShort => "Password must be 6 or more chars length."
    case PasswordsMismatch => "Passwords mismatch."
    case AccountNotYetActivated => "Account is not yet activated."
    case ConfirmationOfRegistration => "Confirmation of registration"
    case ThanksForRegistrationOn(name) => "Thank you for your registration on blog \"" + name + "\"!"
    case SiteLabel => "Site:"
    case UsernameLabel => "Username:"
    case PasswordLabel => "Password:"
    case EmailLabel => "Email:"
    case ReviewBeforeActivation => "Administrators need to review before activate your account but they will do it as soon as possible."
    case EmailWhenReady => "You will receive an email when it will be ready."
    case NewUserRegistration => "New user registration"
    case RegistrationMadeOn(name, id) => "A new user registration has been made on blog \"" + name + "\" (" + id + ")!"
    case ReviewUserAccount => "Administrators need to review user account and activate it."
    case PasswordReset => "Password reset"
    case ResetRequested => "Someone has requested to reset the password for the following site and username."
    case VisitToReset => "To reset your password visit the following address, otherwise just ignore this email and nothing will happen."
    case YourNewPassword => "Your new password"
    case VisitToSignIn => "To change this password visit the following address and sign in with these idents."
    case LegacyThanksForRegistrationOn(id) => "Thank you for your registration on blog " + id + "!"
    case LegacyYourLogin(u) => "Your login is: " + u
    case LegacyYourPassword(p) => "Your password is: " + p
    case LegacyRegistrationMadeOn(id) => "A new user registration has been made on blog " + id + "!"
    case LegacyUserLogin(u) => "User login is: " + u
    case LegacyUserEmail(e) => "User email is: " + e
    case ConfirmationOfActivation => "Confirmation of activation"
    case ThanksDollarS => "Thank you for your registration on blog \"$s\"!"
    case AccountActivated => "Your account is now activated."
    case SignInAt(url) => "You can now sign in to: " + url
    case CommentsLimited => "Comments creation are limited to registered users."
    case MarkedPending => "User has been successfully marked as pending."
    case PublicLoginPage => "Public login page"
  }
}
