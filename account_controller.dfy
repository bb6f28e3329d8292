/** AccountController: local accounts. Login and Logout, registration
    (with or without a password) that mails a confirmation link and signs
    the new user in, and the confirmation of that link. */
module AccountController {
  import opened Wrappers
  import Text
  import opened IdentityStore
  import RegisterModel
  import EmailConfirmationTokenTools

  /** SignInManager.PasswordSignInAsync's verdict; a success names the user
      it signed in. */
  datatype SignInResult = Succeeded(user: UserId) | RequiresTwoFactor | LockedOut | NotAllowed | Failed

  /** The link Register mails: both parameters base64url-encoded. */
  function RegisterConfirmationLink(confirmEmailUrl: string, issuedToken: string, email: string): Link {
    Link(confirmEmailUrl, ConfirmationQuery(
      EmailConfirmationTokenTools.GenerateEmailConfirmationTokenBase64(issuedToken),
      EmailConfirmationTokenTools.EncodeBase64(email)))
  }

  /** The user Register creates for a valid model. */
  function NewUser(id: UserId, model: RegisterModel.RegisterModel, passwordHash: string): ApplicationUser
    requires model.email.Some?
  {
    ApplicationUser(id, model.email, model.email, false,
      if Text.IsBlank(model.password) then None else Some(passwordHash),
      model.functionalName)
  }

  class AccountController {
    const db: ApplicationDbContext
    const signInManager: SignInManager
    const emailSender: EmailSender

    constructor (db: ApplicationDbContext, signInManager: SignInManager, emailSender: EmailSender)
      ensures this.db == db && this.signInManager == signInManager && this.emailSender == emailSender
    {
      this.db := db;
      this.signInManager := signInManager;
      this.emailSender := emailSender;
    }

    /** POST login: `modelStateValid` is the LoginModel's validation and
        `result` the password sign-in's verdict, which on success has
        signed the user in. */
    method Login(modelStateValid: bool, result: SignInResult) returns (r: ActionResult)
      modifies signInManager
      ensures !modelStateValid ==> r == Status(BadRequest) && unchanged(signInManager)
      ensures modelStateValid && result.Succeeded? ==>
        r == Status(Ok) && signInManager.signedIn == Some(result.user)
      ensures modelStateValid && (result.RequiresTwoFactor? || result.LockedOut?) ==>
        r == Raised(NotImplemented) && unchanged(signInManager)
      ensures modelStateValid && (result.NotAllowed? || result.Failed?) ==>
        r == Status(Unauthorized) && unchanged(signInManager)
    {
      if !modelStateValid {
        return Status(BadRequest);
      }
      if result.Succeeded? {
        signInManager.SignInAsync(result.user);
        return Status(Ok);
      }
      if result.RequiresTwoFactor? {
        return Raised(NotImplemented);
      }
      if result.LockedOut? {
        return Raised(NotImplemented);
      } else {
        return Status(Unauthorized);
      }
    }

    /** GET confirmemail?email=..&token=..: both parameters arrive
        base64url-encoded; `accepts` is the token provider's verdict on a
        (user, decoded token) pair. */
    method ConfirmEmail(email: Option<string>, token: Option<string>, modelStateValid: bool,
                        accepts: (UserId, string) -> bool)
      returns (r: ActionResult)
      requires db.Valid()
      modifies db, signInManager
      ensures db.Valid()
      ensures !modelStateValid ==> r == Status(BadRequest) && unchanged(db, signInManager)
      ensures modelStateValid && email.None? ==> r == Raised(ArgumentNull) && unchanged(db, signInManager)
      ensures modelStateValid && email.Some? && EmailConfirmationTokenTools.DecodeBase64(email.value).Failure? ==>
        r == Raised(MalformedBase64) && unchanged(db, signInManager)
      ensures modelStateValid && email.Some? && EmailConfirmationTokenTools.DecodeBase64(email.value).Success? ==>
        var k := old(db.FindByEmail(EmailConfirmationTokenTools.DecodeBase64(email.value).value));
        (k.None? ==> r == Status(BadRequest) && unchanged(db, signInManager)) &&
        (k.Some? && token.None? ==> r == Raised(ArgumentNull) && unchanged(db, signInManager)) &&
        (k.Some? && token.Some? && EmailConfirmationTokenTools.DecodeConfirmationToken(token.value).Failure? ==>
          r == Raised(MalformedBase64) && unchanged(db, signInManager)) &&
        (k.Some? && token.Some? && EmailConfirmationTokenTools.DecodeConfirmationToken(token.value).Success? ==>
          var user := old(db.users)[k.value];
          if accepts(user.id, EmailConfirmationTokenTools.DecodeConfirmationToken(token.value).value) then
            r == Status(Ok) &&
            db.users == old(db.users)[k.value := user.(emailConfirmed := true)] &&
            db.fitbitUsers == old(db.fitbitUsers) &&
            signInManager.signedIn == Some(user.id)
          else
            r == Status(BadRequest) && unchanged(db, signInManager))
    {
      if !modelStateValid {
        return Status(BadRequest);
      }
      if email.None? {
        return Raised(ArgumentNull);
      }
      var decodedEmail := EmailConfirmationTokenTools.DecodeBase64(email.value);
      if decodedEmail.Failure? {
        return Raised(MalformedBase64);
      }
      var k := db.FindByEmail(decodedEmail.value);
      if k.None? {
        return Status(BadRequest);
      }
      if token.None? {
        return Raised(ArgumentNull);
      }
      var decodeToken := EmailConfirmationTokenTools.DecodeConfirmationToken(token.value);
      if decodeToken.Failure? {
        return Raised(MalformedBase64);
      }
      var user := db.users[k.value];
      if !accepts(user.id, decodeToken.value) {
        return Status(BadRequest);
      }
      db.ConfirmEmail(k.value);
      signInManager.SignInAsync(user.id);
      return Status(Ok);
    }

    /** POST register. The library's decisions are parameters: the hash of
        a non-blank password (never blank itself), the user validator's
        errors, and the email confirmation token the store issues. */
    method Register(model: RegisterModel.RegisterModel, passwordHash: string, createErrors: seq<string>,
                    issuedToken: string)
      returns (r: ActionResult)
      requires db.Valid()
      requires !Text.IsBlank(Some(passwordHash))
      modifies db, signInManager, emailSender
      ensures db.Valid()
      ensures !RegisterModel.IsValid(model) ==>
        r == Status(BadRequest) && unchanged(db, signInManager, emailSender)
      ensures RegisterModel.IsValid(model) ==>
        var existing := old(db.FindByEmail(model.email.value));
        (existing.Some? && !Text.IsBlank(old(db.users)[existing.value].passwordHash) ==>
          r == Status(Conflict) && unchanged(db, signInManager, emailSender)) &&
        (existing.Some? && Text.IsBlank(old(db.users)[existing.value].passwordHash) ==>
          r == Status(Ok) && signInManager.signedIn == Some(old(db.users)[existing.value].id) &&
          unchanged(db, emailSender)) &&
        (existing.None? && createErrors != [] ==>
          r == Status(Unauthorized) && unchanged(db, signInManager, emailSender)) &&
        (existing.None? && createErrors == [] ==>
          var user := NewUser(old(db.nextUserId), model, passwordHash);
          db.users == old(db.users) + [user] && db.fitbitUsers == old(db.fitbitUsers) &&
          (model.confirmEmailUrl.None? ==>
            r == Raised(ArgumentNull) && unchanged(signInManager, emailSender)) &&
          (model.confirmEmailUrl.Some? && Text.IsBlank(model.confirmEmailUrl) ==>
            r == Raised(InvalidUri) && unchanged(signInManager, emailSender)) &&
          (!Text.IsBlank(model.confirmEmailUrl) ==>
            r == Status(Ok) &&
            emailSender.outbox == old(emailSender.outbox) +
              [Mail(model.email.value, None, RegisterConfirmationLink(model.confirmEmailUrl.value, issuedToken, model.email.value))] &&
            signInManager.signedIn == Some(user.id)))
    {
      if !RegisterModel.IsValid(model) {
        return Status(BadRequest);
      }
      var existing := db.FindByEmail(model.email.value);
      if existing.Some? {
        var existingUser := db.users[existing.value];
        if !Text.IsBlank(existingUser.passwordHash) {
          return Status(Conflict);
        }
        signInManager.SignInAsync(existingUser.id);
        return Status(Ok);
      }
      var hash: Option<string>;
      if Text.IsBlank(model.password) {
        hash := None;
      } else {
        hash := Some(passwordHash);
      }
      assert createErrors + [] == createErrors;
      var errors, user := db.CreateAsync(model.email, model.email.value, model.functionalName, hash, createErrors);
      if errors == [] {
        var confirmationTokenEncoded := EmailConfirmationTokenTools.GenerateEmailConfirmationTokenBase64(issuedToken);
        var emailEncoded := EmailConfirmationTokenTools.EncodeBase64(user.email.value);
        if model.confirmEmailUrl.None? {
          return Raised(ArgumentNull);
        }
        if Text.IsBlank(model.confirmEmailUrl) {
          return Raised(InvalidUri);
        }
        var link := Link(model.confirmEmailUrl.value, ConfirmationQuery(confirmationTokenEncoded, emailEncoded));
        emailSender.Send(Mail(model.email.value, None, link));
        signInManager.SignInAsync(user.id);
        return Status(Ok);
      }
      return Status(Unauthorized);
    }

    /** POST logout. */
    method Logout() returns (r: ActionResult)
      modifies signInManager
      ensures r == Status(Ok) && signInManager.signedIn == None
    {
      signInManager.SignOutAsync();
      return Status(Ok);
    }
  }

  /** Register on its success path: a valid model with a usable link URL,
      an address nobody holds and no validator errors. The new user is the
      last one, so looking its address up finds it. */
  method RegisterFresh(controller: AccountController, model: RegisterModel.RegisterModel, passwordHash: string,
                       issuedToken: string)
    returns (r: ActionResult)
    requires controller.db.Valid()
    requires !Text.IsBlank(Some(passwordHash))
    requires RegisterModel.IsValid(model) && !Text.IsBlank(model.confirmEmailUrl)
    requires controller.db.FindByEmail(model.email.value).None?
    modifies controller.db, controller.signInManager, controller.emailSender
    ensures controller.db.Valid()
    ensures r == Status(Ok)
    ensures controller.emailSender.outbox == old(controller.emailSender.outbox) +
      [Mail(model.email.value, None, RegisterConfirmationLink(model.confirmEmailUrl.value, issuedToken, model.email.value))]
    ensures var user := NewUser(old(controller.db.nextUserId), model, passwordHash);
      controller.db.users == old(controller.db.users) + [user] &&
      controller.db.FindByEmail(model.email.value) == Some(|old(controller.db.users)|) &&
      controller.signInManager.signedIn == Some(user.id)
  {
    ghost var before := controller.db.users;
    ghost var user := NewUser(controller.db.nextUserId, model, passwordHash);
    r := controller.Register(model, passwordHash, [], issuedToken);
    assert controller.db.users == before + [user];
    assert controller.db.users[|before|] == user;
  }

  /** ConfirmEmail on a link built as Register builds it, for a stored
      address: the parameters decode back, so the holder of the address is
      confirmed and signed in when the provider accepts the token. */
  method ConfirmLink(controller: AccountController, email: string, issuedToken: string,
                     accepts: (UserId, string) -> bool)
    returns (r: ActionResult)
    requires controller.db.Valid()
    requires controller.db.FindByEmail(email).Some?
    requires accepts(controller.db.users[controller.db.FindByEmail(email).value].id, issuedToken)
    modifies controller.db, controller.signInManager
    ensures controller.db.Valid()
    ensures r == Status(Ok)
    ensures var k := old(controller.db.FindByEmail(email).value);
      controller.db.users == old(controller.db.users)[k := old(controller.db.users)[k].(emailConfirmed := true)] &&
      controller.signInManager.signedIn == Some(old(controller.db.users)[k].id)
  {
    var encodedEmail := EmailConfirmationTokenTools.EncodeBase64(email);
    var token := EmailConfirmationTokenTools.GenerateEmailConfirmationTokenBase64(issuedToken);
    EmailConfirmationTokenTools.DecodeEncodeBase64(email);
    EmailConfirmationTokenTools.DecodeGeneratedToken(issuedToken);
    r := controller.ConfirmEmail(Some(encodedEmail), Some(token), true, accepts);
  }

  /** Registering a new address and then following the mailed link: the
      link's two parameters lead ConfirmEmail to the new user, whose email
      is confirmed and who is signed in, provided the token provider accepts
      the token it issued. */
  method RegisterThenConfirm(controller: AccountController, model: RegisterModel.RegisterModel, passwordHash: string,
                             issuedToken: string, accepts: (UserId, string) -> bool)
    returns (registered: ActionResult, confirmed: ActionResult)
    requires controller.db.Valid()
    requires !Text.IsBlank(Some(passwordHash))
    requires RegisterModel.IsValid(model) && !Text.IsBlank(model.confirmEmailUrl)
    requires controller.db.FindByEmail(model.email.value).None?
    requires accepts(controller.db.nextUserId, issuedToken)
    modifies controller.db, controller.signInManager, controller.emailSender
    ensures controller.db.Valid()
    ensures registered == Status(Ok) && confirmed == Status(Ok)
    ensures var link := RegisterConfirmationLink(model.confirmEmailUrl.value, issuedToken, model.email.value);
      controller.emailSender.outbox == old(controller.emailSender.outbox) + [Mail(model.email.value, None, link)]
    ensures var user := NewUser(old(controller.db.nextUserId), model, passwordHash);
      controller.db.users == old(controller.db.users) + [user.(emailConfirmed := true)] &&
      controller.signInManager.signedIn == Some(user.id)
  {
    ghost var before := controller.db.users;
    ghost var user := NewUser(controller.db.nextUserId, model, passwordHash);
    registered := RegisterFresh(controller, model, passwordHash, issuedToken);
    confirmed := ConfirmLink(controller, model.email.value, issuedToken, accepts);
    assert (before + [user])[|before| := user.(emailConfirmed := true)] == before + [user.(emailConfirmed := true)];
  }
}
