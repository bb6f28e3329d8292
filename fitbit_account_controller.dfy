/** FitbitAccountController: signing up through a Fitbit account. POST
    /fitbit/register hands out the Fitbit authorize URL, or creates a
    passwordless user and mails a confirmation link; GET
    /fitbit/register/callback stores the exchanged OAuth2 token, updating
    the Fitbit account that has it or provisioning an anonymous user for
    it. */
module FitbitAccountController {
  import opened Wrappers
  import Text
  import OAuth2
  import opened IdentityStore
  import EmailConfirmationTokenTools
  import Base64Url

  /** FitbitAppCredentials: the application's client id and secret. */
  datatype FitbitAppCredentials = FitbitAppCredentials(clientId: string, clientSecret: string)

  /** The URL OAuth2Helper.GenerateAuthUrl builds; its text is the
      library's, so the model keeps what it is built from. */
  datatype AuthorizeUrl = AuthorizeUrl(credentials: FitbitAppCredentials, callback: Option<string>, scopes: seq<string>)

  /** The scopes every authorization asks for. */
  const AuthorizeScopes: seq<string> := ["activity", "profile", "location"]

  /** FitbitAccountControllerHelper.GenerateAuthorizeUrl. */
  function GenerateAuthorizeUrl(credentials: FitbitAppCredentials, callback: Option<string>): (url: AuthorizeUrl)
    ensures url.credentials == credentials && url.callback == callback
    ensures url.scopes == AuthorizeScopes
  {
    AuthorizeUrl(credentials, callback, AuthorizeScopes)
  }

  datatype FitbitAccountRegisterModel = FitbitAccountRegisterModel(
    email: Option<string>,
    confirmEmailUrl: Option<string>,
    redirectUrl: Option<string>)

  /** The response body: an authorize URL, or the news that an email went
      out (Url stays null then). */
  datatype FitbitAccountRegisterResponseModel = FitbitAccountRegisterResponseModel(
    url: Option<AuthorizeUrl>,
    emailSent: bool)

  /** ActionResult<FitbitAccountRegisterResponseModel>: a body, a bare
      status, or the exception the action threw. */
  datatype RegisterResult =
    | Response(model: FitbitAccountRegisterResponseModel)
    | Refused(code: StatusCode)
    | Thrown(fault: Fault)

  const ConfirmationSubject := "Bike Data Project email confirmation"

  /** The link the Fitbit sign-up mails: the token base64url-encoded, the
      email as it was given. */
  function FitbitConfirmationLink(confirmEmailUrl: string, issuedToken: string, email: string): Link {
    Link(confirmEmailUrl, ConfirmationQuery(
      EmailConfirmationTokenTools.GenerateEmailConfirmationTokenBase64(issuedToken), email))
  }

  class FitbitAccountController {
    const credentials: FitbitAppCredentials
    const db: ApplicationDbContext
    const signInManager: SignInManager
    const emailSender: EmailSender

    constructor (credentials: FitbitAppCredentials, db: ApplicationDbContext, signInManager: SignInManager,
                 emailSender: EmailSender)
      ensures this.credentials == credentials && this.db == db
      ensures this.signInManager == signInManager && this.emailSender == emailSender
    {
      this.credentials := credentials;
      this.db := db;
      this.signInManager := signInManager;
      this.emailSender := emailSender;
    }

    /** POST /fitbit/register. UserManager's verdicts come in as parameters:
        `createErrors` are the validator's errors besides the store's own
        duplicate-email check, `issuedToken` the confirmation token the store issues. The
        session is never changed. */
    method Register(model: FitbitAccountRegisterModel, createErrors: seq<string>, issuedToken: string)
      returns (r: RegisterResult)
      requires db.Valid()
      modifies db, emailSender
      ensures db.Valid()
      ensures old(signInManager.IsSignedIn()) && !Text.IsBlank(model.email) ==>
        r == Refused(Conflict) && unchanged(db, emailSender)
      ensures Text.IsBlank(model.email) ==>
        r == Response(FitbitAccountRegisterResponseModel(Some(GenerateAuthorizeUrl(credentials, model.redirectUrl)), false)) &&
        unchanged(db, emailSender)
      ensures !old(signInManager.IsSignedIn()) && !Text.IsBlank(model.email) && Text.IsBlank(model.confirmEmailUrl) ==>
        r == Refused(BadRequest) && unchanged(db, emailSender)
      ensures !old(signInManager.IsSignedIn()) && !Text.IsBlank(model.email) && !Text.IsBlank(model.confirmEmailUrl) ==>
        var duplicate := old(db.FindByEmail(model.email.value)).Some? || DuplicateEmail in createErrors;
        (duplicate ==> r == Refused(Conflict) && unchanged(db, emailSender)) &&
        (!duplicate && createErrors != [] ==>
          r == Thrown(CreateUserFailed) && unchanged(db, emailSender)) &&
        (!duplicate && createErrors == [] ==>
          r == Response(FitbitAccountRegisterResponseModel(None, true)) &&
          db.users == old(db.users) + [ApplicationUser(old(db.nextUserId), model.email, model.email, false, None, None)] &&
          db.fitbitUsers == old(db.fitbitUsers) &&
          emailSender.outbox == old(emailSender.outbox) +
            [Mail(model.email.value, Some(ConfirmationSubject),
              FitbitConfirmationLink(model.confirmEmailUrl.value, issuedToken, model.email.value))])
    {
      if signInManager.IsSignedIn() {
        if !Text.IsBlank(model.email) {
          return Refused(Conflict);
        }
        return Response(FitbitAccountRegisterResponseModel(Some(GenerateAuthorizeUrl(credentials, model.redirectUrl)), false));
      }
      if Text.IsBlank(model.email) {
        return Response(FitbitAccountRegisterResponseModel(Some(GenerateAuthorizeUrl(credentials, model.redirectUrl)), false));
      }
      if Text.IsBlank(model.confirmEmailUrl) {
        return Refused(BadRequest);
      }
      var errors, user := db.CreateAsync(model.email, model.email.value, None, None, createErrors);
      if errors != [] {
        if DuplicateEmail in errors {
          return Refused(Conflict);
        }
        return Thrown(CreateUserFailed);
      }
      var confirmationToken := EmailConfirmationTokenTools.GenerateEmailConfirmationTokenBase64(issuedToken);
      var link := Link(model.confirmEmailUrl.value, ConfirmationQuery(confirmationToken, user.email.value));
      emailSender.Send(Mail(model.email.value, Some(ConfirmationSubject), link));
      return Response(FitbitAccountRegisterResponseModel(None, true));
    }

    /** GET /fitbit/register/callback. The Fitbit calls are parameters:
        `newToken` is what exchanging the code gave (None for null),
        `displayName` the profile's DisplayName, `now` the clock. */
    method RegisterCallback(newToken: Option<OAuth2.OAuth2AccessToken>, displayName: Option<string>, now: int)
      returns (r: ActionResult)
      requires db.Valid()
      modifies db, signInManager
      ensures db.Valid()
      ensures newToken.None? ==> r == Status(NotFound) && unchanged(db, signInManager)
      ensures newToken.Some? ==>
        var token := newToken.value;
        var stored := old(db.FindFitbitUser(token.userId));
        (stored.Some? ==>
          r == Status(Ok) &&
          db.fitbitUsers == old(db.fitbitUsers)[stored.value := old(db.fitbitUsers)[stored.value].(
            scope := token.scope, token := token.token, expiresIn := token.expiresIn,
            refreshToken := token.refreshToken, tokenType := token.tokenType, tokenCreated := now)] &&
          db.users == old(db.users) && unchanged(signInManager) &&
          db.nextUserId == old(db.nextUserId) && db.nextFitbitId == old(db.nextFitbitId)) &&
        (stored.None? && old(signInManager.signedIn).Some? ==>
          r == (if old(db.FindById(signInManager.signedIn.value)).None? then Raised(UserNotLoaded) else Status(Ok)) &&
          unchanged(db, signInManager)) &&
        (stored.None? && old(signInManager.signedIn).None? ==>
          var user := ApplicationUser(old(db.nextUserId), displayName, None, false, None, None);
          r == Status(Ok) &&
          db.users == old(db.users) + [user] &&
          db.fitbitUsers == old(db.fitbitUsers) + [FitbitUser(old(db.nextFitbitId), user.id,
            token.token, token.tokenType, token.scope, token.expiresIn, token.refreshToken, token.userId,
            now, false, None, None, None)] &&
          db.nextUserId == old(db.nextUserId) + 1 && db.nextFitbitId == old(db.nextFitbitId) + 1 &&
          signInManager.signedIn == Some(user.id))
    {
      if newToken.None? {
        return Status(NotFound);
      }
      var token := newToken.value;
      var k := db.FindFitbitUser(token.userId);
      if k.Some? {
        db.UpdateFitbitToken(k.value, token, now);
        return Status(Ok);
      }
      if signInManager.IsSignedIn() {
        var existing := db.FindById(signInManager.signedIn.value);
        if existing.None? {
          return Raised(UserNotLoaded);
        }
        return Status(Ok);
      }
      var user := db.AddUser(displayName);
      UserIdsAppend(old(db.users), user);
      var fitbitUser := db.AddFitbitUser(user.id, token, now);
      signInManager.SignInAsync(user.id);
      return Status(Ok);
    }
  }

  /** Two callbacks for one Fitbit user id, with nobody signed in: the first
      provisions an anonymous user and its Fitbit account and signs it in;
      the second finds that account and only replaces its token, so one
      user and one Fitbit account result, holding the second token. */
  method CallbackThenReplay(controller: FitbitAccountController, first: OAuth2.OAuth2AccessToken,
                            second: OAuth2.OAuth2AccessToken, displayName: Option<string>, created: int, now: int)
    returns (r1: ActionResult, r2: ActionResult)
    requires controller.db.Valid()
    requires controller.signInManager.signedIn.None?
    requires controller.db.FindFitbitUser(first.userId).None?
    requires second.userId == first.userId
    modifies controller.db, controller.signInManager
    ensures controller.db.Valid()
    ensures r1 == Status(Ok) && r2 == Status(Ok)
    ensures var user := ApplicationUser(old(controller.db.nextUserId), displayName, None, false, None, None);
      controller.db.users == old(controller.db.users) + [user] &&
      controller.db.fitbitUsers == old(controller.db.fitbitUsers) + [FitbitUser(old(controller.db.nextFitbitId), user.id,
        second.token, second.tokenType, second.scope, second.expiresIn, second.refreshToken, first.userId,
        now, false, None, None, None)] &&
      controller.signInManager.signedIn == Some(user.id)
  {
    ghost var before := controller.db.fitbitUsers;
    r1 := controller.RegisterCallback(Some(first), displayName, created);
    assert controller.db.fitbitUsers[|before|].userId == first.userId;
    assert controller.db.FindFitbitUser(first.userId) == Some(|before|);
    r2 := controller.RegisterCallback(Some(second), displayName, now);
  }

  /** Register's link carries the email unencoded, while ConfirmEmail
      base64url-decodes its email parameter: an address with an '@' in it
      never decodes, so that link cannot confirm it. */
  lemma FitbitLinkEmailRejected(email: string, i: nat)
    requires i < |email| && email[i] == '@'
    ensures EmailConfirmationTokenTools.DecodeBase64(email).Failure?
  {
    assert Base64Url.IsForeign(email[i]);
    EmailConfirmationTokenTools.DecodeBase64RejectsForeign(email, i);
  }
}
