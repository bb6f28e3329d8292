# Bike Data Project identity API, modelled in Dafny

This project models the account core of the Bike Data Project identity API, an
ASP.NET Core service built on ASP.NET Identity and IdentityServer. It covers:

- **Local accounts** (`AccountController`): password login, logout, and
  registration with or without a password. Registration mails a confirmation
  link and signs the new user in. The model also covers confirming the email
  address through that link.
- **Fitbit sign-up** (`FitbitAccountController`):
  - POST `/fitbit/register` hands out the Fitbit authorize URL, or creates a
    passwordless user and mails a confirmation link.
  - The OAuth2 callback either updates the Fitbit account that holds the
    exchanged token, or provisions an anonymous user with a linked Fitbit
    account and signs it in.
- **The confirmation-link codec** (`EmailConfirmationTokenTools`): UTF-8, then
  base64url without padding (section 5 of RFC 4648), and its inverse. It is
  modelled down to the byte level, including the decoder's error cases.
- **Fitbit token freshness** (`OAuth2AccessToken.IsFresh`), with 32-bit negation
  of the tolerance written out.
- **Register-request validation**: the `[Required]`, `[StringLength]` and
  `[EmailAddress]` attributes of `RegisterModel`.
- **Configuration**:
  - `GetValueOrDefault`, both overloads;
  - the Postgres connection-string builder;
  - `GetDeployTimeSettings` over a configuration builder.
- **Idempotent seeding** of IdentityServer's clients, identity resources and API
  resources (`InitialData.Initialize`).
- **The Swagger UI's external-path rewrite** (`TransformToExternalPath`).

## How the system is represented

The database, the session and the mail outbox are objects, as in the service:

- `IdentityStore.ApplicationDbContext` holds the users and Fitbit accounts as
  sequences. `Valid()` is the invariant every operation keeps:
  - ids are unique;
  - normalised emails are unique (the API sets `RequireUniqueEmail`);
  - Fitbit user ids are unique;
  - every Fitbit account belongs to a stored user.
- `SignInManager` holds the signed-in user, if any.
- `EmailSender` records every mail it sends.

The controller actions are methods on classes that hold these three objects.
Each action's `ensures` gives the result and the new state for every branch.

Decisions made by library code, the network or the clock come in as
parameters:

- the password sign-in verdict;
- the token provider's verdict on a confirmation token;
- the user validator's errors other than the duplicate-email check;
- the confirmation token the store issues, and the password hash (a non-blank string, as a hash always is);
- the token exchanged with Fitbit (`None` for null) and the profile's display
  name;
- the current time, in whole seconds.

A C# `null` is `None` of an `Option`. An exception is a `Raised`/`Thrown`/`Failure`
value naming it. GUID user ids and the Fitbit identity column are counters.

Behaviours of the code worth knowing:

- **Token freshness.** A token is still fresh at the exact moment
  `created + ExpiresIn - tolerance`, because the code's test is a strict `<`.
- **Signed-in callback with no matching Fitbit account.** The callback only
  loads the signed-in user, and fails when that user is missing. It links no
  Fitbit account, although the comments at
  `src/BikeDataProject.Identity.API/Controllers/Integrations/Fitbit/FitbitAccountController.cs:129-130`
  and `:173-174` say the Fitbit account is added to the logged-in user.
- **Fitbit confirmation link.** The link puts the email into the query
  unencoded. `AccountController.ConfirmEmail` base64url-decodes its email
  parameter, so an address containing '@' never decodes
  (`FitbitLinkEmailRejected`). The local-account link, by contrast, round-trips
  (`RegisterThenConfirm`).
- **Passwordless accounts on local registration.** When a valid local
  registration names the email of a stored user without a password,
  `AccountController.Register` signs that user in on the strength of the email
  alone (the second clause of its `ensures`). The accounts the Fitbit sign-up
  creates are of this kind.

## Model

| member | source | states |
|---|---|---|
| AccountController.AccountController.Login | src/BikeDataProject.Identity.API/Controllers/AccountController.cs:41-69 | An invalid model gives BadRequest. A successful sign-in gives Ok, with the session set to that user. Two-factor or locked-out raises NotImplemented. Anything else gives Unauthorized. Only success touches the session. |
| AccountController.AccountController.ConfirmEmail | src/BikeDataProject.Identity.API/Controllers/AccountController.cs:79-104 | Checks run in the code's order: model state, null email, undecodable email, unknown user, null token, undecodable token, rejected token. Each failure leaves the store and session unchanged. Success confirms exactly that user's email and signs that user in. |
| AccountController.AccountController.Register | src/BikeDataProject.Identity.API/Controllers/AccountController.cs:108-171 | An invalid model gives BadRequest with no change. An existing user with a password gives Conflict with no change. An existing passwordless user is signed in, with nothing created or sent. A create failure gives Unauthorized with no change. Otherwise exactly one user is appended: UserName = Email = model email, the model's functional name, and a password exactly when the model's password is non-blank. For a usable URL, one mail goes to the model email with `token=<base64url token>&email=<base64url email>`, and the new user is signed in. The store invariant is kept. |
| AccountController.AccountController.Logout | src/BikeDataProject.Identity.API/Controllers/AccountController.cs:174-179 | Always Ok; the session is cleared. |
| AccountController.RegisterThenConfirm | src/BikeDataProject.Identity.API/Controllers/AccountController.cs:84-102 | Following the link Register mails, ConfirmEmail finds the new user, confirms its email and signs it in, when the provider accepts the issued token. |
| AccountController.RegisterFresh | src/BikeDataProject.Identity.API/Controllers/AccountController.cs:140-168 | For a valid model, a usable link URL, an unused address and no validator errors, Register returns Ok, appends exactly the new user, mails the base64url link, signs the user in, and a lookup of the address then finds that user. |
| AccountController.ConfirmLink | src/BikeDataProject.Identity.API/Controllers/AccountController.cs:84-102 | A link whose parameters are encoded as Register encodes them, for a stored address whose token the provider accepts, confirms exactly that user's email and signs that user in. |
| FitbitAccountController.GenerateAuthorizeUrl | src/BikeDataProject.Identity.API/Controllers/Integrations/Fitbit/FitbitAccountControllerHelper.cs:15-22 | The authorize URL is built from the app credentials and the given callback, with scopes exactly activity, profile, location. |
| FitbitAccountController.FitbitAccountController.Register | src/BikeDataProject.Identity.API/Controllers/Integrations/Fitbit/FitbitAccountController.cs:42-115 | Signed in with a non-blank email gives Conflict. A blank email (signed in or not) gives only an authorize URL with EmailSent false. Otherwise a blank ConfirmEmailUrl gives BadRequest. A duplicate email gives Conflict. Any other create error is thrown. In all these cases nothing changes. On success exactly one user is added (UserName = Email = the email, no password), one mail goes to that address with the fixed subject and `token=<base64url token>&email=<raw email>`, and the response is EmailSent true with no URL. The session is never touched. |
| FitbitAccountController.FitbitAccountController.RegisterCallback | src/BikeDataProject.Identity.API/Controllers/Integrations/Fitbit/FitbitAccountController.cs:124-229 | A null token gives NotFound with no change. If a Fitbit account has the token's user id, the first one gets the new scope, token, expiry, refresh token, type and creation time; nothing else changes, and both id counters stay. With no match and a session, nothing changes, and the result is an error exactly when the session user is not stored. With no match and no session, one anonymous user (the display name, no email) and one Fitbit account bound to it are added, each id counter moves up by one, and that user is signed in. The store invariant, including unique Fitbit user ids, is kept. |
| FitbitAccountController.CallbackThenReplay | src/BikeDataProject.Identity.API/Controllers/Integrations/Fitbit/FitbitAccountController.cs:151-225 | Two callbacks for one Fitbit user id with no session give one new user and one Fitbit account, holding the second token, with that user signed in. |
| FitbitAccountController.FitbitLinkEmailRejected | src/BikeDataProject.Identity.API/Controllers/Integrations/Fitbit/FitbitAccountController.cs:103-106 | An email parameter containing '@', as the Fitbit link sends it, fails ConfirmEmail's base64url decoder. |
| IdentityStore.ApplicationDbContext.FindByEmail | src/BikeDataProject.Identity.API/Controllers/AccountController.cs:113 | Returns the index of a user whose normalised email matches, or None exactly when no user's does. |
| IdentityStore.ApplicationDbContext.FindById | src/BikeDataProject.Identity.API/Controllers/Integrations/Fitbit/FitbitAccountController.cs:175 | Returns the index of the user with that id, or None exactly when the id is not stored. |
| IdentityStore.ApplicationDbContext.FindFitbitUser | src/BikeDataProject.Identity.API/Controllers/Integrations/Fitbit/FitbitAccountController.cs:151-153 | Returns the first Fitbit account with that Fitbit user id, or None when there is none. |
| IdentityStore.ApplicationDbContext.CreateAsync | src/BikeDataProject.Identity.API/Controllers/AccountController.cs:129-146 | The errors are the validator's plus DuplicateEmail when the normalised email is taken. The user is appended, with a fresh id and an unconfirmed email, exactly when there are no errors. The invariant is kept. |
| IdentityStore.ApplicationDbContext.AddUser | src/BikeDataProject.Identity.API/Controllers/Integrations/Fitbit/FitbitAccountController.cs:199-204 | Appends one user with a fresh id, the given UserName and no email or password. |
| IdentityStore.ApplicationDbContext.AddFitbitUser | src/BikeDataProject.Identity.API/Controllers/Integrations/Fitbit/FitbitAccountController.cs:207-220 | Appends one Fitbit account with a fresh id, bound to a stored user. The token fields are copied, TokenCreated is now, and the sync fields are at their defaults. |
| IdentityStore.ApplicationDbContext.UpdateFitbitToken | src/BikeDataProject.Identity.API/Controllers/Integrations/Fitbit/FitbitAccountController.cs:157-165 | Replaces exactly the five token fields and TokenCreated of one Fitbit account; everything else is unchanged. |
| IdentityStore.ApplicationDbContext.ConfirmEmail | src/BikeDataProject.Identity.API/Controllers/AccountController.cs:93 | Sets EmailConfirmed on exactly one user and keeps the invariant. |
| IdentityStore.SignInManager.SignInAsync | src/BikeDataProject.Identity.API/Controllers/AccountController.cs:163 | The session becomes the given user. |
| IdentityStore.SignInManager.SignOutAsync | src/BikeDataProject.Identity.API/Controllers/AccountController.cs:176 | The session is cleared. |
| IdentityStore.EmailSender.Send | src/BikeDataProject.Identity.API/Controllers/AccountController.cs:159-160 | Appends exactly the given mail to the outbox. |
| IdentityStore.FirstIndex | src/BikeDataProject.Identity.API/Controllers/Integrations/Fitbit/FitbitAccountController.cs:151-153 | Returns the first index satisfying the predicate, or None when no element does. |
| IdentityStore.UserIdsAppend | src/BikeDataProject.Identity.API/Controllers/Integrations/Fitbit/FitbitAccountController.cs:203 | Appending a user adds exactly its id to the stored ids. |
| EmailConfirmationTokenTools.GenerateEmailConfirmationTokenBase64 | src/BikeDataProject.Identity.API/Extensions/EmailConfirmationTokenTools.cs:17-22 | The token uses only the base64url alphabet, and is the same encoding EncodeBase64 gives the email, so both link parameters use one codec. |
| EmailConfirmationTokenTools.EncodeBase64 | src/BikeDataProject.Identity.API/Extensions/EmailConfirmationTokenTools.cs:29-33 | The encoding uses only the base64url alphabet. Its length is 4·⌊n/3⌋ plus 0, 2 or 3, where n is the UTF-8 byte count. |
| EmailConfirmationTokenTools.DecodeConfirmationToken | src/BikeDataProject.Identity.API/Extensions/EmailConfirmationTokenTools.cs:40-44 | A length ≡ 1 (mod 4) is a format error. |
| EmailConfirmationTokenTools.DecodeBase64 | src/BikeDataProject.Identity.API/Extensions/EmailConfirmationTokenTools.cs:51-55 | A length ≡ 1 (mod 4) is a format error. |
| EmailConfirmationTokenTools.DecodeEncodeBase64 | src/BikeDataProject.Identity.API/Extensions/EmailConfirmationTokenTools.cs:29-33 | DecodeBase64(EncodeBase64(s)) = s for every string. |
| EmailConfirmationTokenTools.DecodeGeneratedToken | src/BikeDataProject.Identity.API/Extensions/EmailConfirmationTokenTools.cs:40-44 | Decoding the generated token gives back exactly the issued token. |
| EmailConfirmationTokenTools.EncodeBase64Injective | src/BikeDataProject.Identity.API/Extensions/EmailConfirmationTokenTools.cs:29-33 | Distinct strings never share an encoding. |
| EmailConfirmationTokenTools.DecodersAgree | src/BikeDataProject.Identity.API/Extensions/EmailConfirmationTokenTools.cs:40-55 | The two decoders are the same function. |
| EmailConfirmationTokenTools.DecodeBase64RejectsForeign | src/BikeDataProject.Identity.API/Extensions/EmailConfirmationTokenTools.cs:42-53 | A character outside both base64 alphabets, other than padding and white space, makes both decoders fail. |
| Base64Url.Encode | src/BikeDataProject.Identity.API/Extensions/EmailConfirmationTokenTools.cs:21 | The output is unpadded, of length 4·⌊n/3⌋ + (0, 2, 3), over `A-Z a-z 0-9 - _`. |
| Base64Url.Decode | src/BikeDataProject.Identity.API/Extensions/EmailConfirmationTokenTools.cs:42 | An input of length ≡ 1 (mod 4) is rejected before conversion. |
| Base64Url.DecodeEncode | src/BikeDataProject.Identity.API/Extensions/EmailConfirmationTokenTools.cs:21-42 | Decode(Encode(b)) = b for every byte sequence. |
| Base64Url.EncodeInjective | src/BikeDataProject.Identity.API/Extensions/EmailConfirmationTokenTools.cs:21 | Distinct byte sequences have distinct encodings. |
| Base64Url.EncodeIsUrlSafe | src/BikeDataProject.Identity.API/Extensions/EmailConfirmationTokenTools.cs:21 | No encoded character is `=`, `+`, `/`, `&`, `?`, `#` or `%`. |
| Base64Url.DecodeRejectsForeign | src/BikeDataProject.Identity.API/Extensions/EmailConfirmationTokenTools.cs:42 | A foreign character anywhere makes decoding fail. |
| Utf8.Encode | src/BikeDataProject.Identity.API/Extensions/EmailConfirmationTokenTools.cs:20 | Each character takes one to four bytes. |
| Utf8.Decode | src/BikeDataProject.Identity.API/Extensions/EmailConfirmationTokenTools.cs:43 | Never yields more characters than bytes. |
| Utf8.DecodeEncode | src/BikeDataProject.Identity.API/Extensions/EmailConfirmationTokenTools.cs:20-43 | Decode(Encode(s)) = s for every string of Unicode scalar values. |
| Utf8.EncodeInjective | src/BikeDataProject.Identity.API/Extensions/EmailConfirmationTokenTools.cs:31 | Distinct strings have distinct encodings. |
| OAuth2.Negate | src/Fitbit/OAuth2/OAuth2AccessToken.cs:28 | 32-bit negation: -x, except that Int32.MinValue stays MinValue. |
| OAuth2.IsFresh | src/Fitbit/OAuth2/OAuth2AccessToken.cs:26-35 | Fresh exactly when now ≤ created + ExpiresIn − tolerance, for every tolerance except Int32.MinValue. |
| OAuth2.FreshAtBoundary | src/Fitbit/OAuth2/OAuth2AccessToken.cs:29 | Fresh at exactly created + ExpiresIn − tolerance, and stale one second later. |
| OAuth2.DefaultToleranceIsTenMinutes | src/Fitbit/OAuth2/OAuth2AccessToken.cs:26 | The default tolerance is 600 seconds. |
| OAuth2.FreshEarlier | src/Fitbit/OAuth2/OAuth2AccessToken.cs:28-29 | Fresh now implies fresh at every earlier time. |
| OAuth2.StaleUnderLargerTolerance | src/Fitbit/OAuth2/OAuth2AccessToken.cs:28 | Raising the tolerance never turns a stale token fresh. |
| OAuth2.StaleWithShorterLifetime | src/Fitbit/OAuth2/OAuth2AccessToken.cs:28 | Lowering ExpiresIn never turns a stale token fresh. |
| OAuth2.MinValueToleranceWraps | src/Fitbit/OAuth2/OAuth2AccessToken.cs:28 | With tolerance Int32.MinValue the negation wraps, so the token is stale where tolerance MinValue + 1 finds it fresh. |
| RegisterModel.EmailAddressSingleAt | src/BikeDataProject.Identity.API/Controllers/Models/RegisterModel.cs:23 | A valid email has exactly one '@', neither first nor last. |
| RegisterModel.SingleAtEmailAddress | src/BikeDataProject.Identity.API/Controllers/Models/RegisterModel.cs:23 | Conversely, one inner '@' makes an email valid. |
| RegisterModel.ValidModel | src/BikeDataProject.Identity.API/Controllers/Models/RegisterModel.cs:14-25 | A valid model has a non-blank functional name of 3 to 20 UTF-16 units, and a non-blank email with a single inner '@'. |
| RegisterModel.FunctionalNameLength | src/BikeDataProject.Identity.API/Controllers/Models/RegisterModel.cs:15 | For a name in the Basic Multilingual Plane, the length rule is 3 ≤ characters ≤ 20. |
| RegisterModel.PasswordAndUrlUnvalidated | src/BikeDataProject.Identity.API/Controllers/Models/RegisterModel.cs:30-37 | Any Password and ConfirmEmailUrl, null included, leave validity unchanged. |
| RegisterModel.BlankRequiredInvalid | src/BikeDataProject.Identity.API/Controllers/Models/RegisterModel.cs:14-22 | A null, empty or white-space functional name or email makes the model invalid. |
| IConfigurationExtensions.Get | src/BikeDataProject.Identity.Db/IConfigurationExtensions.cs:61 | The indexer: the value exactly when the key is present. |
| IConfigurationExtensions.ReadAllText | src/BikeDataProject.Identity.Db/IConfigurationExtensions.cs:68-72 | The file's contents, or FileNotFound for a missing path. |
| IConfigurationExtensions.GetValueOrDefault | src/BikeDataProject.Identity.Db/IConfigurationExtensions.cs:40-45 | The default exactly when the value is null, empty or white space; otherwise the configured value. |
| IConfigurationExtensions.GetStringValueOrDefault | src/BikeDataProject.Identity.Db/IConfigurationExtensions.cs:58-73 | With a blank `<key>_FILE`, the generic rule applies. Otherwise the file's contents, and a missing file is an error that never falls back to the default. |
| IConfigurationExtensions.GetPostgresConnectionString | src/BikeDataProject.Identity.Db/IConfigurationExtensions.cs:81-106 | The step-by-step builder computes ConnectionString, which the lemmas below characterise. |
| IConfigurationExtensions.ConnectionFileWins | src/BikeDataProject.Identity.Db/IConfigurationExtensions.cs:83-87 | A non-blank `<prefix>_FILE` makes the result that file's whole contents. |
| IConfigurationExtensions.ConnectionDefaults | src/BikeDataProject.Identity.Db/IConfigurationExtensions.cs:89-102 | With no key under the prefix, the result is `Host=localhost;Port=5432;Database=db;Username=postgres;`. |
| IConfigurationExtensions.ConnectionStringShape | src/BikeDataProject.Identity.Db/IConfigurationExtensions.cs:96-105 | The result is the Host, Port, Database and Username fields, with `Password=pw;` appended exactly when the password is non-blank. |
| IConfigurationExtensions.NoFileIndirectionForFields | src/BikeDataProject.Identity.Db/IConfigurationExtensions.cs:89-98 | `_USER_FILE`, `_DB_FILE`, `_HOST_FILE` and `_PORT_FILE` have no effect, because these lookups bind to the generic overload. |
| IConfigurationExtensions.PassBeforePassFile | src/BikeDataProject.Identity.Db/IConfigurationExtensions.cs:90-95 | A non-blank `_PASS` is the password, and `_PASS_FILE` and the files are then irrelevant. |
| IConfigurationExtensions.OtherKeysIgnored | src/BikeDataProject.Identity.Db/IConfigurationExtensions.cs:83-98 | Keys under the prefix other than the seven it reads do not affect the result. |
| IConfigurationExtensions.PrefixedKeysDiffer | src/BikeDataProject.Identity.Db/IConfigurationExtensions.cs:83-98 | Distinct suffixes give distinct keys. |
| IConfigurationExtensions.Load | src/BikeDataProject.Identity.Db/IConfigurationExtensions.cs:22 | A source fails to load exactly when it is a required JSON file that is missing. |
| IConfigurationExtensions.MergeAppend | src/BikeDataProject.Identity.Db/IConfigurationExtensions.cs:26 | Building after adding a source lays its pairs over the earlier ones. |
| IConfigurationExtensions.ConfigurationBuilder.AddJsonFile | src/BikeDataProject.Identity.Db/IConfigurationExtensions.cs:22 | An empty path is an error with no change; otherwise the optional, reloading file source is appended. |
| IConfigurationExtensions.GetDeployTimeSettings | src/BikeDataProject.Identity.Db/IConfigurationExtensions.cs:17-30 | The path is `deploy-time-settings` or the default path. The file at that path is added to the builder. The prefix is `env-var-prefix` read after adding it, or `ANYWAYS_`. |
| IConfigurationExtensions.DeployTimeFileDecidesPrefix | src/BikeDataProject.Identity.Db/IConfigurationExtensions.cs:22-27 | An env-var-prefix in the deploy-time file overrides the earlier one; without the file, the earlier sources decide. |
| IConfigurationExtensions.DeployTimeDefaults | src/BikeDataProject.Identity.Db/IConfigurationExtensions.cs:21-27 | With nothing configured, the settings are `/var/app/config/appsettings.json` and `ANYWAYS_`. |
| InitialData.GetApiResources | src/BikeDataProject.Identity.API/Data/Initial/InitialData.cs:79-85 | One API resource, "identity". |
| InitialData.GetClients | src/BikeDataProject.Identity.API/Data/Initial/InitialData.cs:87-90 | No clients. |
| InitialData.GetIdentityResources | src/BikeDataProject.Identity.API/Data/Initial/InitialData.cs:92-102 | openid, profile and roles, the last with the single claim "role"; the names are distinct. |
| InitialData.AddMissing | src/BikeDataProject.Identity.API/Data/Initial/InitialData.cs:36-43 | The loop computes Additions: the seeds absent from the saved store, in seed order. It stops at a key stored twice. |
| InitialData.FailureStops | src/BikeDataProject.Identity.API/Data/Initial/InitialData.cs:38 | Once a key stored twice is met, later seeds do not change the outcome. |
| InitialData.ConfigurationDbContext.Initialize | src/BikeDataProject.Identity.API/Data/Initial/InitialData.cs:23-77 | Each store gets exactly its additions appended, in the order clients, identity resources, API resources. Nothing is removed or modified. A failure stops the later stores. |
| InitialData.CountAppend | src/BikeDataProject.Identity.API/Data/Initial/InitialData.cs:38 | Key counts add over concatenation. |
| InitialData.AdditionsSucceed | src/BikeDataProject.Identity.API/Data/Initial/InitialData.cs:38 | Seeding succeeds exactly when no seed key is stored more than once. |
| InitialData.AdditionsAreMissingSeeds | src/BikeDataProject.Identity.API/Data/Initial/InitialData.cs:38-42 | Everything added is a seed whose key was absent, and every absent seed is added. |
| InitialData.AdditionsCount | src/BikeDataProject.Identity.API/Data/Initial/InitialData.cs:38-42 | With distinct seed keys, each missing key is added exactly once and no present key is added. |
| InitialData.SeedKeysStoredOnce | src/BikeDataProject.Identity.API/Data/Initial/InitialData.cs:36-69 | After seeding, every seed key is stored exactly once. |
| InitialData.SeedingIdempotent | src/BikeDataProject.Identity.API/Data/Initial/InitialData.cs:36-69 | A second run adds nothing. |
| InitialData.NothingMissing | src/BikeDataProject.Identity.API/Data/Initial/InitialData.cs:38-39 | When every seed key is stored once, nothing is added. |
| InitialData.ServiceSeedsStoredOnce | src/BikeDataProject.Identity.API/Data/Initial/InitialData.cs:48-69 | After seeding, openid, profile, roles and "identity" are each stored exactly once. |
| SwaggerExternalPath.TrimTrailingSlash | src/BikeDataProject.Identity.API/Program.cs:239-242 | Exactly one trailing '/' is removed, if present. |
| SwaggerExternalPath.TransformToExternalPath | src/BikeDataProject.Identity.API/Program.cs:235-250 | A null path base fails. Otherwise the result starts with the trimmed base. A route already starting with it is unchanged; any other route is prefixed with it. |
| SwaggerExternalPath.TransformIdempotent | src/BikeDataProject.Identity.API/Program.cs:244-249 | Rewriting a rewritten route changes nothing. |
| SwaggerExternalPath.EmptyPathBaseIsIdentity | src/BikeDataProject.Identity.API/Program.cs:238-249 | A path base of "" or "/" leaves every route unchanged. |
| SwaggerExternalPath.OneSlashTrimmed | src/BikeDataProject.Identity.API/Program.cs:239-242 | A base ending in "//" keeps one '/'. |
| SwaggerExternalPath.PrefixedRouteRecognised | src/BikeDataProject.Identity.API/Program.cs:244-249 | A route carrying the base is kept, whether or not the base has its trailing '/'. |
| Text.Utf16Length | src/BikeDataProject.Identity.API/Controllers/Models/RegisterModel.cs:15 | String.Length counts UTF-16 units: between one and two per character. |
| Text.Utf16LengthOfBmp | src/BikeDataProject.Identity.API/Controllers/Models/RegisterModel.cs:15 | In the Basic Multilingual Plane, String.Length is the character count. |
| Text.Normalize | src/BikeDataProject.Identity.API/Controllers/AccountController.cs:113 | The normalised email maps each character to its ASCII upper case. |
| Text.IndexOf | src/BikeDataProject.Identity.API/Controllers/Models/RegisterModel.cs:23 | The first index of the character, or -1 when it is absent. |
| Text.LastIndexOf | src/BikeDataProject.Identity.API/Controllers/Models/RegisterModel.cs:23 | The last index of the character, or -1 when it is absent. |

## Left out

- I/O and the network. File reads are a map from path to contents. The Fitbit
  token exchange and profile call, the mail provider and the database are not
  modelled as I/O; their results are parameters or state.
- Email delivery. Sending appends to the outbox. `MailjetEmailSender` (HTTP,
  with an empty `SendConfirmAsync`) is not part of this model. The Fitbit
  controller calls a `SendEmailAsync` that `IEmailSender` does not declare; it
  is modelled like the account flow's send, with the subject it passes.
- URI building. `UriBuilder` is not modelled beyond its failures:
  - a null ConfirmEmailUrl raises ArgumentNullException;
  - a blank one raises UriFormatException;
  - every non-blank URL is taken as well formed;
  - the link is the URL with the query replaced, without escaping.
- ASP.NET Identity internals, which come in as parameters: password hashing,
  token generation and validation, `PasswordSignInAsync`, lockout and
  `RequireConfirmedEmail`. Confirming an email also rotates the security stamp;
  that is not modelled.
- The user validator's rules other than duplicate email; they are the
  `createErrors` parameter.
- `LoginModel` is not part of this model. Model-state validity is a parameter
  of Login and ConfirmEmail.
- The `[Authorize]` filter and cookie handling. The session is the
  `SignInManager`'s field.
- A null request body. The register models are always present.
- Logging, EF Core change tracking, migrations, async scheduling and
  concurrency. The callback's lookup-then-insert is taken as atomic; two
  concurrent callbacks are not modelled.
- `DateTime` range exceptions. Times are whole seconds with the clock as a
  parameter. `LatestSyncedStamp` is a number of seconds.
- OAuth2.IsFresh: its ensures leaves out tolerance Int32.MinValue, where the
  negation wraps. That case is stated separately by `MinValueToleranceWraps`.
- String comparisons. `StartsWith`/`EndsWith` are ordinal; culture-sensitive
  comparison is not modelled.
- Email normalisation. It upper-cases ASCII letters only; full Unicode case
  mapping is not modelled.
- The framework `[EmailAddress]` check is modelled as a single '@' that is
  neither first nor last.
- Configuration keys are compared case-sensitively; .NET compares them
  ignoring case. `GetValue<T>` conversion is modelled for strings only, the
  one type the code uses.
- JSON parsing of configuration files, `reloadOnChange`, and every other
  configuration source are not modelled. A JSON file is a map of keys to
  strings.
- Seeding:
  - IdentityServer's `ToEntity` mapping is not modelled;
  - resource properties other than name, display name and user claims are
    left out;
  - `SingleOrDefault` throwing on a key stored twice is a Failure that stops
    seeding;
  - the unique-index failure on `SaveChanges` is not modelled.
- The Fitbit SDK's `GenerateAuthUrl` text. The authorize URL is kept as the
  credentials, callback and scopes it is built from.
- The callback URL built from the request's scheme, host and path base
  (`FitbitAccountController.cs:136`). It is only handed to the token exchange,
  which is a parameter.
- UTF-16 surrogates. Strings are sequences of Unicode scalar values, so the
  lone-surrogate replacement of `Encoding.UTF8.GetBytes` is not modelled.
