/** The state the account controllers share: the application database (its
    users and the Fitbit accounts linked to them), the signed-in session and
    the mail that has been sent. ASP.NET Identity's UserManager and
    SignInManager act on this state; their library decisions (validation
    errors, password hashes, issued tokens) come in as parameters.

    Identity's string GUID user ids are modelled by a counter, as is the
    database identity column of the Fitbit accounts. */
module IdentityStore {
  import opened Wrappers
  import Text
  import OAuth2

  type UserId = nat

  /** ApplicationUser: the IdentityUser columns the controllers touch, and
      the FunctionalName the application adds. */
  datatype ApplicationUser = ApplicationUser(
    id: UserId,
    userName: Option<string>,
    email: Option<string>,
    emailConfirmed: bool,
    passwordHash: Option<string>,
    functionalName: Option<string>)

  /** FitbitUser: a Fitbit account's tokens, linked to an application user.
      Times are seconds on the UTC axis. */
  datatype FitbitUser = FitbitUser(
    id: nat,
    applicationUserId: UserId,
    token: string,
    tokenType: string,
    scope: string,
    expiresIn: OAuth2.Int32,
    refreshToken: string,
    userId: string,
    tokenCreated: int,
    allSynced: bool,
    subscriptionId: Option<string>,
    latestSyncedStamp: Option<int>,
    bikeDataProjectId: Option<OAuth2.Int32>)

  /** A confirmation link: the configured URL with its query replaced. */
  datatype Link = Link(baseUrl: string, query: string)

  /** The query of a confirmation link: the token, then the email. */
  function ConfirmationQuery(token: string, email: string): string {
    "token=" + token + "&email=" + email
  }

  /** One sent email; the account flow sends no subject of its own. */
  datatype Mail = Mail(to: string, subject: Option<string>, link: Link)

  datatype StatusCode = Ok | BadRequest | Conflict | Unauthorized | NotFound

  /** The exceptions the actions let escape. */
  datatype Fault =
    | NotImplemented     // NotImplementedException
    | ArgumentNull       // ArgumentNullException
    | MalformedBase64    // FormatException from the base64url decoder
    | InvalidUri         // UriFormatException from UriBuilder
    | CreateUserFailed   // Exception("Failed to create user")
    | UserNotLoaded      // ApplicationException("Unable to load user ...")

  /** An IActionResult, or the exception the action threw. */
  datatype ActionResult = Status(code: StatusCode) | Raised(fault: Fault)

  /** IdentityErrorDescriber's code for an email another user already has. */
  const DuplicateEmail := "DuplicateEmail"

  /** The index of the first element satisfying p: FirstOrDefault. */
  function FirstIndex<T>(s: seq<T>, p: T -> bool): (k: Option<nat>)
    ensures k.Some? ==> k.value < |s| && p(s[k.value])
    ensures k.Some? ==> forall i :: 0 <= i < k.value ==> !p(s[i])
    ensures k.None? ==> forall i :: 0 <= i < |s| ==> !p(s[i])
  {
    if s == [] then None
    else if p(s[0]) then Some(0)
    else match FirstIndex(s[1..], p)
      case None => None
      case Some(k) => Some(k + 1)
  }

  /** The user's email matches `email` once both are normalised, as the
      store compares NormalizedEmail. */
  predicate HasEmail(u: ApplicationUser, email: string) {
    u.email.Some? && Text.Normalize(u.email.value) == Text.Normalize(email)
  }

  function UserIds(users: seq<ApplicationUser>): set<UserId> {
    set i | 0 <= i < |users| :: users[i].id
  }

  lemma UserIdsAppend(users: seq<ApplicationUser>, u: ApplicationUser)
    ensures UserIds(users + [u]) == UserIds(users) + {u.id}
  {
    var all := users + [u];
    forall x ensures x in UserIds(all) <==> x in UserIds(users) + {u.id} {
      if x in UserIds(all) {
        var i :| 0 <= i < |all| && all[i].id == x;
        if i < |users| {
          assert users[i].id == x;
        }
      }
      if x in UserIds(users) {
        var i :| 0 <= i < |users| && users[i].id == x;
        assert all[i].id == x;
      }
      if x == u.id {
        assert all[|users|].id == x;
      }
    }
  }

  class ApplicationDbContext {
    var users: seq<ApplicationUser>
    var fitbitUsers: seq<FitbitUser>
    var nextUserId: nat
    var nextFitbitId: nat

    /** Ids are unique and below the counters; no two users share a
        normalised email (RequireUniqueEmail); no two Fitbit accounts share
        a Fitbit user id; every Fitbit account belongs to a stored user. */
    predicate Valid()
      reads this
    {
      (forall i :: 0 <= i < |users| ==> users[i].id < nextUserId) &&
      (forall i, j :: 0 <= i < j < |users| ==> users[i].id != users[j].id) &&
      (forall i, j :: 0 <= i < j < |users| && users[j].email.Some? ==> !HasEmail(users[i], users[j].email.value)) &&
      (forall i :: 0 <= i < |fitbitUsers| ==> fitbitUsers[i].id < nextFitbitId) &&
      (forall i, j :: 0 <= i < j < |fitbitUsers| ==>
        fitbitUsers[i].id != fitbitUsers[j].id && fitbitUsers[i].userId != fitbitUsers[j].userId) &&
      (forall i :: 0 <= i < |fitbitUsers| ==> fitbitUsers[i].applicationUserId in UserIds(users))
    }

    constructor ()
      ensures Valid()
      ensures users == [] && fitbitUsers == []
    {
      users := [];
      fitbitUsers := [];
      nextUserId := 0;
      nextFitbitId := 0;
    }

    /** UserManager.FindByEmailAsync: the index of the user with that email. */
    function FindByEmail(email: string): (k: Option<nat>)
      reads this
      ensures k.Some? ==> k.value < |users| && HasEmail(users[k.value], email)
      ensures k.None? ==> forall i :: 0 <= i < |users| ==> !HasEmail(users[i], email)
    {
      FirstIndex(users, u => HasEmail(u, email))
    }

    /** UserManager.GetUserAsync: the index of the user with that id. */
    function FindById(id: UserId): (k: Option<nat>)
      reads this
      ensures k.Some? ==> k.value < |users| && users[k.value].id == id
      ensures k.None? ==> id !in UserIds(users)
    {
      FirstIndex(users, (u: ApplicationUser) => u.id == id)
    }

    /** The first FitbitUser whose Fitbit user id is `fitbitUserId`. */
    function FindFitbitUser(fitbitUserId: string): (k: Option<nat>)
      reads this
      ensures k.Some? ==> k.value < |fitbitUsers| && fitbitUsers[k.value].userId == fitbitUserId
      ensures k.None? ==> forall i :: 0 <= i < |fitbitUsers| ==> fitbitUsers[i].userId != fitbitUserId
    {
      FirstIndex(fitbitUsers, (f: FitbitUser) => f.userId == fitbitUserId)
    }

    /** UserManager.CreateAsync: the user validator's verdicts other than the
        duplicate-email check are `otherErrors`; an email some user already
        has adds DuplicateEmail. The user is stored exactly when there is no
        error. */
    method CreateAsync(userName: Option<string>, email: string, functionalName: Option<string>,
                       passwordHash: Option<string>, otherErrors: seq<string>)
      returns (errors: seq<string>, user: ApplicationUser)
      requires Valid()
      modifies this
      ensures Valid()
      ensures errors == otherErrors + (if old(FindByEmail(email)).Some? then [DuplicateEmail] else [])
      ensures user == ApplicationUser(old(nextUserId), userName, Some(email), false, passwordHash, functionalName)
      ensures user.id !in UserIds(old(users))
      ensures errors == [] ==> users == old(users) + [user] && nextUserId == old(nextUserId) + 1
      ensures errors != [] ==> unchanged(this)
      ensures fitbitUsers == old(fitbitUsers) && nextFitbitId == old(nextFitbitId)
    {
      user := ApplicationUser(nextUserId, userName, Some(email), false, passwordHash, functionalName);
      errors := otherErrors + (if FindByEmail(email).Some? then [DuplicateEmail] else []);
      if errors == [] {
        users := users + [user];
        nextUserId := nextUserId + 1;
        UserIdsAppend(old(users), user);
      }
    }

    /** _db.Users.AddAsync followed by SaveChanges: stores a user without
        going through UserManager, so without an email. */
    method AddUser(userName: Option<string>) returns (user: ApplicationUser)
      requires Valid()
      modifies this
      ensures Valid()
      ensures user == ApplicationUser(old(nextUserId), userName, None, false, None, None)
      ensures user.id !in UserIds(old(users))
      ensures users == old(users) + [user] && nextUserId == old(nextUserId) + 1
      ensures fitbitUsers == old(fitbitUsers) && nextFitbitId == old(nextFitbitId)
    {
      user := ApplicationUser(nextUserId, userName, None, false, None, None);
      users := users + [user];
      nextUserId := nextUserId + 1;
      UserIdsAppend(old(users), user);
    }

    /** Confirms the email of the user at index k (the outcome of
        ConfirmEmailAsync once the token is accepted). */
    method ConfirmEmail(k: nat)
      requires Valid() && k < |users|
      modifies this
      ensures Valid()
      ensures users == old(users)[k := old(users)[k].(emailConfirmed := true)]
      ensures fitbitUsers == old(fitbitUsers)
      ensures nextUserId == old(nextUserId) && nextFitbitId == old(nextFitbitId)
    {
      users := users[k := users[k].(emailConfirmed := true)];
      assert UserIds(users) == UserIds(old(users)) by {
        assert forall i :: 0 <= i < |users| ==> users[i].id == old(users)[i].id;
      }
    }

    /** _db.FitbitUsers.AddAsync followed by SaveChanges: links a new Fitbit
        account, with a fresh id, to a stored user. */
    method AddFitbitUser(applicationUserId: UserId, token: OAuth2.OAuth2AccessToken, now: int)
      returns (added: FitbitUser)
      requires Valid()
      requires applicationUserId in UserIds(users)
      requires FindFitbitUser(token.userId).None?
      modifies this
      ensures Valid()
      ensures added == FitbitUser(old(nextFitbitId), applicationUserId, token.token, token.tokenType, token.scope,
        token.expiresIn, token.refreshToken, token.userId, now, false, None, None, None)
      ensures fitbitUsers == old(fitbitUsers) + [added] && nextFitbitId == old(nextFitbitId) + 1
      ensures users == old(users) && nextUserId == old(nextUserId)
    {
      added := FitbitUser(nextFitbitId, applicationUserId, token.token, token.tokenType, token.scope,
        token.expiresIn, token.refreshToken, token.userId, now, false, None, None, None);
      fitbitUsers := fitbitUsers + [added];
      nextFitbitId := nextFitbitId + 1;
    }

    /** Stores a newer token for the Fitbit account at index k: the five
        token fields and the creation time change, nothing else. */
    method UpdateFitbitToken(k: nat, token: OAuth2.OAuth2AccessToken, now: int)
      requires Valid() && k < |fitbitUsers|
      requires fitbitUsers[k].userId == token.userId
      modifies this
      ensures Valid()
      ensures fitbitUsers == old(fitbitUsers)[k := old(fitbitUsers)[k].(
        scope := token.scope, token := token.token, expiresIn := token.expiresIn,
        refreshToken := token.refreshToken, tokenType := token.tokenType, tokenCreated := now)]
      ensures users == old(users)
      ensures nextUserId == old(nextUserId) && nextFitbitId == old(nextFitbitId)
    {
      var f := fitbitUsers[k];
      f := f.(scope := token.scope);
      f := f.(token := token.token);
      f := f.(expiresIn := token.expiresIn);
      f := f.(refreshToken := token.refreshToken);
      f := f.(tokenType := token.tokenType);
      f := f.(tokenCreated := now);
      fitbitUsers := fitbitUsers[k := f];
    }
  }

  /** SignInManager: who the request's authentication cookie names. */
  class SignInManager {
    var signedIn: Option<UserId>

    constructor (signedIn: Option<UserId>)
      ensures this.signedIn == signedIn
    {
      this.signedIn := signedIn;
    }

    predicate IsSignedIn()
      reads this
    {
      signedIn.Some?
    }

    method SignInAsync(id: UserId)
      modifies this
      ensures signedIn == Some(id)
    {
      signedIn := Some(id);
    }

    method SignOutAsync()
      modifies this
      ensures signedIn == None
    {
      signedIn := None;
    }
  }

  /** IEmailSender: every send is recorded in the outbox. */
  class EmailSender {
    var outbox: seq<Mail>

    constructor ()
      ensures outbox == []
    {
      outbox := [];
    }

    method Send(mail: Mail)
      modifies this
      ensures outbox == old(outbox) + [mail]
    {
      outbox := outbox + [mail];
    }
  }
}
