/** InitialData: seeding the IdentityServer configuration store with the
    clients, identity resources and API resources the service needs, adding
    only those whose key is not stored yet. */
module InitialData {
  import opened Wrappers

  /** The client model; only its key takes part in seeding. */
  datatype Client = Client(clientId: string)

  datatype IdentityResource = IdentityResource(name: string, displayName: string, userClaims: seq<string>)

  datatype ApiResource = ApiResource(name: string, displayName: string)

  /** SingleOrDefault found more than one stored entry with the key
      (InvalidOperationException). */
  datatype SeedError = MoreThanOneMatch(key: string)

  function ClientKey(c: Client): string { c.clientId }
  function IdentityResourceKey(r: IdentityResource): string { r.name }
  function ApiResourceKey(r: ApiResource): string { r.name }

  const IdentityApiResource := "identity"

  /** GetApiResources. */
  function GetApiResources(): (r: seq<ApiResource>)
    ensures DistinctKeys(r, ApiResourceKey)
    ensures |r| == 1 && r[0].name == IdentityApiResource
  {
    [ApiResource(IdentityApiResource, "Identity API")]
  }

  /** GetClients: the service seeds no client. */
  function GetClients(): (r: seq<Client>)
    ensures DistinctKeys(r, ClientKey)
    ensures r == []
  {
    []
  }

  /** GetIdentityResources: IdentityServer's standard openid and profile
      resources, and a "roles" resource carrying the "role" claim. */
  function GetIdentityResources(): (r: seq<IdentityResource>)
    ensures DistinctKeys(r, IdentityResourceKey)
    ensures |r| == 3 && r[0].name == "openid" && r[1].name == "profile" && r[2].name == "roles"
    ensures r[2].userClaims == ["role"]
  {
    [ IdentityResource("openid", "Your user identifier", ["sub"]),
      IdentityResource("profile", "User profile",
        ["name", "family_name", "given_name", "middle_name", "nickname", "preferred_username",
         "profile", "picture", "website", "gender", "birthdate", "zoneinfo", "locale", "updated_at"]),
      IdentityResource("roles", "Roles", ["role"]) ]
  }

  /** No two entries share a key. */
  predicate DistinctKeys<T>(items: seq<T>, key: T -> string) {
    forall i, j :: 0 <= i < j < |items| ==> key(items[i]) != key(items[j])
  }

  /** How many entries carry key k: what SingleOrDefault(c => key(c) == k)
      inspects. */
  function Count<T>(items: seq<T>, k: string, key: T -> string): nat {
    if items == [] then 0
    else Count(items[..|items| - 1], k, key) + (if key(items[|items| - 1]) == k then 1 else 0)
  }

  /** The entries one seeding loop adds: in seed order, each seed whose key
      the saved store lacks. Entries added earlier in the same loop are not
      saved yet and so are not seen by the lookup. */
  function Additions<T>(saved: seq<T>, seeds: seq<T>, key: T -> string): Result<seq<T>, SeedError> {
    if seeds == [] then Success([])
    else
      match Additions(saved, seeds[..|seeds| - 1], key)
      case Failure(e) => Failure(e)
      case Success(before) =>
        var seed := seeds[|seeds| - 1];
        var n := Count(saved, key(seed), key);
        if n > 1 then Failure(MoreThanOneMatch(key(seed)))
        else if n == 1 then Success(before)
        else Success(before + [seed])
  }

  /** One foreach loop of Initialize: looks each seed up in the saved store
      and collects the ones to add. */
  method AddMissing<T>(saved: seq<T>, seeds: seq<T>, key: T -> string) returns (r: Result<seq<T>, SeedError>)
    ensures r == Additions(saved, seeds, key)
  {
    var pending: seq<T> := [];
    var i := 0;
    while i < |seeds|
      invariant 0 <= i <= |seeds|
      invariant Additions(saved, seeds[..i], key) == Success(pending)
    {
      var seed := seeds[i];
      assert seeds[..i + 1][..i] == seeds[..i];
      var n := Count(saved, key(seed), key);
      if n > 1 {
        FailureStops(saved, seeds, key, i + 1);
        return Failure(MoreThanOneMatch(key(seed)));
      }
      if n == 0 {
        pending := pending + [seed];
      }
      i := i + 1;
    }
    assert seeds[..i] == seeds;
    return Success(pending);
  }

  /** Once a seed's lookup fails, the loop's outcome is that failure. */
  lemma {:induction false} FailureStops<T>(saved: seq<T>, seeds: seq<T>, key: T -> string, j: nat)
    requires j <= |seeds|
    requires Additions(saved, seeds[..j], key).Failure?
    ensures Additions(saved, seeds, key) == Additions(saved, seeds[..j], key)
    decreases |seeds|
  {
    if j < |seeds| {
      var init := seeds[..|seeds| - 1];
      assert init[..j] == seeds[..j];
      FailureStops(saved, init, key, j);
    } else {
      assert seeds[..j] == seeds;
    }
  }

  /** The configuration store's three sets. */
  class ConfigurationDbContext {
    var clients: seq<Client>
    var identityResources: seq<IdentityResource>
    var apiResources: seq<ApiResource>

    constructor (clients: seq<Client>, identityResources: seq<IdentityResource>, apiResources: seq<ApiResource>)
      ensures this.clients == clients
      ensures this.identityResources == identityResources
      ensures this.apiResources == apiResources
    {
      this.clients := clients;
      this.identityResources := identityResources;
      this.apiResources := apiResources;
    }

    /** Initialize: the three loops, each followed by SaveChanges, so a
        failing loop keeps what the earlier ones saved. */
    method Initialize() returns (r: Result<(), SeedError>)
      modifies this
      ensures var c := Additions(old(clients), GetClients(), ClientKey);
        var i := Additions(old(identityResources), GetIdentityResources(), IdentityResourceKey);
        var a := Additions(old(apiResources), GetApiResources(), ApiResourceKey);
        clients == old(clients) + (if c.Success? then c.value else []) &&
        identityResources == old(identityResources) + (if c.Success? && i.Success? then i.value else []) &&
        apiResources == old(apiResources) + (if c.Success? && i.Success? && a.Success? then a.value else []) &&
        r == (if c.Failure? then Failure(c.error)
              else if i.Failure? then Failure(i.error)
              else if a.Failure? then Failure(a.error)
              else Success(()))
    {
      var addedClients := AddMissing(clients, GetClients(), ClientKey);
      if addedClients.Failure? {
        return Failure(addedClients.error);
      }
      clients := clients + addedClients.value;

      var addedIdentityResources := AddMissing(identityResources, GetIdentityResources(), IdentityResourceKey);
      if addedIdentityResources.Failure? {
        return Failure(addedIdentityResources.error);
      }
      identityResources := identityResources + addedIdentityResources.value;

      var addedApiResources := AddMissing(apiResources, GetApiResources(), ApiResourceKey);
      if addedApiResources.Failure? {
        return Failure(addedApiResources.error);
      }
      apiResources := apiResources + addedApiResources.value;
      return Success(());
    }
  }

  lemma {:induction false} CountAppend<T>(a: seq<T>, b: seq<T>, k: string, key: T -> string)
    ensures Count(a + b, k, key) == Count(a, k, key) + Count(b, k, key)
    decreases |b|
  {
    if b != [] {
      assert (a + b)[..|a + b| - 1] == a + b[..|b| - 1];
      CountAppend(a, b[..|b| - 1], k, key);
    } else {
      assert a + b == a;
    }
  }

  /** A loop fails exactly when some seed's key is stored more than once. */
  lemma {:induction false} AdditionsSucceed<T>(saved: seq<T>, seeds: seq<T>, key: T -> string)
    ensures Additions(saved, seeds, key).Success? <==>
      forall i :: 0 <= i < |seeds| ==> Count(saved, key(seeds[i]), key) <= 1
    decreases |seeds|
  {
    if seeds != [] {
      var init := seeds[..|seeds| - 1];
      AdditionsSucceed(saved, init, key);
      assert forall i :: 0 <= i < |init| ==> init[i] == seeds[i];
    }
  }

  /** What a loop adds are seeds, each absent from the saved store; and every
      seed absent from it is added. */
  lemma {:induction false} AdditionsAreMissingSeeds<T>(saved: seq<T>, seeds: seq<T>, key: T -> string)
    requires Additions(saved, seeds, key).Success?
    ensures var added := Additions(saved, seeds, key).value;
      (forall x :: x in added ==> x in seeds && Count(saved, key(x), key) == 0) &&
      (forall i :: 0 <= i < |seeds| && Count(saved, key(seeds[i]), key) == 0 ==> seeds[i] in added)
    decreases |seeds|
  {
    if seeds != [] {
      var init := seeds[..|seeds| - 1];
      AdditionsAreMissingSeeds(saved, init, key);
      assert forall i :: 0 <= i < |init| ==> init[i] == seeds[i];
      assert forall x :: x in init ==> x in seeds;
    }
  }

  /** With distinct seed keys, a loop adds each missing key exactly once and
      no key the saved store holds. */
  lemma {:induction false} AdditionsCount<T>(saved: seq<T>, seeds: seq<T>, key: T -> string, k: string)
    requires Additions(saved, seeds, key).Success?
    requires DistinctKeys(seeds, key)
    ensures var added := Additions(saved, seeds, key).value;
      Count(added, k, key) == (if Count(saved, k, key) == 0 && exists i :: 0 <= i < |seeds| && key(seeds[i]) == k then 1 else 0)
    decreases |seeds|
  {
    if seeds != [] {
      var init := seeds[..|seeds| - 1];
      var seed := seeds[|seeds| - 1];
      assert forall i :: 0 <= i < |init| ==> init[i] == seeds[i];
      AdditionsCount(saved, init, key, k);
      var before := Additions(saved, init, key).value;
      if Count(saved, key(seed), key) == 0 {
        CountAppend(before, [seed], k, key);
        assert [seed][..0] == [];
      }
      if exists i :: 0 <= i < |seeds| && key(seeds[i]) == k {
        var i :| 0 <= i < |seeds| && key(seeds[i]) == k;
        if i < |init| {
          assert key(seed) != k;
        }
      }
    }
  }

  /** After a loop every seed's key is stored exactly once, provided it was
      stored at most once before and the seed keys are distinct. */
  lemma SeedKeysStoredOnce<T>(saved: seq<T>, seeds: seq<T>, key: T -> string, i: nat)
    requires Additions(saved, seeds, key).Success?
    requires DistinctKeys(seeds, key)
    requires i < |seeds|
    ensures Count(saved, key(seeds[i]), key) <= 1
    ensures Count(saved + Additions(saved, seeds, key).value, key(seeds[i]), key) == 1
  {
    AdditionsSucceed(saved, seeds, key);
    AdditionsCount(saved, seeds, key, key(seeds[i]));
    CountAppend(saved, Additions(saved, seeds, key).value, key(seeds[i]), key);
  }

  /** Seeding twice adds nothing the second time. */
  lemma SeedingIdempotent<T>(saved: seq<T>, seeds: seq<T>, key: T -> string)
    requires Additions(saved, seeds, key).Success?
    requires DistinctKeys(seeds, key)
    ensures Additions(saved + Additions(saved, seeds, key).value, seeds, key) == Success([])
  {
    var stored := saved + Additions(saved, seeds, key).value;
    forall i | 0 <= i < |seeds| ensures Count(stored, key(seeds[i]), key) == 1 {
      SeedKeysStoredOnce(saved, seeds, key, i);
    }
    NothingMissing(stored, seeds, key);
  }

  /** A loop over seeds whose keys are each stored once adds nothing. */
  lemma {:induction false} NothingMissing<T>(saved: seq<T>, seeds: seq<T>, key: T -> string)
    requires forall i :: 0 <= i < |seeds| ==> Count(saved, key(seeds[i]), key) == 1
    ensures Additions(saved, seeds, key) == Success([])
    decreases |seeds|
  {
    if seeds != [] {
      var init := seeds[..|seeds| - 1];
      assert forall i :: 0 <= i < |init| ==> init[i] == seeds[i];
      NothingMissing(saved, init, key);
    }
  }

  /** The seeds of the service: after Initialize succeeds on a store without
      duplicate keys, "identity" is an API resource and openid, profile and
      roles are identity resources, each stored exactly once. */
  lemma ServiceSeedsStoredOnce(identityResources: seq<IdentityResource>, apiResources: seq<ApiResource>)
    requires Additions(identityResources, GetIdentityResources(), IdentityResourceKey).Success?
    requires Additions(apiResources, GetApiResources(), ApiResourceKey).Success?
    ensures var after := identityResources + Additions(identityResources, GetIdentityResources(), IdentityResourceKey).value;
      Count(after, "openid", IdentityResourceKey) == 1 &&
      Count(after, "profile", IdentityResourceKey) == 1 &&
      Count(after, "roles", IdentityResourceKey) == 1
    ensures Count(apiResources + Additions(apiResources, GetApiResources(), ApiResourceKey).value, "identity", ApiResourceKey) == 1
  {
    var seeds := GetIdentityResources();
    SeedKeysStoredOnce(identityResources, seeds, IdentityResourceKey, 0);
    SeedKeysStoredOnce(identityResources, seeds, IdentityResourceKey, 1);
    SeedKeysStoredOnce(identityResources, seeds, IdentityResourceKey, 2);
    SeedKeysStoredOnce(apiResources, GetApiResources(), ApiResourceKey, 0);
  }
}
