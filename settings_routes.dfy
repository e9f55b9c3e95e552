/** The settings handlers' logic: the RTO Shield flags read from and written
    into the account's `features` object, and the caller's latest API key. */
module SettingsRoutes {
  import opened Common
  import opened Records

  /** All three RTO Shield flags on. */
  function DefaultRtoShield(): Json {
    JObject(map["addressValidation" := JBool(true), "codOtp" := JBool(true), "prepaidNudge" := JBool(true)])
  }

  /** `account.features ? JSON.parse(account.features) : {}` */
  function FeaturesOf(features: Option<map<string, Json>>): map<string, Json> {
    features.GetOr(map[])
  }

  /** `features.rtoShield || { ...all true }`: the stored flags when the key
      holds a truthy value, and the all-on default otherwise. */
  function RtoShieldOf(features: Option<map<string, Json>>): (r: Json)
    ensures "rtoShield" in FeaturesOf(features) && Truthy(FeaturesOf(features)["rtoShield"]) ==>
      r == FeaturesOf(features)["rtoShield"]
    ensures !("rtoShield" in FeaturesOf(features) && Truthy(FeaturesOf(features)["rtoShield"])) ==>
      r == DefaultRtoShield()
  {
    var f := FeaturesOf(features);
    if "rtoShield" in f && Truthy(f["rtoShield"]) then f["rtoShield"] else DefaultRtoShield()
  }

  /** With no features stored, every flag reads as on. */
  lemma NoFeaturesReadsDefault()
    ensures RtoShieldOf(None) == DefaultRtoShield()
    ensures RtoShieldOf(Some(map[])) == DefaultRtoShield()
  {
  }

  /** `features.rtoShield = body`, on the parsed features. */
  function SetRtoShield(features: Option<map<string, Json>>, body: Json): (r: map<string, Json>)
    ensures "rtoShield" in r && r["rtoShield"] == body
  {
    FeaturesOf(features)["rtoShield" := body]
  }

  /** PATCH replaces `rtoShield` wholesale and keeps every other feature key
      and its value; on empty features the result holds `rtoShield` alone. */
  lemma SetRtoShieldKeepsOthers(features: Option<map<string, Json>>, body: Json)
    ensures var r := SetRtoShield(features, body);
      && r.Keys == FeaturesOf(features).Keys + {"rtoShield"}
      && forall k :: k in FeaturesOf(features) && k != "rtoShield" ==> r[k] == FeaturesOf(features)[k]
    ensures FeaturesOf(features) == map[] ==> SetRtoShield(features, body) == map["rtoShield" := body]
  {
  }

  /** Sending the same body twice leaves what sending it once left. */
  lemma SetRtoShieldIdempotent(features: Option<map<string, Json>>, body: Json)
    ensures SetRtoShield(Some(SetRtoShield(features, body)), body) == SetRtoShield(features, body)
  {
  }

  /** Reading back after a PATCH gives the body that was sent, unless it was
      falsy, in which case the all-on default is read. */
  lemma ReadAfterWrite(features: Option<map<string, Json>>, body: Json)
    ensures Truthy(body) ==> RtoShieldOf(Some(SetRtoShield(features, body))) == body
    ensures !Truthy(body) ==> RtoShieldOf(Some(SetRtoShield(features, body))) == DefaultRtoShield()
  {
  }

  /** The preferences a first GET creates: everything on. */
  function DefaultPrefs(): NotificationPrefs {
    NotificationPrefs(true, true, true, true)
  }

  predicate KeyOwnedBy(owner: Id, k: ApiKey) { k.userId == owner }

  /** The owner's keys, newest first. */
  function ApiKeysOf(keys: seq<ApiKey>, owner: Id): (r: seq<ApiKey>)
    ensures SortedDesc(ApiKeyTime, r)
    ensures forall i :: 0 <= i < |r| ==> r[i] in keys && r[i].userId == owner
    ensures forall j :: 0 <= j < |keys| && keys[j].userId == owner ==> keys[j] in r
  {
    var mine := Filter((k: ApiKey) => KeyOwnedBy(owner, k), keys);
    var sorted := SortDesc(ApiKeyTime, mine);
    forall i | 0 <= i < |sorted| ensures sorted[i] in keys && sorted[i].userId == owner {
      assert sorted[i] in multiset(mine);
    }
    forall j | 0 <= j < |keys| && keys[j].userId == owner ensures keys[j] in sorted {
      assert KeyOwnedBy(owner, keys[j]);
      assert keys[j] in multiset(mine);
    }
    sorted
  }

  /** `apiKey?.key || null` for the caller's newest key: a key is answered
      exactly when the caller has one, unless the newest is empty; the answer
      is a newest key of the caller's, and the newest one when no other key
      of theirs is as new. */
  function LatestApiKey(keys: seq<ApiKey>, owner: Id): (r: Option<string>)
    ensures r.Some? ==> r.value != ""
    ensures r.Some? ==>
      exists k :: (0 <= k < |keys| && keys[k].userId == owner && keys[k].key == r.value &&
                   forall j :: 0 <= j < |keys| && keys[j].userId == owner ==> keys[j].createdAt <= keys[k].createdAt)
    ensures (forall k :: 0 <= k < |keys| ==> keys[k].userId != owner) ==> r.None?
    ensures ((exists k :: 0 <= k < |keys| && keys[k].userId == owner) &&
             (forall k :: 0 <= k < |keys| && keys[k].userId == owner ==> keys[k].key != "")) ==> r.Some?
    ensures forall k :: 0 <= k < |keys| && keys[k].userId == owner && keys[k].key != "" &&
              (forall j :: 0 <= j < |keys| && keys[j].userId == owner && j != k ==> keys[j].createdAt < keys[k].createdAt)
              ==> r == Some(keys[k].key)
  {
    var sorted := ApiKeysOf(keys, owner);
    if sorted == [] then None
    else
      NewestFirst(keys, owner, sorted);
      if sorted[0].key == "" then None else Some(sorted[0].key)
  }

  /** The head of the owner's keys, newest first, is a newest key of theirs,
      and it is the key of theirs that is strictly newest when there is one. */
  lemma NewestFirst(keys: seq<ApiKey>, owner: Id, sorted: seq<ApiKey>)
    requires sorted == ApiKeysOf(keys, owner) && sorted != []
    ensures exists k :: (0 <= k < |keys| && keys[k] == sorted[0] && keys[k].userId == owner &&
                         forall j :: 0 <= j < |keys| && keys[j].userId == owner ==> keys[j].createdAt <= keys[k].createdAt)
    ensures forall k :: 0 <= k < |keys| && keys[k].userId == owner &&
              (forall j :: 0 <= j < |keys| && keys[j].userId == owner && j != k ==> keys[j].createdAt < keys[k].createdAt)
              ==> sorted[0] == keys[k]
  {
    var m :| 0 <= m < |keys| && keys[m] == sorted[0];
    forall j | 0 <= j < |keys| && keys[j].userId == owner ensures keys[j].createdAt <= sorted[0].createdAt {
      var i :| 0 <= i < |sorted| && sorted[i] == keys[j];
      assert ApiKeyTime(sorted[0]) >= ApiKeyTime(sorted[i]);
    }
    forall k | 0 <= k < |keys| && keys[k].userId == owner &&
               (forall j :: 0 <= j < |keys| && keys[j].userId == owner && j != k ==> keys[j].createdAt < keys[k].createdAt)
      ensures sorted[0] == keys[k]
    {
      assert keys[k].createdAt <= keys[m].createdAt;
    }
  }

  /** What `GET /api/settings` answers. */
  datatype SettingsView = SettingsView(rtoShield: Json, notifications: NotificationPrefs, apiKey: Option<string>)
}
