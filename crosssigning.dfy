/**
 * Cross-signing commands: reading one's published keys out of a key query, the
 * status report, generating and publishing keys behind user-interactive
 * authentication, and moving the cached keys in and out of secret storage.
 */
module CrossSigning {
  import opened Wrappers
  import opened Chat
  import opened SecretStorage

  type UserId = string

  /** One published cross-signing key: its public keys, in the order the response lists them. */
  datatype PublishedKey = PublishedKey(keys: seq<string>)

  /** The first public key of a published key, or "" when it lists none. */
  function FirstKey(k: PublishedKey): string {
    if k.keys == [] then "" else k.keys[0]
  }

  /** The cross-signing part of a key query response, each map keyed by user ID. */
  datatype QueryKeysResponse = QueryKeysResponse(
    masterKeys: map<UserId, PublishedKey>,
    selfSigningKeys: map<UserId, PublishedKey>,
    userSigningKeys: map<UserId, PublishedKey>)

  /** The tuple `parseKeyResp` returns: three keys and whether the keys were found. */
  datatype ParsedKeys = ParsedKeys(first: string, second: string, third: string, ok: bool)

  /**
   * `parseKeyResp` as written: a user without a master or self-signing key has no
   * keys; without a user-signing key the tuple is (master, self-signing, ""); with
   * all three it is (master, user-signing, self-signing).
   */
  function ParseKeyResp(keys: QueryKeysResponse, userId: UserId): (r: ParsedKeys)
    ensures r.ok <==> userId in keys.masterKeys && userId in keys.selfSigningKeys
    ensures !r.ok ==> r == ParsedKeys("", "", "", false)
    ensures r.ok ==> r.first == FirstKey(keys.masterKeys[userId])
    ensures r.ok && userId !in keys.userSigningKeys ==>
      r.second == FirstKey(keys.selfSigningKeys[userId]) && r.third == ""
    ensures r.ok && userId in keys.userSigningKeys ==>
      r.second == FirstKey(keys.userSigningKeys[userId]) && r.third == FirstKey(keys.selfSigningKeys[userId])
  {
    if userId !in keys.masterKeys then ParsedKeys("", "", "", false)
    else if userId !in keys.selfSigningKeys then ParsedKeys("", "", "", false)
    else if userId !in keys.userSigningKeys then
      ParsedKeys(FirstKey(keys.masterKeys[userId]), FirstKey(keys.selfSigningKeys[userId]), "", true)
    else
      ParsedKeys(FirstKey(keys.masterKeys[userId]), FirstKey(keys.userSigningKeys[userId]),
                 FirstKey(keys.selfSigningKeys[userId]), true)
  }

  /**
   * `parseKeyResp` corrected: always (master, self-signing, user-signing), with ""
   * for a missing user-signing key, the order its other return and its callers use.
   */
  function ParseKeyRespFixed(keys: QueryKeysResponse, userId: UserId): (r: ParsedKeys)
    ensures r.ok <==> userId in keys.masterKeys && userId in keys.selfSigningKeys
    ensures !r.ok ==> r == ParsedKeys("", "", "", false)
    ensures r.ok ==> r.first == FirstKey(keys.masterKeys[userId]) && r.second == FirstKey(keys.selfSigningKeys[userId])
    ensures r.ok ==> r.third == if userId in keys.userSigningKeys then FirstKey(keys.userSigningKeys[userId]) else ""
  {
    if userId !in keys.masterKeys || userId !in keys.selfSigningKeys then ParsedKeys("", "", "", false)
    else
      ParsedKeys(FirstKey(keys.masterKeys[userId]), FirstKey(keys.selfSigningKeys[userId]),
                 if userId in keys.userSigningKeys then FirstKey(keys.userSigningKeys[userId]) else "", true)
  }

  /**
   * The correction changes nothing but the order of the last two keys when all three
   * are published: both versions find keys for the same users, give the same master
   * key, and agree outright when the user-signing key is missing.
   */
  lemma ParseKeyRespFixOnlyReorders(keys: QueryKeysResponse, userId: UserId)
    ensures ParseKeyResp(keys, userId).ok == ParseKeyRespFixed(keys, userId).ok
    ensures ParseKeyResp(keys, userId).first == ParseKeyRespFixed(keys, userId).first
    ensures userId !in keys.userSigningKeys ==> ParseKeyResp(keys, userId) == ParseKeyRespFixed(keys, userId)
    ensures userId in keys.userSigningKeys ==>
      ParseKeyResp(keys, userId).second == ParseKeyRespFixed(keys, userId).third
      && ParseKeyResp(keys, userId).third == ParseKeyRespFixed(keys, userId).second
  {
  }

  /** The public parts of the cross-signing keys the machine has cached. */
  datatype KeySet = KeySet(masterKey: string, selfSigningKey: string, userSigningKey: string)

  /** The status lines for published keys, binding the tuple as (master, self-signing, user-signing). */
  function PublishedStatus(parsed: ParsedKeys): seq<string> {
    if !parsed.ok then ["Didn't find published cross-signing keys"]
    else
      var masterKey, selfSigningKey, userSigningKey := parsed.first, parsed.second, parsed.third;
      ["Cross-signing is set up, but private keys are not cached",
       "Master key: " + masterKey,
       "User signing key: " + userSigningKey,
       "Self-signing key: " + selfSigningKey]
  }

  /** The status lines for cached keys. */
  function CachedStatus(keys: KeySet): seq<string> {
    ["Cross-signing is set up and private keys are cached",
     "Master key: " + keys.masterKey,
     "User signing key: " + keys.userSigningKey,
     "Self-signing key: " + keys.selfSigningKey]
  }

  /** `/cross-signing status` as written, reading the query response with `ParseKeyResp`. */
  function StatusAsWritten(cached: Option<KeySet>, query: Result<QueryKeysResponse, string>, userId: UserId): (replies: seq<string>)
    ensures cached.Some? ==> replies == CachedStatus(cached.value)
    ensures cached.None? && query.Failure? ==> replies == ["Failed to query own keys: " + query.error]
    ensures cached.None? && query.Success? && !(userId in query.value.masterKeys && userId in query.value.selfSigningKeys)
      ==> replies == ["Didn't find published cross-signing keys"]
    ensures cached.None? && query.Success? && userId in query.value.masterKeys && userId in query.value.selfSigningKeys ==>
      (|replies| == 4 && replies[0] == "Cross-signing is set up, but private keys are not cached"
       && replies[1] == "Master key: " + FirstKey(query.value.masterKeys[userId]))
    ensures (cached.None? && query.Success? && userId in query.value.masterKeys && userId in query.value.selfSigningKeys
             && userId !in query.value.userSigningKeys) ==>
      (replies[2] == "User signing key: " && replies[3] == "Self-signing key: " + FirstKey(query.value.selfSigningKeys[userId]))
    ensures (cached.None? && query.Success? && userId in query.value.masterKeys && userId in query.value.selfSigningKeys
             && userId in query.value.userSigningKeys) ==>
      (replies[2] == "User signing key: " + FirstKey(query.value.selfSigningKeys[userId])
       && replies[3] == "Self-signing key: " + FirstKey(query.value.userSigningKeys[userId]))
  {
    if cached.Some? then CachedStatus(cached.value)
    else if query.Failure? then ["Failed to query own keys: " + query.error]
    else PublishedStatus(ParseKeyResp(query.value, userId))
  }

  /**
   * With all three keys published, the as-written status report prints the
   * self-signing key under "User signing key" and the user-signing key under
   * "Self-signing key".
   */
  lemma StatusAsWrittenSwapsLabels()
    ensures var q := QueryKeysResponse(map["@a:b" := PublishedKey(["M"])],
                                       map["@a:b" := PublishedKey(["S"])],
                                       map["@a:b" := PublishedKey(["U"])]);
      StatusAsWritten(None, Success(q), "@a:b")[2..] == ["User signing key: S", "Self-signing key: U"]
  {
    var q := QueryKeysResponse(map["@a:b" := PublishedKey(["M"])],
                               map["@a:b" := PublishedKey(["S"])],
                               map["@a:b" := PublishedKey(["U"])]);
    var parsed := ParseKeyResp(q, "@a:b");
    assert parsed == ParsedKeys("M", "U", "S", true);
    var replies := StatusAsWritten(None, Success(q), "@a:b");
    assert replies == PublishedStatus(parsed);
    assert replies[2] == "User signing key: " + "S" == "User signing key: S";
    assert replies[3] == "Self-signing key: " + "U" == "Self-signing key: U";
  }

  /**
   * `/cross-signing status`: cached keys are reported directly; otherwise one's own
   * published keys are queried and reported under their own labels, or reported
   * missing.
   */
  function Status(cached: Option<KeySet>, query: Result<QueryKeysResponse, string>, userId: UserId): (replies: seq<string>)
    ensures cached.Some? ==> replies == CachedStatus(cached.value)
    ensures cached.None? && query.Failure? ==> replies == ["Failed to query own keys: " + query.error]
    ensures cached.None? && query.Success? && !(userId in query.value.masterKeys && userId in query.value.selfSigningKeys)
      ==> replies == ["Didn't find published cross-signing keys"]
  {
    if cached.Some? then CachedStatus(cached.value)
    else if query.Failure? then ["Failed to query own keys: " + query.error]
    else PublishedStatus(ParseKeyRespFixed(query.value, userId))
  }

  /** The corrected report prints every published key under its own label. */
  lemma StatusLabelsPublishedKeys(query: QueryKeysResponse, userId: UserId)
    requires userId in query.masterKeys && userId in query.selfSigningKeys
    ensures Status(None, Success(query), userId) ==
      ["Cross-signing is set up, but private keys are not cached",
       "Master key: " + FirstKey(query.masterKeys[userId]),
       "User signing key: " + (if userId in query.userSigningKeys then FirstKey(query.userSigningKeys[userId]) else ""),
       "Self-signing key: " + FirstKey(query.selfSigningKeys[userId])]
  {
  }

  /**
   * Without a published user-signing key the swap has nothing to exchange: the
   * report as written is the corrected one, whatever the cache and the query give.
   */
  lemma StatusAsWrittenAgreesWithoutUserSigningKey(cached: Option<KeySet>, query: Result<QueryKeysResponse, string>, userId: UserId)
    ensures query.Success? && userId !in query.value.userSigningKeys ==>
      StatusAsWritten(cached, query, userId) == Status(cached, query, userId)
  {
  }

  /**
   * Whether `/cross-signing generate` goes on to generate keys: only a successful
   * query that finds published keys stops it, and `--force` skips the query.
   */
  function GenerateProceeds(force: bool, query: Result<QueryKeysResponse, string>, userId: UserId): (go: bool)
    ensures !go <==> !force && query.Success? && userId in query.value.masterKeys && userId in query.value.selfSigningKeys
  {
    force || !(query.Success? && ParseKeyResp(query.value, userId).ok)
  }

  /** The gate reads only the found flag, so the corrected parser decides the same: the swap does not reach it. */
  lemma GenerateGateUnaffected(force: bool, query: Result<QueryKeysResponse, string>, userId: UserId)
    ensures GenerateProceeds(force, query, userId) == (force || !(query.Success? && ParseKeyRespFixed(query.value, userId).ok))
  {
  }

  /** One way of completing user-interactive authentication: its stages, in order. */
  datatype Flow = Flow(stages: seq<string>)

  /** The server's user-interactive authentication challenge: the flows it offers and the session. */
  datatype UiaChallenge = UiaChallenge(flows: seq<Flow>, session: string)

  /** The authentication data the callback hands back. */
  datatype AuthData =
    | PasswordLogin(session: string, user: UserId, password: string)
    | StageAuth(stageType: string, session: string)

  const AuthTypePassword := "m.login.password"

  /** The challenge offers a flow made of the given stage alone. */
  predicate HasSingleStageFlow(uia: UiaChallenge, stage: string) {
    exists i :: 0 <= i < |uia.flows| && uia.flows[i].stages == [stage]
  }

  /**
   * The authentication callback of `/cross-signing generate`. With a password-only
   * flow on offer it asks for the account password (`password`); otherwise it looks
   * at the first flow alone: a single stage is completed through the browser
   * fallback (`fallbackError` is its outcome), anything longer gives up. Only an empty
   * flow list reports that nothing is supported.
   */
  method UiaCallback(out: Console, uia: UiaChallenge, userId: UserId, password: Prompt, fallbackError: Option<string>)
    returns (auth: Option<AuthData>)
    modifies out
    ensures HasSingleStageFlow(uia, AuthTypePassword) ==>
      (out.lines == old(out.lines)
       && auth == (if password.Answered? then Some(PasswordLogin(uia.session, userId, password.text)) else None))
    ensures !HasSingleStageFlow(uia, AuthTypePassword) && uia.flows == [] ==>
      (auth == None && out.lines == old(out.lines) + ["No supported authentication mechanisms found"])
    ensures !HasSingleStageFlow(uia, AuthTypePassword) && uia.flows != [] && |uia.flows[0].stages| != 1 ==>
      auth == None && out.lines == old(out.lines)
    ensures !HasSingleStageFlow(uia, AuthTypePassword) && uia.flows != [] && |uia.flows[0].stages| == 1 ==>
      (out.lines == old(out.lines) + ["Opening browser for authentication"]
         + (if fallbackError.Some? then ["Authentication failed: " + fallbackError.value] else [])
       && auth == (if fallbackError.None? then Some(StageAuth(uia.flows[0].stages[0], uia.session)) else None))
  {
    if !HasSingleStageFlow(uia, AuthTypePassword) {
      // Every iteration returns, so only the first flow is ever examined.
      for i := 0 to |uia.flows|
        invariant i == 0
      {
        var flow := uia.flows[i];
        if |flow.stages| != 1 {
          return None;
        }
        out.Reply("Opening browser for authentication");
        if fallbackError.Some? {
          out.Reply("Authentication failed: " + fallbackError.value);
          return None;
        }
        return Some(StageAuth(flow.stages[0], uia.session));
      }
      out.Reply("No supported authentication mechanisms found");
      return None;
    }
    match password
    case Dismissed =>
      return None;
    case Answered(text) =>
      return Some(PasswordLogin(uia.session, userId, text));
  }

  /** The crypto library calls the commands make, in order. */
  datatype LibraryCall =
    | GenerateKeys
    | PublishKeys(keys: KeySet)
    | FetchFromSsss(key: Key)
    | UploadToSsss(key: Key, keys: KeySet)

  /** The machine's cross-signing state: the cached key set, and the library calls made so far. */
  class CrossSigningMachine {
    var cached: Option<KeySet>
    var calls: seq<LibraryCall>

    constructor (cached: Option<KeySet>)
      ensures this.cached == cached && calls == []
    {
      this.cached := cached;
      calls := [];
    }

    /**
     * `/cross-signing generate [--force]`. `query` answers the probe for published
     * keys, `generated` the key generation and `publishError` the (authenticated)
     * publication. Only a successful publication replaces the cached keys.
     */
    method Generate(out: Console, userId: UserId, force: bool, query: Result<QueryKeysResponse, string>,
                    generated: Result<KeySet, string>, publishError: Option<string>)
      modifies this, out
      ensures !GenerateProceeds(force, query, userId) ==>
        (cached == old(cached) && calls == old(calls)
         && out.lines == old(out.lines) + ["Found existing cross-signing keys. Use `--force` if you want to overwrite them."])
      ensures GenerateProceeds(force, query, userId) && generated.Failure? ==>
        (cached == old(cached) && calls == old(calls) + [GenerateKeys]
         && out.lines == old(out.lines) + ["Failed to generate cross-signing keys: " + generated.error])
      ensures GenerateProceeds(force, query, userId) && generated.Success? ==>
        (calls == old(calls) + [GenerateKeys, PublishKeys(generated.value)]
         && cached == (if publishError.None? then Some(generated.value) else old(cached))
         && out.lines == old(out.lines)
              + (if publishError.Some? then ["Failed to publish cross-signing keys: " + publishError.value] else []))
    {
      if !force {
        if query.Success? {
          var parsed := ParseKeyResp(query.value, userId);
          if parsed.ok {
            out.Reply("Found existing cross-signing keys. Use `--force` if you want to overwrite them.");
            return;
          }
        }
      }
      calls := calls + [GenerateKeys];
      if generated.Failure? {
        out.Reply("Failed to generate cross-signing keys: " + generated.error);
        return;
      }
      var keys := generated.value;
      calls := calls + [PublishKeys(keys)];
      if publishError.Some? {
        out.Reply("Failed to publish cross-signing keys: " + publishError.value);
        return;
      }
      cached := Some(keys);
    }

    /** Unlocks the default secret-storage key, sending the unlock's reply, if any. */
    method Unlock(out: Console, defaultKey: Result<KeyMetadata, GoError>, answer: Prompt,
                  verifyPassphrase: string -> Result<Key, GoError>,
                  verifyRecoveryKey: string -> Result<Key, GoError>) returns (key: Option<Key>)
      modifies out
      ensures var u := GetSsss(defaultKey, answer, verifyPassphrase, verifyRecoveryKey);
        && (key.Some? <==> u.outcome.Unlocked?)
        && (key.Some? ==> key.value == u.outcome.key)
        && out.lines == old(out.lines) + UnlockReplies(u.outcome)
    {
      var u := GetSsss(defaultKey, answer, verifyPassphrase, verifyRecoveryKey);
      var replies := UnlockReplies(u.outcome);
      if replies != [] {
        out.Reply(replies[0]);
      }
      assert out.lines == old(out.lines) + replies;
      key := if u.outcome.Unlocked? then Some(u.outcome.key) else None;
    }

    /**
     * `/cross-signing fetch [--save-to-disk]`: unlocks secret storage, then fetches and
     * caches the keys (`fetched` is the library's answer). Saving to disk is only
     * announced as not implemented.
     */
    method Fetch(out: Console, saveToDisk: bool, defaultKey: Result<KeyMetadata, GoError>, answer: Prompt,
                 verifyPassphrase: string -> Result<Key, GoError>,
                 verifyRecoveryKey: string -> Result<Key, GoError>, fetched: Result<KeySet, string>)
      modifies this, out
      ensures var u := GetSsss(defaultKey, answer, verifyPassphrase, verifyRecoveryKey);
        && (!u.outcome.Unlocked? ==>
              (cached == old(cached) && calls == old(calls)
               && out.lines == old(out.lines) + UnlockReplies(u.outcome)))
        && (u.outcome.Unlocked? ==>
              (calls == old(calls) + [FetchFromSsss(u.outcome.key)]
               && cached == (if fetched.Success? then Some(fetched.value) else old(cached))
               && out.lines == old(out.lines)
                  + (if fetched.Failure? then ["Error fetching cross-signing keys: " + fetched.error]
                     else (if saveToDisk then ["Saving keys to disk is not yet implemented"] else [])
                          + ["Successfully unlocked cross-signing keys"])))
    {
      var key := Unlock(out, defaultKey, answer, verifyPassphrase, verifyRecoveryKey);
      if key.None? {
        return;
      }
      calls := calls + [FetchFromSsss(key.value)];
      if fetched.Failure? {
        out.Reply("Error fetching cross-signing keys: " + fetched.error);
        return;
      }
      cached := Some(fetched.value);
      if saveToDisk {
        out.Reply("Saving keys to disk is not yet implemented");
      }
      out.Reply("Successfully unlocked cross-signing keys");
    }

    /**
     * `/cross-signing upload`: needs cached keys, then unlocks secret storage and
     * uploads the cached keys into it (`uploadError` is the outcome). The cache is
     * left as it was.
     */
    method Upload(out: Console, origCommand: string, defaultKey: Result<KeyMetadata, GoError>, answer: Prompt,
                  verifyPassphrase: string -> Result<Key, GoError>,
                  verifyRecoveryKey: string -> Result<Key, GoError>, uploadError: Option<string>)
      modifies this`calls, out
      ensures cached.None? ==>
        (calls == old(calls)
         && out.lines == old(out.lines) + ["Cross-signing keys not cached, use `!" + origCommand + " generate` first"])
      ensures cached.Some? ==>
        var u := GetSsss(defaultKey, answer, verifyPassphrase, verifyRecoveryKey);
        && (!u.outcome.Unlocked? ==> calls == old(calls) && out.lines == old(out.lines) + UnlockReplies(u.outcome))
        && (u.outcome.Unlocked? ==>
              (calls == old(calls) + [UploadToSsss(u.outcome.key, cached.value)]
               && out.lines == old(out.lines)
                  + [if uploadError.Some? then "Failed to upload keys to SSSS: " + uploadError.value
                     else "Successfully uploaded cross-signing keys to SSSS"]))
    {
      if cached.None? {
        out.Reply("Cross-signing keys not cached, use `!" + origCommand + " generate` first");
        return;
      }
      var key := Unlock(out, defaultKey, answer, verifyPassphrase, verifyRecoveryKey);
      if key.None? {
        return;
      }
      calls := calls + [UploadToSsss(key.value, cached.value)];
      if uploadError.Some? {
        out.Reply("Failed to upload keys to SSSS: " + uploadError.value);
      } else {
        out.Reply("Successfully uploaded cross-signing keys to SSSS");
      }
    }
  }
}
