/**
 * Secret storage (SSSS): unlocking the default key with a passphrase or a recovery
 * key, reporting a key's status, generating a key and choosing the default key.
 * The server round-trips, the prompts and the key derivation are inputs: each
 * function receives what they answered.
 */
module SecretStorage {
  import opened Wrappers
  import opened Text

  /** The error identities the commands test for with `errors.Is`. */
  datatype ErrorKind =
    | NotFound               // the server's M_NOT_FOUND
    | NoDefaultKeyEvent      // no default-key account data event
    | IncorrectSsssKey       // passphrase or recovery key does not match the key metadata
    | InvalidRecoveryKey     // recovery key text does not decode

  /** A Go error: the identities `errors.Is` finds in its chain, and its message. */
  datatype GoError = GoError(kinds: set<ErrorKind>, message: string)

  /** The passphrase parameters of a key: key derivation algorithm, bits and iterations. */
  datatype Passphrase = Passphrase(algorithm: string, bits: int, iterations: int)

  /** Key metadata as stored on the server. */
  datatype KeyMetadata = KeyMetadata(algorithm: string, passphrase: Option<Passphrase>)

  /** Key material, opaque here. */
  datatype Key = Key(id: string)

  /** A password prompt's answer: the entered text, or the dialog was dismissed. */
  datatype Prompt = Answered(text: string) | Dismissed

  datatype PromptKind = PassphrasePrompt | RecoveryKeyPrompt

  const PassphraseAlgorithmPbkdf2 := "m.pbkdf2"
  const AlgorithmAesHmacSha2 := "m.secret_storage.v1.aes-hmac-sha2"

  /** A key is unlocked with a passphrase only when its metadata declares a PBKDF2 passphrase. */
  predicate UsesPassphrase(meta: KeyMetadata) {
    meta.passphrase.Some? && meta.passphrase.value.algorithm == PassphraseAlgorithmPbkdf2
  }

  /** Why unlocking failed. */
  datatype UnlockError =
    | NotSetUp                      // no default key metadata on the server
    | FetchFailed(message: string)  // any other error fetching it
    | IncorrectPassphrase
    | MalformedRecoveryKey
    | IncorrectRecoveryKey
    | OtherFailure(message: string) // any residual verification error

  datatype UnlockOutcome = Unlocked(key: Key) | Cancelled | Failed(error: UnlockError)

  /** The outcome of unlocking, and which prompt (if any) was shown on the way. */
  datatype Unlock = Unlock(prompt: Option<PromptKind>, outcome: UnlockOutcome)

  /** The reply each outcome sends; unlocking and cancelling send none. */
  function UnlockReplies(o: UnlockOutcome): (replies: seq<string>)
    ensures |replies| <= 1 && (replies == [] <==> !o.Failed?)
  {
    match o
    case Unlocked(_) => []
    case Cancelled => []
    case Failed(NotSetUp) => ["SSSS not set up, use `!ssss generate --set-default` first"]
    case Failed(FetchFailed(message)) => ["Failed to fetch default SSSS key data: " + message]
    case Failed(IncorrectPassphrase) => ["Incorrect passphrase"]
    case Failed(MalformedRecoveryKey) => ["Malformed recovery key"]
    case Failed(IncorrectRecoveryKey) => ["Incorrect recovery key"]
    case Failed(OtherFailure(message)) => ["Failed to get SSSS key: " + message]
  }

  /** The verification the unlock applies to the entered text, chosen by the key's metadata. */
  function Verifier(meta: KeyMetadata, verifyPassphrase: string -> Result<Key, GoError>,
                    verifyRecoveryKey: string -> Result<Key, GoError>): string -> Result<Key, GoError> {
    if UsesPassphrase(meta) then verifyPassphrase else verifyRecoveryKey
  }

  /**
   * Unlocks the default secret-storage key. `defaultKey` is the server's answer for
   * the default key's metadata, `answer` the prompt's answer, and `verifyPassphrase`
   * and `verifyRecoveryKey` check a passphrase or recovery key against that metadata.
   */
  function GetSsss(defaultKey: Result<KeyMetadata, GoError>, answer: Prompt,
                   verifyPassphrase: string -> Result<Key, GoError>,
                   verifyRecoveryKey: string -> Result<Key, GoError>): (u: Unlock)
    ensures u.prompt == Some(PassphrasePrompt) <==> defaultKey.Success? && UsesPassphrase(defaultKey.value)
    ensures u.prompt == Some(RecoveryKeyPrompt) <==> defaultKey.Success? && !UsesPassphrase(defaultKey.value)
    ensures u.outcome.Unlocked? <==> (defaultKey.Success? && answer.Answered?
      && Verifier(defaultKey.value, verifyPassphrase, verifyRecoveryKey)(answer.text).Success?)
    ensures u.outcome.Unlocked? ==>
      u.outcome.key == Verifier(defaultKey.value, verifyPassphrase, verifyRecoveryKey)(answer.text).value
    ensures u.outcome.Cancelled? <==> defaultKey.Success? && answer.Dismissed?
  {
    match defaultKey
    case Failure(err) =>
      Unlock(None, Failed(if NotFound in err.kinds then NotSetUp else FetchFailed(err.message)))
    case Success(meta) =>
      if UsesPassphrase(meta) then
        match answer
        case Dismissed => Unlock(Some(PassphrasePrompt), Cancelled)
        case Answered(passphrase) =>
          match verifyPassphrase(passphrase)
          case Success(key) => Unlock(Some(PassphrasePrompt), Unlocked(key))
          case Failure(err) =>
            Unlock(Some(PassphrasePrompt),
                   Failed(if IncorrectSsssKey in err.kinds then IncorrectPassphrase else OtherFailure(err.message)))
      else
        match answer
        case Dismissed => Unlock(Some(RecoveryKeyPrompt), Cancelled)
        case Answered(recoveryKey) =>
          match verifyRecoveryKey(recoveryKey)
          case Success(key) => Unlock(Some(RecoveryKeyPrompt), Unlocked(key))
          case Failure(err) =>
            Unlock(Some(RecoveryKeyPrompt),
                   Failed(if InvalidRecoveryKey in err.kinds then MalformedRecoveryKey
                          else if IncorrectSsssKey in err.kinds then IncorrectRecoveryKey
                          else OtherFailure(err.message)))
  }

  /**
   * Error classification of the unlock: a missing default key is "not set up"; a
   * recovery key that does not decode is "malformed", whether or not it also carries
   * the incorrect-key identity; an incorrect passphrase or recovery key is "incorrect";
   * every other verification error is a generic failure with its message. A passphrase
   * error is never called malformed.
   */
  lemma UnlockErrorClasses(meta: KeyMetadata, text: string,
                           verifyPassphrase: string -> Result<Key, GoError>,
                           verifyRecoveryKey: string -> Result<Key, GoError>)
    ensures var u := GetSsss(Success(meta), Answered(text), verifyPassphrase, verifyRecoveryKey);
      var r := Verifier(meta, verifyPassphrase, verifyRecoveryKey)(text);
      && (u.outcome == Failed(MalformedRecoveryKey) <==>
            !UsesPassphrase(meta) && r.Failure? && InvalidRecoveryKey in r.error.kinds)
      && (u.outcome == Failed(IncorrectRecoveryKey) <==>
            !UsesPassphrase(meta) && r.Failure? && InvalidRecoveryKey !in r.error.kinds && IncorrectSsssKey in r.error.kinds)
      && (u.outcome == Failed(IncorrectPassphrase) <==>
            UsesPassphrase(meta) && r.Failure? && IncorrectSsssKey in r.error.kinds)
      && (u.outcome.Failed? && u.outcome.error.OtherFailure? <==>
            r.Failure? && IncorrectSsssKey !in r.error.kinds && (UsesPassphrase(meta) || InvalidRecoveryKey !in r.error.kinds))
  {
  }

  /** Without default key metadata nothing is prompted, and only an M_NOT_FOUND answer reads as "not set up". */
  lemma UnlockWithoutDefaultKey(err: GoError, answer: Prompt,
                                verifyPassphrase: string -> Result<Key, GoError>,
                                verifyRecoveryKey: string -> Result<Key, GoError>)
    ensures var u := GetSsss(Failure(err), answer, verifyPassphrase, verifyRecoveryKey);
      u.prompt == None && (u.outcome == Failed(NotSetUp) <==> NotFound in err.kinds)
  {
  }

  /** What `/ssss set-default` did: its replies and whether it asked the server to change the default. */
  datatype SetDefaultOutcome = SetDefaultOutcome(replies: seq<string>, defaultRequested: bool)

  /**
   * `/ssss set-default <key ID>`: the key's metadata must be on the server before the
   * default is changed; a missing key is reported apart from other fetch errors.
   * `lookup` is the metadata fetch's answer and `setError` the outcome of the change.
   */
  function S4SetDefault(keyId: string, lookup: Result<KeyMetadata, GoError>, setError: Option<string>): (o: SetDefaultOutcome)
    ensures o.defaultRequested <==> lookup.Success?
    ensures lookup.Failure? && NotFound in lookup.error.kinds ==> o.replies == ["Couldn't find key data on server"]
    ensures lookup.Failure? && NotFound !in lookup.error.kinds ==> o.replies == ["Failed to fetch key data: " + lookup.error.message]
    ensures lookup.Success? && setError.None? ==> o.replies == ["Successfully set key " + keyId + " as default"]
    ensures lookup.Success? && setError.Some? ==> o.replies == ["Failed to set key as default: " + setError.value]
  {
    match lookup
    case Failure(err) =>
      SetDefaultOutcome([if NotFound in err.kinds then "Couldn't find key data on server"
                         else "Failed to fetch key data: " + err.message], false)
    case Success(_) =>
      SetDefaultOutcome([if setError.Some? then "Failed to set key as default: " + setError.value
                         else "Successfully set key " + keyId + " as default"], true)
  }

  /** A freshly derived key: its ID, its metadata and its recovery-key encoding. */
  datatype NewKey = NewKey(id: string, metadata: KeyMetadata, recoveryKey: string)

  /** What `/ssss generate` did: its replies, the key whose metadata was uploaded, and whether the default was changed. */
  datatype GenerateOutcome = GenerateOutcome(replies: seq<string>, uploaded: Option<NewKey>, defaultRequested: bool)

  /**
   * `/ssss generate [--set-default]`. A dismissed prompt ends the command silently.
   * `derive` is the key derivation from the passphrase, `uploadError` the outcome of
   * uploading the key's metadata and `setError` that of making it the default.
   */
  function S4Generate(origCommand: string, setDefault: bool, answer: Prompt, derive: string -> Result<NewKey, string>,
                      uploadError: Option<string>, setError: Option<string>): (o: GenerateOutcome)
    ensures answer.Dismissed? ==> o == GenerateOutcome([], None, false)
    ensures o.uploaded.Some? <==> answer.Answered? && derive(answer.text).Success? && uploadError.None?
    ensures o.uploaded.Some? ==> o.uploaded.value == derive(answer.text).value
    ensures o.uploaded.Some? ==> |o.replies| >= 1 && o.replies[0] == "Successfully generated key " + o.uploaded.value.id + "\nRecovery key: " + o.uploaded.value.recoveryKey
    ensures o.defaultRequested <==> o.uploaded.Some? && setDefault
    ensures answer.Answered? && derive(answer.text).Failure? ==>
      o.replies == ["Failed to generate new key: " + derive(answer.text).error]
    ensures answer.Answered? && derive(answer.text).Success? && uploadError.Some? ==>
      o.replies == ["Failed to upload key metadata: " + uploadError.value]
    ensures o.uploaded.Some? && setDefault ==>
      o.replies[1..] == (if setError.Some? then ["Failed to set key as default: " + setError.value] else [])
    ensures o.uploaded.Some? && !setDefault ==>
      o.replies[1..] == ["You can use `/" + origCommand + " set-default " + o.uploaded.value.id + "` to set it as the default"]
  {
    match answer
    case Dismissed => GenerateOutcome([], None, false)
    case Answered(passphrase) =>
      match derive(passphrase)
      case Failure(e) => GenerateOutcome(["Failed to generate new key: " + e], None, false)
      case Success(key) =>
        if uploadError.Some? then GenerateOutcome(["Failed to upload key metadata: " + uploadError.value], None, false)
        else
          var shown := "Successfully generated key " + key.id + "\nRecovery key: " + key.recoveryKey;
          if setDefault then
            GenerateOutcome([shown] + (if setError.Some? then ["Failed to set key as default: " + setError.value] else []),
                            Some(key), true)
          else
            GenerateOutcome([shown, "You can use `/" + origCommand + " set-default " + key.id + "` to set it as the default"],
                            Some(key), false)
  }

  /** What `/ssss status` did: its replies, and whether it dereferenced absent key metadata. */
  datatype StatusOutcome = StatusOutcome(replies: seq<string>, crashed: bool)

  /** The "Has passphrase" field: "no", or the passphrase's algorithm, bits and iterations. */
  function PassphraseSummary(meta: KeyMetadata): (text: string)
    ensures text == "no" <==> meta.passphrase.None?
    ensures meta.passphrase.Some? ==>
      text == "yes (alg=" + meta.passphrase.value.algorithm + ",bits=" + IntToString(meta.passphrase.value.bits)
              + ",iter=" + IntToString(meta.passphrase.value.iterations) + ")"
  {
    match meta.passphrase
    case None => "no"
    case Some(p) =>
      var text := "yes (alg=" + p.algorithm + ",bits=" + IntToString(p.bits) + ",iter=" + IntToString(p.iterations) + ")";
      assert text[0] == 'y';
      text
  }

  /** The "Algorithm" field: the key's algorithm, flagged unless it is the one supported. */
  function AlgorithmSummary(meta: KeyMetadata): (text: string)
    ensures meta.algorithm <= text
    ensures text == meta.algorithm <==> meta.algorithm == AlgorithmAesHmacSha2
    ensures text != meta.algorithm ==> text[|meta.algorithm|..] == " (not supported!)"
  {
    if meta.algorithm != AlgorithmAesHmacSha2 then
      var text := meta.algorithm + " (not supported!)";
      assert text[..|meta.algorithm|] == meta.algorithm;
      text
    else meta.algorithm
  }

  /** The status report of a key whose metadata was found. */
  function KeyStatusReply(keyId: string, meta: KeyMetadata): (reply: string)
    ensures exists passphrase, algorithm ::
      reply == "Default key is set.\n  Key ID: " + keyId + "\n  Has passphrase: " + passphrase + "\n  Algorithm: " + algorithm
      && (passphrase == "no" <==> meta.passphrase.None?)
      && meta.algorithm <= algorithm
      && (algorithm == meta.algorithm <==> meta.algorithm == AlgorithmAesHmacSha2)
  {
    "Default key is set.\n  Key ID: " + keyId + "\n  Has passphrase: " + PassphraseSummary(meta)
    + "\n  Algorithm: " + AlgorithmSummary(meta)
  }

  /**
   * `/ssss status [key ID]` as written. `lookup` is the server's answer (for the
   * default key when no ID is given, then `defaultId` is the ID it named). After
   * reporting that no default key is set it does not return, and goes on to read the
   * metadata it does not have.
   */
  function S4StatusAsWritten(keyId: string, defaultId: string, lookup: Result<KeyMetadata, GoError>): (o: StatusOutcome)
    ensures o.crashed <==> lookup.Failure? && NoDefaultKeyEvent in lookup.error.kinds
  {
    var shownId := if |keyId| == 0 then defaultId else keyId;
    match lookup
    case Failure(err) =>
      if NoDefaultKeyEvent in err.kinds then StatusOutcome(["SSSS is not set up: no default key set"], true)
      else StatusOutcome(["Failed to get key data: " + err.message], false)
    case Success(meta) => StatusOutcome([KeyStatusReply(shownId, meta)], false)
  }

  /** The as-written status command crashes when the lookup reports that no default key is set. */
  lemma S4StatusAsWrittenCrashes(keyId: string, defaultId: string, message: string)
    ensures S4StatusAsWritten(keyId, defaultId, Failure(GoError({NoDefaultKeyEvent}, message))).crashed
  {
  }

  /** `/ssss status [key ID]`, returning after it reports that no default key is set. */
  function S4Status(keyId: string, defaultId: string, lookup: Result<KeyMetadata, GoError>): (o: StatusOutcome)
    ensures !o.crashed && |o.replies| == 1
    ensures lookup.Failure? && NoDefaultKeyEvent in lookup.error.kinds ==> o.replies == ["SSSS is not set up: no default key set"]
    ensures lookup.Failure? && NoDefaultKeyEvent !in lookup.error.kinds ==> o.replies == ["Failed to get key data: " + lookup.error.message]
    ensures lookup.Success? ==> o.replies == [KeyStatusReply(if |keyId| == 0 then defaultId else keyId, lookup.value)]
  {
    match lookup
    case Failure(err) =>
      if NoDefaultKeyEvent in err.kinds then StatusOutcome(["SSSS is not set up: no default key set"], false)
      else StatusOutcome(["Failed to get key data: " + err.message], false)
    case Success(meta) => StatusOutcome([KeyStatusReply(if |keyId| == 0 then defaultId else keyId, meta)], false)
  }

  /** Wherever the as-written command does not crash, the corrected one replies the same. */
  lemma S4StatusAgreesWhenNoCrash(keyId: string, defaultId: string, lookup: Result<KeyMetadata, GoError>)
    ensures !S4StatusAsWritten(keyId, defaultId, lookup).crashed ==>
      S4Status(keyId, defaultId, lookup) == S4StatusAsWritten(keyId, defaultId, lookup)
  {
  }
}
