# gomuks end-to-end encryption commands, modelled in Dafny

This project models the decision logic behind the encryption commands of gomuks, the terminal Matrix client. All of it lives in `ui/crypto-commands.go`. It covers:

- `/device`, `/devices`, `/verify`, `/unverify` and `/blacklist`. These inspect a device and change its trust state, and the crypto store records the change.
- Tab completion of their `<user id> <device id>` arguments.
- `/ssss` and its subcommands. These inspect, generate and select a Secure Secret Storage and Sharing (SSSS) key.
- Unlocking the default SSSS key with a passphrase or a recovery key.
- `/cross-signing`: status, generate, fetch and upload. This includes the user-interactive authentication callback that key publication goes through. That callback follows section 5 of the Matrix Client-Server API.

The modules follow the file's own structure:

- `Text`: the Go string functions the commands rely on (`strings.ToUpper`/`ToLower`, `HasPrefix`, `Join`, `unicode.IsSpace`, integer formatting).
- `Chat`: the command arguments and the reply console.
- `DeviceTrust`: device lookup and storage, the trust commands, and device display and listing.
- `Autocomplete`: argument completion.
- `Subcommands`: `/ssss` and `/cross-signing` dispatch.
- `SecretStorage`: key unlocking and the `/ssss` subcommands.
- `CrossSigning`: key parsing, status, generation, authentication, fetch and upload.

Everything the commands ask of the crypto library, the server or the user is an input of the model. That includes store lookups and writes, key queries, key generation and publication, SSSS getters and setters, passphrase verification, the browser fallback and password prompts. Each is a success value or an error, or a `Prompt` that was `Answered(text)` or `Dismissed`.

A Go error is a `GoError(kinds, message)`, and `errors.Is(err, X)` is `X in kinds`. Replies go to a `Console` whose `lines` grow by one per reply. Objects the Go code updates in place are classes: a device's trust, the crypto store, and the machine's cached cross-signing keys. The store and the machine also record the library calls made on them.

## Model

| member | source | states |
|---|---|---|
| Chat.Console.Reply | ui/crypto-commands.go:97 | each reply appends exactly one line to the console |
| Text.ToUpper | ui/crypto-commands.go:58 | upper-casing keeps the length, turns each lower-case ASCII letter into its capital (code point minus 32) and changes nothing else |
| Text.ToLower | ui/crypto-commands.go:322 | lower-casing keeps the length, turns each upper-case ASCII letter into its small letter (code point plus 32) and changes nothing else |
| Text.ToLowerIdempotent | ui/crypto-commands.go:322 | lower-casing twice is lower-casing once |
| Text.ToUpperIdempotent | ui/crypto-commands.go:58 | upper-casing twice is upper-casing once |
| Text.JoinEmptyIsConcat | ui/crypto-commands.go:182 | joining the fingerprint words with "" is their concatenation |
| Text.IntToString | ui/crypto-commands.go:359 | `%d` formatting: a '-' exactly for negative numbers, then decimal digits without leading zeros whose value (read back by an independent digit reader) is the magnitude |
| Autocomplete.UserIdCompletion | ui/crypto-commands.go:37-48 | exactly one member match rewrites the line to "/cmd id " with no completions; otherwise the completions are the match IDs in order and the line is kept |
| Autocomplete.CompleteUserId | ui/crypto-commands.go:37-48 | the loop filling the completion array computes `UserIdCompletion` |
| Autocomplete.MatchingMembers | ui/crypto-commands.go:58-68 | a device is offered iff it is one of the user's devices and its upper-cased name or its raw device ID starts with the upper-cased argument |
| Autocomplete.MatchingShorter | ui/crypto-commands.go:58-68 | filtering never offers more devices than the user has |
| Autocomplete.DeviceIdCompletion | ui/crypto-commands.go:50-82 | a store error or an empty device list completes nothing and keeps the line, whatever the argument count; in every case the device-ID completion never offers more candidates than devices, rewrites the line exactly when there is one candidate, and the rewrite starts with "/cmd user " |
| Autocomplete.DeviceIdCompletionWithoutPrefix | ui/crypto-commands.go:69-80 | with only the user ID typed (and followed by white space) and the store answering without error, every device is offered in the store's order, and the line is rewritten to "/cmd user dev " iff the store lists exactly one device |
| Autocomplete.DeviceIdCompletionSpec | ui/crypto-commands.go:50-82 | with a device ID being typed: a store error, no devices or an exact upper-cased device ID give ([], ""); otherwise every matching device is offered, no more candidates than devices, and the line becomes "/cmd user dev " iff exactly one completion results |
| Autocomplete.DeviceIdCompletionOnlyMatches | ui/crypto-commands.go:58-68 | every candidate offered is the label of one of the user's devices whose upper-cased name or raw ID starts with the upper-cased argument |
| Autocomplete.CollectMatching | ui/crypto-commands.go:56-68 | the loop over the devices finds an exact ID iff one exists, else collects the labels of the matching devices and remembers the last match's ID |
| Autocomplete.CollectAll | ui/crypto-commands.go:70-76 | the indexed loop fills the array with every device's label and remembers the last device's ID |
| Autocomplete.CompleteDeviceId | ui/crypto-commands.go:50-82 | the imperative completion computes `DeviceIdCompletion` |
| Autocomplete.Route | ui/crypto-commands.go:84-93 | no arguments complete nothing; user-ID completion iff there is one argument and no trailing whitespace; otherwise device-ID completion exactly for commands other than `devices`, which completes nothing after its first argument |
| Autocomplete.CompleteDevice | ui/crypto-commands.go:84-93 | the completion returned is the one the route selects |
| DeviceTrust.Device.Record | ui/crypto-commands.go:109-118 | the record written carries the device's current trust and its signing key |
| DeviceTrust.GetDevice | ui/crypto-commands.go:95-107 | fewer than two arguments print usage and look nothing up; otherwise one lookup of (user, device), with the error replied on failure |
| DeviceTrust.PutDevice | ui/crypto-commands.go:109-118 | one store write; the stored map changes only on success; the devices-changed notification is sent whether or not the write failed; the reply is the failure or "Successfully action user/device (name)" |
| DeviceTrust.VerifyStep | ui/crypto-commands.go:162-194 | already verified iff trust is Verified; interactive iff exactly two args; set to Verified iff the joined fingerprint equals the signing key, else "Mismatching fingerprint"; label "unblacklisted and verified" iff previously Blacklisted |
| DeviceTrust.UnverifyStep | ui/crypto-commands.go:196-211 | already unverified iff trust is Unset; otherwise set to Unset with label "unblacklisted" iff previously Blacklisted, else "unverified" |
| DeviceTrust.BlacklistStep | ui/crypto-commands.go:213-228 | already blacklisted iff trust is Blacklisted; otherwise set to Blacklisted with label "unverified and blacklisted" iff previously Verified, else "blacklisted" |
| DeviceTrust.TrustCommandsIdempotent | ui/crypto-commands.go:167-170 | repeating verify (with the right fingerprint), unverify or blacklist finds the device already in the target state |
| DeviceTrust.ApplyStep | ui/crypto-commands.go:181-192 | the device's new trust is the step's target; a guarded or mismatching step writes nothing and notifies no one |
| DeviceTrust.CmdVerify | ui/crypto-commands.go:162-194 | whole machine state in every case: usage looks nothing up and changes nothing; otherwise one lookup; a failed lookup, the guard or a mismatching fingerprint changes no stored device, writes nothing and notifies no one; an interactive start only reports a failed start; a trust change sets the device's trust, writes it once, updates the stored map only on success, notifies always, and replies the write's outcome |
| DeviceTrust.CmdUnverify | ui/crypto-commands.go:196-211 | whole machine state in every case: usage looks nothing up and changes nothing; otherwise one lookup; a failed lookup, the guard changes no stored device, writes nothing and notifies no one; a trust change sets the device's trust, writes it once, updates the stored map only on success, notifies always, and replies the write's outcome |
| DeviceTrust.CmdBlacklist | ui/crypto-commands.go:213-228 | whole machine state in every case: usage looks nothing up and changes nothing; otherwise one lookup; a failed lookup, the guard changes no stored device, writes nothing and notifies no one; a trust change sets the device's trust, writes it once, updates the stored map only on success, notifies always, and replies the write's outcome |
| DeviceTrust.ShowText | ui/crypto-commands.go:147-160 | the description starts "Deleted device " iff the device is deleted, else "Device " |
| DeviceTrust.CmdDevice | ui/crypto-commands.go:147-160 | fewer than two arguments print the usage and look nothing up; otherwise exactly one lookup of (user, device) is logged, and a found device is described in one reply ("Deleted device" or "Device", its IDs, fingerprint, identity key, name and trust), else the lookup error is replied |
| DeviceTrust.ListEntries | ui/crypto-commands.go:139-141 | one entry per device, in order |
| DeviceTrust.JoinAppend | ui/crypto-commands.go:139-144 | appending an entry to a joined list adds the separator and the entry |
| DeviceTrust.WrittenIsJoin | ui/crypto-commands.go:139-144 | the builder's text is the entries joined by newlines plus a final newline |
| DeviceTrust.RenderDeviceList | ui/crypto-commands.go:138-144 | the builder loop, with its last byte cut, is the entries joined by newlines |
| DeviceTrust.DevicesReplies | ui/crypto-commands.go:120-145 | a store error is replied first and does not stop the command; the server is asked exactly when the store holds no device; the last reply lists the stored devices, else the fetched ones, else "No devices found for user" |
| DeviceTrust.CmdDevices | ui/crypto-commands.go:120-145 | no argument prints usage; otherwise the replies are `DevicesReplies` |
| Subcommands.ParseSsss | ui/crypto-commands.go:314-341 | each subcommand iff the lower-cased first argument names it; `--set-default` recognised in any case; `set-default` without an ID gives usage; help otherwise |
| Subcommands.ParseCrossSigning | ui/crypto-commands.go:433-456 | each subcommand iff the lower-cased first argument names it; `--force` and `--save-to-disk` recognised in any case; help otherwise |
| Subcommands.UsageText | ui/crypto-commands.go:307 | every usage and help text of `/ssss` and `/cross-signing` starts with "Usage: /", the command as typed, and a space (the device commands instead name the canonical command, and `/devices` has a fixed usage) |
| Subcommands.SsssDispatchReply | ui/crypto-commands.go:314-341 | `/ssss` replies by itself exactly for the help (missing or unknown subcommand) and for `set-default` without a key ID, and that reply is a usage text naming the command as typed |
| Subcommands.CrossSigningDispatchReply | ui/crypto-commands.go:433-456 | `/cross-signing` replies by itself exactly for a missing or unknown subcommand, with the help text naming the command as typed |
| Subcommands.SameParse | ui/crypto-commands.go:321 | both parsers see only the lower case of the first argument and the arguments after it |
| Subcommands.SubcommandCaseInsensitive | ui/crypto-commands.go:321 | re-casing the subcommand word selects the same command |
| SecretStorage.UnlockReplies | ui/crypto-commands.go:582-624 | exactly the failures reply, with one line each |
| SecretStorage.GetSsss | ui/crypto-commands.go:582-624 | the passphrase prompt iff the default key declares a PBKDF2 passphrase, else the recovery-key prompt; unlocked iff the chosen verification accepts the answer; cancelled iff the prompt is dismissed |
| SecretStorage.UnlockErrorClasses | ui/crypto-commands.go:595-622 | malformed iff recovery-key verification reports an invalid key; incorrect iff it reports an incorrect key (for either prompt); every other error is a generic failure |
| SecretStorage.UnlockWithoutDefaultKey | ui/crypto-commands.go:583-591 | without default key data nothing is prompted, and "not set up" iff the error is M_NOT_FOUND |
| SecretStorage.S4SetDefault | ui/crypto-commands.go:399-416 | setting the default is requested iff the key's data was fetched (whether it took effect is the setter's outcome); M_NOT_FOUND and other fetch errors and both set outcomes reply as written |
| SecretStorage.S4Generate | ui/crypto-commands.go:368-397 | a dismissed prompt does nothing; a derivation or upload failure is its one reply; metadata uploaded iff derivation and upload succeed, and the first reply then shows the key ID and recovery key, followed by the set-default failure (if any) with `--set-default`, or the "You can use `/cmd set-default id`" reminder without it; setting the default is requested iff the metadata was uploaded and `--set-default` was given |
| SecretStorage.PassphraseSummary | ui/crypto-commands.go:356-359 | "Has passphrase" is "no" exactly when no passphrase is declared, else "yes (alg=…,bits=…,iter=…)" with the decimal bits and iterations |
| SecretStorage.AlgorithmSummary | ui/crypto-commands.go:360-363 | "Algorithm" is the key's algorithm, followed by " (not supported!)" exactly when it is not `m.secret_storage.v1.aes-hmac-sha2` |
| SecretStorage.KeyStatusReply | ui/crypto-commands.go:355-365 | the report names the key ID on its own line, says "no" for the passphrase exactly when none is declared, and shows the key's algorithm, unchanged exactly when it is AES-HMAC-SHA2 |
| SecretStorage.S4StatusAsWritten | ui/crypto-commands.go:343-366 | as written, the status command crashes exactly when the lookup fails because no default key is set |
| SecretStorage.S4StatusAsWrittenCrashes | ui/crypto-commands.go:351-358 | with no default key set, the command as written goes on to read missing key data |
| SecretStorage.S4Status | ui/crypto-commands.go:343-366 | exactly one reply: not set up, the fetch error, or the key's status |
| SecretStorage.S4StatusAgreesWhenNoCrash | ui/crypto-commands.go:343-366 | wherever the command as written does not crash, the corrected one replies the same |
| CrossSigning.ParseKeyResp | ui/crypto-commands.go:458-472 | as written: ok iff master and self-signing keys exist; without a user-signing key (master, self-signing, ""); with one (master, user-signing, self-signing) |
| CrossSigning.ParseKeyRespFixed | ui/crypto-commands.go:458-472 | corrected: ok iff master and self-signing keys exist, and always (master, self-signing, user-signing or "") |
| CrossSigning.ParseKeyRespFixOnlyReorders | ui/crypto-commands.go:458-472 | the two versions agree on ok and on the master key, agree wholly without a user-signing key, and otherwise differ only in the order of the last two keys |
| CrossSigning.StatusAsWrittenSwapsLabels | ui/crypto-commands.go:474-500 | with all three keys published, the status report as written labels the self-signing key "User signing key" and the user-signing key "Self-signing key" |
| CrossSigning.StatusAsWritten | ui/crypto-commands.go:474-500 | as written: cached keys from the cache, the query error, "not found" without master or self-signing key; with published keys the header "Cross-signing is set up, but private keys are not cached" and the master key; without a user-signing key an empty "User signing key: " and the self-signing key; with all three keys the self-signing key is printed as "User signing key" and the user-signing key as "Self-signing key" |
| CrossSigning.StatusAsWrittenAgreesWithoutUserSigningKey | ui/crypto-commands.go:466-469 | without a published user-signing key the report as written equals the corrected one |
| CrossSigning.Status | ui/crypto-commands.go:474-500 | corrected (reads the response with `ParseKeyRespFixed`): cached keys are reported from the cache; a query error is replied; missing master or self-signing keys are reported as not found |
| CrossSigning.StatusLabelsPublishedKeys | ui/crypto-commands.go:490-499 | the corrected report prints each published key under its own label |
| CrossSigning.GenerateProceeds | ui/crypto-commands.go:520-532 | read with `parseKeyResp` as written, generation is refused iff `--force` is absent and the key query succeeds and finds published keys |
| CrossSigning.GenerateGateUnaffected | ui/crypto-commands.go:525-531 | the corrected parser decides the generate gate the same way, so the swap does not reach it |
| CrossSigning.UiaCallback | ui/crypto-commands.go:541-573 | a password-only flow prompts and returns a password login (nil when dismissed); otherwise only the first flow is tried: one stage uses the browser fallback, more give nil; "No supported authentication mechanisms found" only for an empty flow list |
| CrossSigning.CrossSigningMachine.Generate | ui/crypto-commands.go:519-580 | refused without any library call when keys exist and `--force` is absent; the generation error, the publication error or (on success) the new cached keys |
| CrossSigning.CrossSigningMachine.Unlock | ui/crypto-commands.go:582-624 | the key returned is the one `GetSsss` unlocks, with its reply |
| CrossSigning.CrossSigningMachine.Fetch | ui/crypto-commands.go:502-517 | nothing is fetched unless unlocking succeeds; a fetch error is replied; otherwise the fetched keys are cached, with the not-implemented notice for `--save-to-disk` and the success reply |
| CrossSigning.CrossSigningMachine.Upload | ui/crypto-commands.go:626-643 | without cached keys only the hint naming the command; otherwise unlock, then upload the cached keys and reply the outcome; the cache is unchanged |

## Left out

- `/import`, `/export`, `/export-room` and `/reset-session` (ui/crypto-commands.go:230-305). They are file-system I/O and foreign cryptography (key export and import, path resolution, outbound session removal).
- Interactive SAS verification (ui/crypto-commands.go:171-180). This is the verification modal, the 120-second timeout and the SAS protocol. The model keeps only the branch (`Interactive`) and does not change trust on it.
- Fingerprint computation and `TrustState.String()` are inputs (a `Rendering`), not computed.
- Library internals are outcomes given as inputs: store lookups and writes, key queries, key generation and publication, SSSS getters and setters, and passphrase and recovery-key verification.
- Text.ToUpper: maps only ASCII letters. Go's `strings.ToUpper` also maps other Unicode letters.
- Text.ToLower: maps only ASCII letters. Go's `strings.ToLower` also maps other Unicode letters.
- Autocomplete.Route: applies `unicode.IsSpace` to the last character of the raw text. The source converts the last byte to a rune, and the two differ only for multi-byte UTF-8 text. The space set is the Latin-1 one that Go uses below U+0100.
- The order of the user's devices is an input sequence. The crypto store returns a Go map, whose iteration order is unspecified.
- `FirstKey` takes the first key in the order given. The library reads a Go map there too.
- CrossSigning.CrossSigningMachine.Generate: the authentication callback's own replies, interleaved by the library during publication, are not part of this method's reply list. The callback is modelled on its own as `UiaCallback`, and the publication outcome is an input.
- `/ssss generate` and SSSS unlocking send no reply when the prompt is dismissed. The model follows the code here, not a design that would announce the cancellation.
- Only the three trust states the commands use are modelled. Cross-signing trust levels are not.

## Findings

| source | as written | input that shows it | evidently intended | confidence | as-written member | corrected member |
|---|---|---|---|---|---|---|
| ui/crypto-commands.go:471 | with all three keys present, `parseKeyResp` returns (master, user-signing, self-signing). Its other return (line 469) and its caller (line 491) read the tuple as (master, self-signing, user-signing), so the status report prints the two keys under each other's labels | master "M", self-signing "S", user-signing "U" for one's own user ID, no keys cached | return (master, self-signing, user-signing) | not executed | CrossSigning.StatusAsWrittenSwapsLabels | CrossSigning.StatusLabelsPublishedKeys |
| ui/crypto-commands.go:351-353 | `/ssss status` replies that no default key is set but does not return, and then reads the passphrase of key data it did not get | no default key account-data event on the server | return after the "not set up" reply | not executed | SecretStorage.S4StatusAsWrittenCrashes | SecretStorage.S4Status |
