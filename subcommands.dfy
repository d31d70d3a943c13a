/**
 * Dispatch of `/ssss` and `/cross-signing`: the first argument picks the subcommand,
 * compared in lower case; a flag in the second argument is recognised in lower case
 * too; a missing or unknown subcommand gets the help text.
 */
module Subcommands {
  import opened Wrappers
  import opened Text

  /** What `/ssss` runs. */
  datatype SsssCommand =
    | SsssHelp
    | SsssStatus(keyId: string)
    | SsssGenerate(setDefault: bool)
    | SsssSetDefaultUsage
    | SsssSetDefault(keyId: string)

  function ParseSsss(args: seq<string>): (c: SsssCommand)
    ensures c.SsssHelp? <==> args == [] || ToLower(args[0]) !in {"status", "generate", "set-default"}
    ensures c.SsssStatus? <==> args != [] && ToLower(args[0]) == "status"
    ensures c.SsssStatus? ==> c.keyId == (if |args| > 1 then args[1] else "")
    ensures c.SsssGenerate? <==> args != [] && ToLower(args[0]) == "generate"
    ensures c.SsssGenerate? ==> (c.setDefault <==> |args| > 1 && ToLower(args[1]) == "--set-default")
    ensures c.SsssSetDefaultUsage? <==> args != [] && ToLower(args[0]) == "set-default" && |args| < 2
    ensures c.SsssSetDefault? <==> args != [] && ToLower(args[0]) == "set-default" && |args| >= 2
    ensures c.SsssSetDefault? ==> c.keyId == args[1]
  {
    if args == [] then SsssHelp
    else
      var sub := ToLower(args[0]);
      if sub == "status" then SsssStatus(if |args| > 1 then args[1] else "")
      else if sub == "generate" then SsssGenerate(|args| > 1 && ToLower(args[1]) == "--set-default")
      else if sub == "set-default" then
        if |args| < 2 then SsssSetDefaultUsage else SsssSetDefault(args[1])
      else SsssHelp
  }

  /** A usage line: "Usage: /", the command as it was typed, a space and what follows. */
  function UsageText(origCommand: string, rest: string): (text: string)
    ensures "Usage: /" + origCommand + " " <= text
  {
    var head := "Usage: /" + origCommand + " ";
    assert (head + rest)[..|head|] == head;
    head + rest
  }

  const SsssSubcommandList :=
    "Subcommands:\n"
    + "* status [key ID] - Check the status of your SSSS.\n"
    + "* generate [--set-default] - Generate a SSSS key and optionally set it as the default.\n"
    + "* set-default <key ID> - Set a SSSS key as the default."

  /** The help text of `/ssss`, naming the command as it was typed. */
  function SsssHelpText(origCommand: string): string {
    UsageText(origCommand, "<subcommand> [...]\n\n" + SsssSubcommandList)
  }

  /** The usage reply of `/ssss set-default` without a key ID. */
  function SsssSetDefaultUsageText(origCommand: string): string {
    UsageText(origCommand, "set-default <key ID>")
  }

  /**
   * The reply `/ssss` sends by itself, before running any subcommand: the help text
   * for a missing or unknown subcommand, the usage of `set-default` without a key ID.
   */
  function SsssDispatchReply(origCommand: string, args: seq<string>): (reply: Option<string>)
    ensures reply.Some? <==> ParseSsss(args).SsssHelp? || ParseSsss(args).SsssSetDefaultUsage?
    ensures reply.Some? ==> "Usage: /" + origCommand + " " <= reply.value
  {
    match ParseSsss(args)
    case SsssHelp => Some(SsssHelpText(origCommand))
    case SsssSetDefaultUsage => Some(SsssSetDefaultUsageText(origCommand))
    case _ => None
  }

  /** What `/cross-signing` runs. */
  datatype CrossSigningCommand =
    | CrossSigningHelp
    | CrossSigningStatus
    | CrossSigningGenerate(force: bool)
    | CrossSigningFetch(saveToDisk: bool)
    | CrossSigningUpload

  function ParseCrossSigning(args: seq<string>): (c: CrossSigningCommand)
    ensures c.CrossSigningHelp? <==> args == [] || ToLower(args[0]) !in {"status", "generate", "fetch", "upload"}
    ensures c.CrossSigningStatus? <==> args != [] && ToLower(args[0]) == "status"
    ensures c.CrossSigningGenerate? <==> args != [] && ToLower(args[0]) == "generate"
    ensures c.CrossSigningGenerate? ==> (c.force <==> |args| > 1 && ToLower(args[1]) == "--force")
    ensures c.CrossSigningFetch? <==> args != [] && ToLower(args[0]) == "fetch"
    ensures c.CrossSigningFetch? ==> (c.saveToDisk <==> |args| > 1 && ToLower(args[1]) == "--save-to-disk")
    ensures c.CrossSigningUpload? <==> args != [] && ToLower(args[0]) == "upload"
  {
    if args == [] then CrossSigningHelp
    else
      var sub := ToLower(args[0]);
      if sub == "status" then CrossSigningStatus
      else if sub == "generate" then CrossSigningGenerate(|args| > 1 && ToLower(args[1]) == "--force")
      else if sub == "fetch" then CrossSigningFetch(|args| > 1 && ToLower(args[1]) == "--save-to-disk")
      else if sub == "upload" then CrossSigningUpload
      else CrossSigningHelp
  }

  const CrossSigningSubcommandList :=
    "Subcommands:\n"
    + "* status\n    Check the status of your own cross-signing keys.\n"
    + "* generate [--force]\n    Generate and upload new cross-signing keys.\n"
    + "    This will prompt you to enter your account password.\n"
    + "    If you already have existing keys, --force is required.\n"
    + "* fetch [--save-to-disk]\n    Fetch your cross-signing keys from SSSS and decrypt them.\n"
    + "    If --save-to-disk is specified, the keys are saved to disk.\n"
    + "* upload\n    Upload your cross-signing keys to SSSS."

  /** The help text of `/cross-signing`, naming the command as it was typed. */
  function CrossSigningHelpText(origCommand: string): string {
    UsageText(origCommand, "<subcommand> [...]\n\n" + CrossSigningSubcommandList)
  }

  /** Both parsers read only the lower case of the first argument and the arguments after it. */
  lemma SameParse(a: seq<string>, b: seq<string>)
    requires a != [] && b != [] && ToLower(a[0]) == ToLower(b[0]) && a[1..] == b[1..]
    ensures ParseSsss(a) == ParseSsss(b) && ParseCrossSigning(a) == ParseCrossSigning(b)
  {
    assert |a| == |b|;
    assert |a| > 1 ==> a[1] == b[1];
  }

  /** The reply `/cross-signing` sends by itself: the help text for a missing or unknown subcommand. */
  function CrossSigningDispatchReply(origCommand: string, args: seq<string>): (reply: Option<string>)
    ensures reply.Some? <==> ParseCrossSigning(args).CrossSigningHelp?
    ensures reply.Some? ==> "Usage: /" + origCommand + " " <= reply.value
  {
    if ParseCrossSigning(args).CrossSigningHelp? then Some(CrossSigningHelpText(origCommand)) else None
  }

  /**
   * Subcommand selection ignores case: lower-casing the subcommand word (or writing it
   * in any mix of cases with the same lower case) selects the same command.
   */
  lemma {:induction false} SubcommandCaseInsensitive(args: seq<string>, word: string)
    requires args != [] && ToLower(word) == ToLower(args[0])
    ensures ParseSsss([word] + args[1..]) == ParseSsss(args)
    ensures ParseCrossSigning([word] + args[1..]) == ParseCrossSigning(args)
    ensures ParseSsss([ToLower(args[0])] + args[1..]) == ParseSsss(args)
    ensures ParseCrossSigning([ToLower(args[0])] + args[1..]) == ParseCrossSigning(args)
  {
    var retyped := [word] + args[1..];
    assert retyped[0] == word && retyped[1..] == args[1..];
    SameParse(retyped, args);
    var lowered := [ToLower(args[0])] + args[1..];
    assert lowered[0] == ToLower(args[0]) && lowered[1..] == args[1..];
    ToLowerIdempotent(args[0]);
    SameParse(lowered, args);
  }
}
