/**
 * Tab completion for the arguments of the device commands: the first argument
 * completes against the members of the current room, the second against the
 * devices known for the user named by the first.
 */
module Autocomplete {
  import opened Text
  import opened Chat
  import opened DeviceTrust

  /** Completion candidates, and the text that replaces the input line ("" leaves it alone). */
  datatype Completion = Completion(completions: seq<string>, newText: string)

  /** A room member the room's own user completion offered for the first argument. */
  datatype UserMatch = UserMatch(id: string, displayName: string)

  function UserIds(matches: seq<UserMatch>): (ids: seq<string>)
    ensures |ids| == |matches|
    ensures forall i :: 0 <= i < |matches| ==> ids[i] == matches[i].id
  {
    if matches == [] then [] else UserIds(matches[..|matches| - 1]) + [matches[|matches| - 1].id]
  }

  /**
   * User-ID completion: a single matching member rewrites the line to the command
   * followed by that member's ID and a space, with no candidates listed; any other
   * number of matches lists their IDs, in order, and leaves the line alone.
   */
  function UserIdCompletion(origCommand: string, matches: seq<UserMatch>): (c: Completion)
    ensures |matches| == 1 ==> c.completions == [] && c.newText == "/" + origCommand + " " + matches[0].id + " "
    ensures |matches| != 1 ==> c.newText == "" && |c.completions| == |matches|
    ensures |matches| != 1 ==> forall i :: 0 <= i < |matches| ==> c.completions[i] == matches[i].id
  {
    if |matches| == 1 then Completion([], "/" + origCommand + " " + matches[0].id + " ")
    else Completion(UserIds(matches), "")
  }

  /** Completes the user ID from the room members matching the first argument (`matches`). */
  method CompleteUserId(cmd: Command, matches: seq<UserMatch>) returns (completions: seq<string>, newText: string)
    ensures Completion(completions, newText) == UserIdCompletion(cmd.origCommand, matches)
  {
    completions, newText := [], "";
    if |matches| == 1 {
      newText := "/" + cmd.origCommand + " " + matches[0].id + " ";
    } else {
      var ids := new string[|matches|];
      for i := 0 to |matches|
        invariant ids[..i] == UserIds(matches[..i])
      {
        assert matches[..i + 1][..i] == matches[..i];
        ids[i] := matches[i].id;
        assert ids[..i + 1] == ids[..i] + [ids[i]];
      }
      assert matches[..|matches|] == matches;
      completions := ids[..];
    }
  }

  /** How a device is offered: its ID followed by its name in parentheses. */
  function Label(d: DeviceRecord): string {
    d.deviceId + " (" + d.name + ")"
  }

  function Labels(devices: seq<DeviceRecord>): (labels: seq<string>)
    ensures |labels| == |devices|
    ensures forall i :: 0 <= i < |devices| ==> labels[i] == Label(devices[i])
  {
    if devices == [] then [] else Labels(devices[..|devices| - 1]) + [Label(devices[|devices| - 1])]
  }

  /** A device answers a typed prefix (already upper-cased) by its upper-cased name or by its raw ID. */
  predicate Answers(d: DeviceRecord, prefix: string) {
    HasPrefix(ToUpper(d.name), prefix) || HasPrefix(d.deviceId, prefix)
  }

  predicate HasDeviceId(devices: seq<DeviceRecord>, deviceId: DeviceId) {
    exists i :: 0 <= i < |devices| && devices[i].deviceId == deviceId
  }

  /** The devices that answer the prefix, in their listed order. */
  function Matching(devices: seq<DeviceRecord>, prefix: string): seq<DeviceRecord> {
    if devices == [] then []
    else
      var last := devices[|devices| - 1];
      Matching(devices[..|devices| - 1], prefix) + (if Answers(last, prefix) then [last] else [])
  }

  /** A device is offered exactly when it is listed and answers the prefix. */
  lemma {:induction false} MatchingMembers(devices: seq<DeviceRecord>, prefix: string, d: DeviceRecord)
    ensures d in Matching(devices, prefix) <==> d in devices && Answers(d, prefix)
  {
    if devices != [] {
      var n := |devices|;
      MatchingMembers(devices[..n - 1], prefix, d);
      assert devices == devices[..n - 1] + [devices[n - 1]];
    }
  }

  /** Matching keeps the listed order: it never offers more than was listed. */
  lemma {:induction false} MatchingShorter(devices: seq<DeviceRecord>, prefix: string)
    ensures |Matching(devices, prefix)| <= |devices|
  {
    if devices != [] {
      MatchingShorter(devices[..|devices| - 1], prefix);
    }
  }

  /** The device completion the second argument gets; `storeFailed` is an error from the store. */
  function DeviceIdCompletion(cmd: Command, devices: seq<DeviceRecord>, storeFailed: bool): (c: Completion)
    requires |cmd.args| >= 1
    ensures storeFailed || devices == [] ==> c == Completion([], "")
    ensures |c.completions| <= |devices|
    ensures c.newText != "" <==> |c.completions| == 1
    ensures c.newText != "" ==> "/" + cmd.origCommand + " " + cmd.args[0] + " " <= c.newText
  {
    if storeFailed || devices == [] then Completion([], "")
    else if |cmd.args| > 1 && HasDeviceId(devices, ToUpper(cmd.args[1])) then Completion([], "")
    else
      var picked := if |cmd.args| > 1 then Matching(devices, ToUpper(cmd.args[1])) else devices;
      MatchingShorter(devices, if |cmd.args| > 1 then ToUpper(cmd.args[1]) else "");
      Completion(Labels(picked),
                 if |picked| == 1 then "/" + cmd.origCommand + " " + cmd.args[0] + " " + picked[0].deviceId + " " else "")
  }

  /**
   * With the user ID typed and followed by white space but no device ID yet, and the
   * store answering without error, every device it lists is offered, in its order, and the line is rewritten to
   * name the device exactly when the store lists just one.
   */
  lemma DeviceIdCompletionWithoutPrefix(cmd: Command, devices: seq<DeviceRecord>)
    requires |cmd.args| == 1
    ensures var c := DeviceIdCompletion(cmd, devices, false);
      && |c.completions| == |devices|
      && (forall i :: 0 <= i < |devices| ==> c.completions[i] == Label(devices[i]))
      && (c.newText != "" <==> |devices| == 1)
      && (|devices| == 1 ==> c.newText == "/" + cmd.origCommand + " " + cmd.args[0] + " " + devices[0].deviceId + " ")
  {
  }

  /** The store answered with devices and the typed ID names none of them exactly. */
  predicate Completing(cmd: Command, devices: seq<DeviceRecord>, storeFailed: bool)
    requires |cmd.args| >= 2
  {
    !storeFailed && devices != [] && !HasDeviceId(devices, ToUpper(cmd.args[1]))
  }

  /**
   * What device completion promises: nothing when the store fails or knows no device,
   * nothing when the typed ID (upper-cased) already names a device, otherwise one
   * candidate per device answering the prefix, and a rewritten line exactly when there
   * is one candidate, naming that device.
   */
  lemma DeviceIdCompletionSpec(cmd: Command, devices: seq<DeviceRecord>, storeFailed: bool, d: DeviceRecord)
    requires |cmd.args| >= 2
    ensures storeFailed || devices == [] ==> DeviceIdCompletion(cmd, devices, storeFailed) == Completion([], "")
    ensures HasDeviceId(devices, ToUpper(cmd.args[1])) ==> DeviceIdCompletion(cmd, devices, storeFailed) == Completion([], "")
    ensures Completing(cmd, devices, storeFailed) && d in devices && Answers(d, ToUpper(cmd.args[1])) ==>
      Label(d) in DeviceIdCompletion(cmd, devices, storeFailed).completions
    ensures Completing(cmd, devices, storeFailed) ==>
      |DeviceIdCompletion(cmd, devices, storeFailed).completions| <= |devices|
    ensures Completing(cmd, devices, storeFailed) ==>
      (DeviceIdCompletion(cmd, devices, storeFailed).newText != "" <==> |DeviceIdCompletion(cmd, devices, storeFailed).completions| == 1)
    ensures Completing(cmd, devices, storeFailed) && |DeviceIdCompletion(cmd, devices, storeFailed).completions| == 1 ==>
      exists e :: e in devices && Answers(e, ToUpper(cmd.args[1])) && DeviceIdCompletion(cmd, devices, storeFailed).newText
        == "/" + cmd.origCommand + " " + cmd.args[0] + " " + e.deviceId + " "
  {
    var p := ToUpper(cmd.args[1]);
    MatchingMembers(devices, p, d);
    MatchingShorter(devices, p);
    var picked := Matching(devices, p);
    if |picked| == 1 {
      MatchingMembers(devices, p, picked[0]);
    }
  }

  /** Conversely, every candidate offered is the label of one of the user's devices answering the typed prefix. */
  lemma DeviceIdCompletionOnlyMatches(cmd: Command, devices: seq<DeviceRecord>, storeFailed: bool, c: string)
    requires |cmd.args| >= 2
    requires c in DeviceIdCompletion(cmd, devices, storeFailed).completions
    ensures exists e :: e in devices && Answers(e, ToUpper(cmd.args[1])) && c == Label(e)
  {
    var p := ToUpper(cmd.args[1]);
    var picked := Matching(devices, p);
    assert DeviceIdCompletion(cmd, devices, storeFailed).completions == Labels(picked);
    var i :| 0 <= i < |picked| && Labels(picked)[i] == c;
    MatchingMembers(devices, p, picked[i]);
  }

  /**
   * The scan over the store's devices for a typed device ID: stops at a device whose ID
   * is exactly the typed text, otherwise collects every device answering it and
   * remembers the last one collected.
   */
  method CollectMatching(devices: seq<DeviceRecord>, existingId: string)
    returns (exact: bool, completions: seq<string>, completedDeviceId: DeviceId)
    ensures exact == HasDeviceId(devices, existingId)
    ensures !exact ==> completions == Labels(Matching(devices, existingId))
    ensures !exact && Matching(devices, existingId) != [] ==>
      completedDeviceId == Matching(devices, existingId)[|Matching(devices, existingId)| - 1].deviceId
  {
    completions, completedDeviceId := [], "";
    var i := 0;
    while i < |devices|
      invariant 0 <= i <= |devices|
      invariant !HasDeviceId(devices[..i], existingId)
      invariant completions == Labels(Matching(devices[..i], existingId))
      invariant Matching(devices[..i], existingId) != [] ==>
        completedDeviceId == Matching(devices[..i], existingId)[|Matching(devices[..i], existingId)| - 1].deviceId
    {
      var device := devices[i];
      assert devices[..i + 1][..i] == devices[..i];
      if device.deviceId == existingId {
        return true, [], "";
      } else if Answers(device, existingId) {
        completedDeviceId := device.deviceId;
        completions := completions + [Label(device)];
      }
      i := i + 1;
    }
    assert devices[..i] == devices;
    exact := false;
  }

  /** Offers every device the store lists, remembering the last one. */
  method CollectAll(devices: seq<DeviceRecord>) returns (completions: seq<string>, completedDeviceId: DeviceId)
    requires devices != []
    ensures completions == Labels(devices)
    ensures completedDeviceId == devices[|devices| - 1].deviceId
  {
    completedDeviceId := "";
    var labels := new string[|devices|];
    var i := 0;
    for k := 0 to |devices|
      invariant i == k
      invariant labels[..k] == Labels(devices[..k])
      invariant k > 0 ==> completedDeviceId == devices[k - 1].deviceId
    {
      assert devices[..k + 1][..k] == devices[..k];
      completedDeviceId := devices[k].deviceId;
      labels[i] := Label(devices[k]);
      assert labels[..k + 1] == labels[..k] + [labels[k]];
      i := i + 1;
    }
    assert devices[..|devices|] == devices;
    completions := labels[..];
  }

  /** Completes the device ID; `devices` is what the store lists for the user, in its order. */
  method CompleteDeviceId(cmd: Command, devices: seq<DeviceRecord>, storeFailed: bool)
    returns (completions: seq<string>, newText: string)
    requires |cmd.args| >= 1
    ensures Completion(completions, newText) == DeviceIdCompletion(cmd, devices, storeFailed)
  {
    completions, newText := [], "";
    if |devices| == 0 || storeFailed {
      return;
    }
    var completedDeviceId;
    if |cmd.args| > 1 {
      var exact;
      exact, completions, completedDeviceId := CollectMatching(devices, ToUpper(cmd.args[1]));
      if exact {
        return [], "";
      }
    } else {
      completions, completedDeviceId := CollectAll(devices);
    }
    if |completions| == 1 {
      newText := "/" + cmd.origCommand + " " + cmd.args[0] + " " + completedDeviceId + " ";
    }
  }

  /** Which argument the command line is completing. */
  datatype Target = NoTarget | UserIdTarget | DeviceIdTarget

  /**
   * Routing: nothing without arguments; the user ID while the only argument is still
   * being typed (its text does not end in white space); otherwise the device ID,
   * except for `/devices`, which takes no device.
   */
  function Route(cmd: Command): (t: Target)
    requires |cmd.args| > 0 ==> |cmd.rawArgs| > 0
    ensures cmd.args == [] ==> t == NoTarget
    ensures t == UserIdTarget <==> |cmd.args| == 1 && !IsSpace(cmd.rawArgs[|cmd.rawArgs| - 1])
    ensures t == DeviceIdTarget ==> cmd.command != "devices"
    ensures |cmd.args| > 0 && t != UserIdTarget && cmd.command != "devices" ==> t == DeviceIdTarget
    ensures cmd.command == "devices" && (|cmd.args| >= 2 || (|cmd.args| == 1 && IsSpace(cmd.rawArgs[|cmd.rawArgs| - 1])))
      ==> t == NoTarget
  {
    if |cmd.args| == 0 then NoTarget
    else if |cmd.args| == 1 && !IsSpace(cmd.rawArgs[|cmd.rawArgs| - 1]) then UserIdTarget
    else if cmd.command != "devices" then DeviceIdTarget
    else NoTarget
  }

  /**
   * Completion for the device commands. `members` is the room's user completion of the
   * first argument; `devices` and `storeFailed` are the store's answer for that user.
   */
  method CompleteDevice(cmd: Command, members: seq<UserMatch>, devices: seq<DeviceRecord>, storeFailed: bool)
    returns (completions: seq<string>, newText: string)
    requires |cmd.args| > 0 ==> |cmd.rawArgs| > 0
    ensures Route(cmd) == NoTarget ==> completions == [] && newText == ""
    ensures Route(cmd) == UserIdTarget ==> Completion(completions, newText) == UserIdCompletion(cmd.origCommand, members)
    ensures Route(cmd) == DeviceIdTarget ==>
      Completion(completions, newText) == DeviceIdCompletion(cmd, devices, storeFailed)
  {
    if |cmd.args| == 0 {
      return [], "";
    } else if |cmd.args| == 1 && !IsSpace(cmd.rawArgs[|cmd.rawArgs| - 1]) {
      completions, newText := CompleteUserId(cmd, members);
      return;
    } else if cmd.command != "devices" {
      completions, newText := CompleteDeviceId(cmd, devices, storeFailed);
      return;
    }
    return [], "";
  }
}
