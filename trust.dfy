/**
 * Device trust commands: looking a device up, showing it, listing a user's devices,
 * and the three trust changes `verify`, `unverify` and `blacklist`, each of which
 * persists the device and then announces that the user's devices changed.
 */
module DeviceTrust {
  import opened Wrappers
  import opened Text
  import opened Chat

  type UserId = string
  type DeviceId = string

  datatype TrustState = Unset | Verified | Blacklisted

  /** A snapshot of a device identity, as the crypto store keeps it. */
  datatype DeviceRecord = DeviceRecord(
    userId: UserId,
    deviceId: DeviceId,
    name: string,
    identityKey: string,
    signingKey: string,
    deleted: bool,
    trust: TrustState)

  /** The in-memory device identity a lookup hands out; only its trust state is ever changed. */
  class Device {
    const userId: UserId
    const deviceId: DeviceId
    const name: string
    const identityKey: string
    const signingKey: string
    const deleted: bool
    var trust: TrustState

    constructor (r: DeviceRecord)
      ensures Record() == r
    {
      userId, deviceId, name := r.userId, r.deviceId, r.name;
      identityKey, signingKey, deleted := r.identityKey, r.signingKey, r.deleted;
      trust := r.trust;
    }

    function Record(): (r: DeviceRecord)
      reads this
      ensures r.trust == trust && r.signingKey == signingKey
    {
      DeviceRecord(userId, deviceId, name, identityKey, signingKey, deleted, trust)
    }
  }

  /**
   * The parts of the olm machine the trust commands touch: the stored devices, the
   * device lookups asked of it, the writes asked of its store (failed ones included)
   * and the "devices changed" notifications it received, in order.
   */
  class Machine {
    var stored: map<(UserId, DeviceId), DeviceRecord>
    var lookups: seq<(UserId, DeviceId)>
    var puts: seq<DeviceRecord>
    var devicesChanged: seq<UserId>

    constructor (stored: map<(UserId, DeviceId), DeviceRecord>)
      ensures this.stored == stored && lookups == [] && puts == [] && devicesChanged == []
    {
      this.stored := stored;
      lookups, puts, devicesChanged := [], [], [];
    }
  }

  /** What the device lookup (`GetOrFetchDevice`) answers: a device, or an error message. */
  datatype Fetch = Fetched(device: Device) | FetchFailed(message: string)

  function FetchedObjects(f: Fetch): set<Device> {
    if f.Fetched? then {f.device} else {}
  }

  function DeviceUsage(command: string): string {
    "Usage: /" + command + " <user id> <device id> [fingerprint]"
  }

  /**
   * Looks up the device named by the first two arguments. Fewer than two arguments
   * print the usage and ask nothing of the machine; a failed lookup is reported.
   */
  method GetDevice(cmd: Command, out: Console, m: Machine, fetch: Fetch) returns (d: Device?)
    modifies out, m`lookups
    ensures |cmd.args| < 2 ==> (d == null && m.lookups == old(m.lookups)
      && out.lines == old(out.lines) + [DeviceUsage(cmd.command)])
    ensures |cmd.args| >= 2 ==> m.lookups == old(m.lookups) + [(cmd.args[0], cmd.args[1])]
    ensures |cmd.args| >= 2 && fetch.FetchFailed? ==> (d == null
      && out.lines == old(out.lines) + ["Failed to get device: " + fetch.message])
    ensures |cmd.args| >= 2 && fetch.Fetched? ==> d == fetch.device && out.lines == old(out.lines)
  {
    if |cmd.args| < 2 {
      out.Reply(DeviceUsage(cmd.command));
      return null;
    }
    m.lookups := m.lookups + [(cmd.args[0], cmd.args[1])];
    match fetch
    case FetchFailed(message) =>
      out.Reply("Failed to get device: " + message);
      d := null;
    case Fetched(device) =>
      d := device;
  }

  /** The reply of a store write: the error, or what was done to which device. */
  function PutReply(r: DeviceRecord, action: string, storeError: Option<string>): string {
    match storeError
    case Some(e) => "Failed to save device: " + e
    case None => "Successfully " + action + " " + r.userId + "/" + r.deviceId + " (" + r.name + ")"
  }

  /**
   * Writes the device to the store and reports the outcome; the devices-changed
   * notification follows whether the write succeeded or failed.
   */
  method PutDevice(out: Console, m: Machine, device: Device, action: string, storeError: Option<string>)
    modifies out, m`stored, m`puts, m`devicesChanged
    ensures m.puts == old(m.puts) + [device.Record()]
    ensures m.stored == if storeError.None? then old(m.stored)[(device.userId, device.deviceId) := device.Record()]
                        else old(m.stored)
    ensures m.devicesChanged == old(m.devicesChanged) + [device.userId]
    ensures out.lines == old(out.lines) + [PutReply(device.Record(), action, storeError)]
  {
    m.puts := m.puts + [device.Record()];
    if storeError.None? {
      m.stored := m.stored[(device.userId, device.deviceId) := device.Record()];
    }
    out.Reply(PutReply(device.Record(), action, storeError));
    m.devicesChanged := m.devicesChanged + [device.userId];
  }

  /** What a trust command decides to do once it holds the device. */
  datatype Step =
    | AlreadyInTarget(message: string)
    | Interactive
    | MismatchingFingerprint
    | SetTrust(target: TrustState, action: string)

  /**
   * `verify`: a verified device is left alone; with exactly the user and device
   * arguments an interactive verification starts; otherwise the remaining arguments,
   * glued together, must be the device's signing key.
   */
  function VerifyStep(args: seq<string>, trust: TrustState, signingKey: string): (s: Step)
    requires |args| >= 2
    ensures s.AlreadyInTarget? <==> trust == Verified
    ensures s.Interactive? <==> trust != Verified && |args| == 2
    ensures s.SetTrust? <==> trust != Verified && |args| > 2 && Concat(args[2..]) == signingKey
    ensures s.MismatchingFingerprint? <==> trust != Verified && |args| > 2 && Concat(args[2..]) != signingKey
    ensures s.SetTrust? ==> (s.target == Verified
      && s.action == (if trust == Blacklisted then "unblacklisted and verified" else "verified"))
  {
    if trust == Verified then AlreadyInTarget("That device is already verified")
    else if |args| == 2 then Interactive
    else
      var fingerprint := Join(args[2..], "");
      JoinEmptyIsConcat(args[2..]);
      if signingKey != fingerprint then MismatchingFingerprint
      else SetTrust(Verified, if trust == Blacklisted then "unblacklisted and verified" else "verified")
  }

  /** `unverify`: an unset device is left alone; any other becomes unset. */
  function UnverifyStep(trust: TrustState): (s: Step)
    ensures s.AlreadyInTarget? <==> trust == Unset
    ensures !s.AlreadyInTarget? ==> (s.SetTrust? && s.target == Unset
      && s.action == (if trust == Blacklisted then "unblacklisted" else "unverified"))
  {
    if trust == Unset then AlreadyInTarget("That device is already not verified")
    else SetTrust(Unset, if trust == Blacklisted then "unblacklisted" else "unverified")
  }

  /** `blacklist`: a blacklisted device is left alone; any other becomes blacklisted. */
  function BlacklistStep(trust: TrustState): (s: Step)
    ensures s.AlreadyInTarget? <==> trust == Blacklisted
    ensures !s.AlreadyInTarget? ==> (s.SetTrust? && s.target == Blacklisted
      && s.action == (if trust == Verified then "unverified and blacklisted" else "blacklisted"))
  {
    if trust == Blacklisted then AlreadyInTarget("That device is already blacklisted")
    else SetTrust(Blacklisted, if trust == Verified then "unverified and blacklisted" else "blacklisted")
  }

  /** The trust state a step leaves behind. */
  function After(s: Step, trust: TrustState): TrustState {
    if s.SetTrust? then s.target else trust
  }

  /**
   * Repeating a trust command is a no-op: whatever the first run of `unverify`,
   * `blacklist` or a fingerprint `verify` leaves behind, a second run finds the
   * device already in its target state.
   */
  lemma TrustCommandsIdempotent(args: seq<string>, trust: TrustState, signingKey: string)
    requires |args| > 2 && Concat(args[2..]) == signingKey
    ensures VerifyStep(args, After(VerifyStep(args, trust, signingKey), trust), signingKey).AlreadyInTarget?
    ensures UnverifyStep(After(UnverifyStep(trust), trust)).AlreadyInTarget?
    ensures BlacklistStep(After(BlacklistStep(trust), trust)).AlreadyInTarget?
  {
  }

  /**
   * Carries a step out on the device: a guard or a mismatch replies and changes
   * nothing; a trust change updates the device and persists it.
   */
  method ApplyStep(out: Console, m: Machine, device: Device, s: Step, storeError: Option<string>)
    requires !s.Interactive?
    modifies out, m`stored, m`puts, m`devicesChanged, device`trust
    ensures device.trust == After(s, old(device.trust))
    ensures !s.SetTrust? ==> (m.stored == old(m.stored) && m.puts == old(m.puts)
      && m.devicesChanged == old(m.devicesChanged))
    ensures s.AlreadyInTarget? ==> out.lines == old(out.lines) + [s.message]
    ensures s.MismatchingFingerprint? ==> out.lines == old(out.lines) + ["Mismatching fingerprint"]
    ensures s.SetTrust? ==>
      && m.puts == old(m.puts) + [device.Record()]
      && m.stored == (if storeError.None? then old(m.stored)[(device.userId, device.deviceId) := device.Record()]
                      else old(m.stored))
      && m.devicesChanged == old(m.devicesChanged) + [device.userId]
      && out.lines == old(out.lines) + [PutReply(device.Record(), s.action, storeError)]
  {
    match s
    case AlreadyInTarget(message) =>
      out.Reply(message);
    case MismatchingFingerprint =>
      out.Reply("Mismatching fingerprint");
    case SetTrust(target, action) =>
      device.trust := target;
      PutDevice(out, m, device, action, storeError);
  }

  /**
   * `/verify <user> <device> [fingerprint...]`. `sasError` is the answer of the
   * interactive verification start, consulted only in the interactive case.
   */
  method CmdVerify(cmd: Command, out: Console, m: Machine, fetch: Fetch,
                   sasError: Option<string>, storeError: Option<string>)
    modifies out, m, FetchedObjects(fetch)
    ensures |cmd.args| < 2 ==> (m.lookups == old(m.lookups) && m.stored == old(m.stored) && m.puts == old(m.puts)
      && m.devicesChanged == old(m.devicesChanged)
      && (fetch.Fetched? ==> fetch.device.trust == old(fetch.device.trust))
      && out.lines == old(out.lines) + [DeviceUsage(cmd.command)])
    ensures |cmd.args| >= 2 ==> m.lookups == old(m.lookups) + [(cmd.args[0], cmd.args[1])]
    ensures |cmd.args| >= 2 && fetch.FetchFailed? ==> (m.stored == old(m.stored) && m.puts == old(m.puts)
      && m.devicesChanged == old(m.devicesChanged)
      && out.lines == old(out.lines) + ["Failed to get device: " + fetch.message])
    ensures |cmd.args| >= 2 && fetch.Fetched? ==>
      var d := fetch.device;
      var s := VerifyStep(cmd.args, old(d.trust), d.signingKey);
      && d.trust == After(s, old(d.trust))
      && (!s.SetTrust? ==> (m.stored == old(m.stored) && m.puts == old(m.puts)
            && m.devicesChanged == old(m.devicesChanged)))
      && (s.Interactive? ==>
            out.lines == old(out.lines)
              + (if sasError.Some? then ["Failed to start interactive verification: " + sasError.value] else []))
      && (s.AlreadyInTarget? ==> out.lines == old(out.lines) + [s.message])
      && (s.MismatchingFingerprint? ==> out.lines == old(out.lines) + ["Mismatching fingerprint"])
      && (s.SetTrust? ==> (m.puts == old(m.puts) + [d.Record()]
            && m.stored == (if storeError.None? then old(m.stored)[(d.userId, d.deviceId) := d.Record()] else old(m.stored))
            && m.devicesChanged == old(m.devicesChanged) + [d.userId]
            && out.lines == old(out.lines) + [PutReply(d.Record(), s.action, storeError)]))
  {
    var d := GetDevice(cmd, out, m, fetch);
    if d == null {
      return;
    }
    var s := VerifyStep(cmd.args, d.trust, d.signingKey);
    if s.Interactive? {
      if sasError.Some? {
        out.Reply("Failed to start interactive verification: " + sasError.value);
      }
    } else {
      ApplyStep(out, m, d, s, storeError);
    }
  }

  /** `/unverify <user> <device>`. */
  method CmdUnverify(cmd: Command, out: Console, m: Machine, fetch: Fetch, storeError: Option<string>)
    modifies out, m, FetchedObjects(fetch)
    ensures |cmd.args| < 2 ==> (m.lookups == old(m.lookups) && m.stored == old(m.stored) && m.puts == old(m.puts)
      && m.devicesChanged == old(m.devicesChanged)
      && (fetch.Fetched? ==> fetch.device.trust == old(fetch.device.trust))
      && out.lines == old(out.lines) + [DeviceUsage(cmd.command)])
    ensures |cmd.args| >= 2 ==> m.lookups == old(m.lookups) + [(cmd.args[0], cmd.args[1])]
    ensures |cmd.args| >= 2 && fetch.FetchFailed? ==> (m.stored == old(m.stored) && m.puts == old(m.puts)
      && m.devicesChanged == old(m.devicesChanged)
      && out.lines == old(out.lines) + ["Failed to get device: " + fetch.message])
    ensures |cmd.args| >= 2 && fetch.Fetched? ==>
      var d := fetch.device;
      var s := UnverifyStep(old(d.trust));
      && d.trust == Unset
      && (!s.SetTrust? ==> (m.stored == old(m.stored) && m.puts == old(m.puts)
            && m.devicesChanged == old(m.devicesChanged)))
      && (s.AlreadyInTarget? ==> out.lines == old(out.lines) + [s.message])
      && (s.SetTrust? ==> (m.puts == old(m.puts) + [d.Record()]
            && m.stored == (if storeError.None? then old(m.stored)[(d.userId, d.deviceId) := d.Record()] else old(m.stored))
            && m.devicesChanged == old(m.devicesChanged) + [d.userId]
            && out.lines == old(out.lines) + [PutReply(d.Record(), s.action, storeError)]))
  {
    var d := GetDevice(cmd, out, m, fetch);
    if d == null {
      return;
    }
    ApplyStep(out, m, d, UnverifyStep(d.trust), storeError);
  }

  /** `/blacklist <user> <device>`. */
  method CmdBlacklist(cmd: Command, out: Console, m: Machine, fetch: Fetch, storeError: Option<string>)
    modifies out, m, FetchedObjects(fetch)
    ensures |cmd.args| < 2 ==> (m.lookups == old(m.lookups) && m.stored == old(m.stored) && m.puts == old(m.puts)
      && m.devicesChanged == old(m.devicesChanged)
      && (fetch.Fetched? ==> fetch.device.trust == old(fetch.device.trust))
      && out.lines == old(out.lines) + [DeviceUsage(cmd.command)])
    ensures |cmd.args| >= 2 ==> m.lookups == old(m.lookups) + [(cmd.args[0], cmd.args[1])]
    ensures |cmd.args| >= 2 && fetch.FetchFailed? ==> (m.stored == old(m.stored) && m.puts == old(m.puts)
      && m.devicesChanged == old(m.devicesChanged)
      && out.lines == old(out.lines) + ["Failed to get device: " + fetch.message])
    ensures |cmd.args| >= 2 && fetch.Fetched? ==>
      var d := fetch.device;
      var s := BlacklistStep(old(d.trust));
      && d.trust == Blacklisted
      && (!s.SetTrust? ==> (m.stored == old(m.stored) && m.puts == old(m.puts)
            && m.devicesChanged == old(m.devicesChanged)))
      && (s.AlreadyInTarget? ==> out.lines == old(out.lines) + [s.message])
      && (s.SetTrust? ==> (m.puts == old(m.puts) + [d.Record()]
            && m.stored == (if storeError.None? then old(m.stored)[(d.userId, d.deviceId) := d.Record()] else old(m.stored))
            && m.devicesChanged == old(m.devicesChanged) + [d.userId]
            && out.lines == old(out.lines) + [PutReply(d.Record(), s.action, storeError)]))
  {
    var d := GetDevice(cmd, out, m, fetch);
    if d == null {
      return;
    }
    ApplyStep(out, m, d, BlacklistStep(d.trust), storeError);
  }

  /**
   * How a device is rendered: its fingerprint (a grouping of the signing key done by
   * the crypto library) and the name of its trust state, both given.
   */
  datatype Rendering = Rendering(fingerprint: string -> string, trustName: TrustState -> string)

  /** The text `/device` shows; a deleted device is headed "Deleted device". */
  function ShowText(r: DeviceRecord, look: Rendering): (text: string)
    ensures r.deleted ==> "Deleted device " <= text
    ensures !r.deleted ==> "Device " <= text
  {
    (if r.deleted then "Deleted device" else "Device") + " " + r.deviceId + " of " + r.userId
    + "\nFingerprint: " + look.fingerprint(r.signingKey)
    + "\nIdentity key: " + r.identityKey
    + "\nDevice name: " + r.name
    + "\nTrust state: " + look.trustName(r.trust)
  }

  /** `/device <user> <device>`: shows the device and changes nothing (it may not modify the device). */
  method CmdDevice(cmd: Command, out: Console, m: Machine, fetch: Fetch, look: Rendering)
    modifies out, m`lookups
    ensures |cmd.args| < 2 ==> m.lookups == old(m.lookups)
    ensures |cmd.args| >= 2 ==> m.lookups == old(m.lookups) + [(cmd.args[0], cmd.args[1])]
    ensures |cmd.args| >= 2 && fetch.Fetched? ==>
      out.lines == old(out.lines) + [ShowText(fetch.device.Record(), look)]
    ensures |cmd.args| < 2 ==> out.lines == old(out.lines) + [DeviceUsage(cmd.command)]
    ensures |cmd.args| >= 2 && fetch.FetchFailed? ==>
      out.lines == old(out.lines) + ["Failed to get device: " + fetch.message]
  {
    var d := GetDevice(cmd, out, m, fetch);
    if d == null {
      return;
    }
    out.Reply(ShowText(d.Record(), look));
  }

  /** One device's two lines in the `/devices` listing. */
  function ListEntry(r: DeviceRecord, look: Rendering): string {
    r.deviceId + " (" + r.name + ") - " + look.trustName(r.trust)
    + "\n    Fingerprint: " + look.fingerprint(r.signingKey)
  }

  function ListEntries(devices: seq<DeviceRecord>, look: Rendering): (entries: seq<string>)
    ensures |entries| == |devices|
    ensures forall i :: 0 <= i < |devices| ==> entries[i] == ListEntry(devices[i], look)
  {
    if devices == [] then [] else ListEntries(devices[..|devices| - 1], look) + [ListEntry(devices[|devices| - 1], look)]
  }

  /** The builder's content after writing the given devices, each entry ended by a newline. */
  function Written(devices: seq<DeviceRecord>, look: Rendering): string {
    if devices == [] then "" else Written(devices[..|devices| - 1], look) + ListEntry(devices[|devices| - 1], look) + "\n"
  }

  lemma {:induction false} JoinAppend(parts: seq<string>, last: string, sep: string)
    requires parts != []
    ensures Join(parts + [last], sep) == Join(parts, sep) + sep + last
  {
    if |parts| == 1 {
      assert parts + [last] == [parts[0], last];
    } else {
      assert (parts + [last])[1..] == parts[1..] + [last];
      JoinAppend(parts[1..], last, sep);
    }
  }

  /** What the builder holds is the entries joined by newlines, plus one final newline. */
  lemma {:induction false} WrittenIsJoin(devices: seq<DeviceRecord>, look: Rendering)
    requires devices != []
    ensures Written(devices, look) == Join(ListEntries(devices, look), "\n") + "\n"
  {
    var n := |devices|;
    if n > 1 {
      WrittenIsJoin(devices[..n - 1], look);
      assert devices[..n - 1][..n - 2] == devices[..n - 2];
      JoinAppend(ListEntries(devices[..n - 1], look), ListEntry(devices[n - 1], look), "\n");
    } else {
      assert devices[..0] == [];
    }
  }

  /**
   * Builds the `/devices` listing: every entry followed by a newline, then the final
   * newline cut off, so the result is exactly the entries joined by newlines.
   */
  method RenderDeviceList(devices: seq<DeviceRecord>, look: Rendering) returns (resp: string)
    requires devices != []
    ensures resp == Join(ListEntries(devices, look), "\n")
  {
    var buf := "";
    var i := 0;
    while i < |devices|
      invariant 0 <= i <= |devices|
      invariant buf == Written(devices[..i], look)
    {
      assert devices[..i + 1][..i] == devices[..i];
      buf := buf + ListEntry(devices[i], look) + "\n";
      i := i + 1;
    }
    assert devices[..i] == devices;
    WrittenIsJoin(devices, look);
    resp := buf[..|buf| - 1];
  }

  /** The replies of `/devices` for a user, from what the store and the server answered. */
  function DevicesReplies(userId: UserId, cached: seq<DeviceRecord>, cacheError: Option<string>,
                          loaded: seq<DeviceRecord>, look: Rendering): (lines: seq<string>)
    ensures |lines| == 1 + (if cacheError.Some? then 1 else 0) + (if cached == [] then 1 else 0)
    ensures cacheError.Some? ==> lines[0] == "Failed to get device list: " + cacheError.value
    ensures cached == [] ==> lines[|lines| - 2] == "Fetching device list from server..."
    ensures cached != [] ==> lines[|lines| - 1] == Join(ListEntries(cached, look), "\n")
    ensures cached == [] && loaded != [] ==> lines[|lines| - 1] == Join(ListEntries(loaded, look), "\n")
    ensures cached == [] && loaded == [] ==> lines[|lines| - 1] == "No devices found for " + userId
  {
    var errLines := if cacheError.Some? then ["Failed to get device list: " + cacheError.value] else [];
    var shown := if cached != [] then cached else loaded;
    var fetchLines := if cached == [] then ["Fetching device list from server..."] else [];
    errLines + fetchLines
      + [if shown == [] then "No devices found for " + userId else Join(ListEntries(shown, look), "\n")]
  }

  /**
   * `/devices <user>`. `cached` is what the store holds for the user (an error is
   * reported but the command goes on); when it holds nothing, the device list is
   * fetched from the server (`loaded`).
   */
  method CmdDevices(cmd: Command, out: Console, cached: seq<DeviceRecord>, cacheError: Option<string>,
                    loaded: seq<DeviceRecord>, look: Rendering)
    modifies out
    ensures cmd.args == [] ==> out.lines == old(out.lines) + ["Usage: /devices <user id>"]
    ensures cmd.args != [] ==>
      out.lines == old(out.lines) + DevicesReplies(cmd.args[0], cached, cacheError, loaded, look)
  {
    if cmd.args == [] {
      out.Reply("Usage: /devices <user id>");
      return;
    }
    var userId := cmd.args[0];
    ghost var errLines := if cacheError.Some? then ["Failed to get device list: " + cacheError.value] else [];
    ghost var fetchLines := if cached == [] then ["Fetching device list from server..."] else [];
    var devices := cached;
    if cacheError.Some? {
      out.Reply("Failed to get device list: " + cacheError.value);
    }
    assert out.lines == old(out.lines) + errLines;
    if devices == [] {
      out.Reply("Fetching device list from server...");
      devices := loaded;
    }
    assert out.lines == old(out.lines) + errLines + fetchLines;
    var last;
    if devices == [] {
      last := "No devices found for " + userId;
    } else {
      last := RenderDeviceList(devices, look);
    }
    assert errLines + fetchLines + [last] == DevicesReplies(userId, cached, cacheError, loaded, look);
    out.Reply(last);
  }
}
