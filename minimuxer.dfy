/** HIAHMinimuxer.swift: the stand-in for the on-device helper (minimuxer). Every lifecycle
    call leaves it `disabled`, every query answers "no" and every action fails with the same
    error, so the helper can never become ready. The pairing-file lookup is the one part that
    does real work. */
module MinimuxerStub {
  import opened Wrappers
  import opened Errors

  datatype Status = NotStarted | Starting | Ready | NoDevice | NoPairingFile | ErrorStatus | Disabled

  const DisabledMessage: string := "Minimuxer is disabled (requires libimobiledevice)"

  /** The error every action of the stub throws. */
  const StubError: Error := NSError("HIAHMinimuxer", 99, DisabledMessage)

  /** The calls that assign `status`. */
  datatype LifecycleOp = Initialize | Start | Stop

  /** The status after one lifecycle call: all three disable the helper. */
  function Transition(s: Status, op: LifecycleOp): (t: Status)
    ensures t == Disabled
  {
    match op
    case Initialize => Disabled
    case Start => Disabled
    case Stop => Disabled
  }

  function Run(s: Status, ops: seq<LifecycleOp>): Status
    decreases |ops|
  {
    if ops == [] then s else Run(Transition(s, ops[0]), ops[1..])
  }

  /** Whatever lifecycle calls are made, a helper that starts disabled never reaches `ready`. */
  lemma {:induction false} NeverReady(ops: seq<LifecycleOp>)
    ensures Run(Disabled, ops) == Disabled
    ensures Run(Disabled, ops) != Ready
  {
    if ops != [] {
      NeverReady(ops[1..]);
    }
  }

  class Minimuxer {
    var status: Status
    var lastErrorMessage: Option<string>

    ghost predicate Valid()
      reads this
    {
      status == Disabled && lastErrorMessage == Some(DisabledMessage)
    }

    constructor ()
      ensures Valid()
    {
      status := Disabled;
      lastErrorMessage := Some(DisabledMessage);
    }

    predicate IsReady()
      reads this
      ensures !IsReady()
    {
      false
    }

    method InitializeHelper(pairingFilePath: string, logPath: Option<string>, consoleLogging: bool) returns (ok: bool)
      modifies this
      ensures status == Transition(old(status), Initialize)
      ensures lastErrorMessage == Some(DisabledMessage)
      ensures !ok
      ensures Valid()
    {
      status := Disabled;
      lastErrorMessage := Some(DisabledMessage);
      ok := false;
    }

    method StartHelper(pairingFilePath: string) returns (ok: bool)
      modifies this
      ensures status == Transition(old(status), Start)
      ensures lastErrorMessage == Some(DisabledMessage)
      ensures !ok
      ensures Valid()
    {
      ok := InitializeHelper(pairingFilePath, None, false);
    }

    /** Leaves `lastErrorMessage` as it was. */
    method StopHelper()
      modifies this
      ensures status == Transition(old(status), Stop)
      ensures lastErrorMessage == old(lastErrorMessage)
      ensures old(Valid()) ==> Valid()
    {
      status := Disabled;
    }

    method FetchDeviceUDID() returns (udid: Option<string>)
      ensures udid.None?
    {
      udid := None;
    }

    method TestDeviceConnection() returns (connected: bool)
      ensures !connected
    {
      connected := false;
    }

    method EnableJIT(bundleID: string) returns (r: Outcome<Error>)
      ensures r == Fail(StubError)
    {
      r := Fail(StubError);
    }

    method AttachDebugger(pid: nat) returns (r: Outcome<Error>)
      requires pid < 0x1_0000_0000
      ensures r == Fail(StubError)
    {
      r := Fail(StubError);
    }

    method InstallIPA(bundleID: string, ipaData: seq<bv8>) returns (r: Outcome<Error>)
      ensures r == Fail(StubError)
    {
      r := Fail(StubError);
    }

    method RemoveApp(bundleID: string) returns (r: Outcome<Error>)
      ensures r == Fail(StubError)
    {
      r := Fail(StubError);
    }

    method InstallProvisioningProfile(profileData: seq<bv8>) returns (r: Outcome<Error>)
      ensures r == Fail(StubError)
    {
      r := Fail(StubError);
    }

    method RemoveProvisioningProfile(profileID: string) returns (r: Outcome<Error>)
      ensures r == Fail(StubError)
    {
      r := Fail(StubError);
    }
  }

  /** `isAvailable()`: the stub is never available. */
  predicate IsAvailable()
    ensures !IsAvailable()
  {
    false
  }

  const PairingFileName: string := "ALTPairingFile.mobiledevicepairing"
  const SideStorePairingFileName: string := "pairing_file.plist"

  /** `URL.appendingPathComponent` on a directory path. */
  function AppendPathComponent(dir: string, name: string): string {
    dir + "/" + name
  }

  /** `defaultPairingFilePath()`: the first existing candidate in the documents directory, AltStore's
      name before SideStore's. `documentsDir` is the first documents URL the file manager returns,
      `existing` the paths for which `fileExists` answers yes. */
  function DefaultPairingFilePath(documentsDir: Option<string>, existing: set<string>): (path: Option<string>)
    ensures path.Some? <==>
      (documentsDir.Some? &&
        (AppendPathComponent(documentsDir.value, PairingFileName) in existing ||
         AppendPathComponent(documentsDir.value, SideStorePairingFileName) in existing))
    ensures path.Some? ==> path.value in existing
    ensures documentsDir.Some? && AppendPathComponent(documentsDir.value, PairingFileName) in existing ==>
      path == Some(AppendPathComponent(documentsDir.value, PairingFileName))
    ensures path.Some? && path.value != AppendPathComponent(documentsDir.value, PairingFileName) ==>
      path.value == AppendPathComponent(documentsDir.value, SideStorePairingFileName) &&
      AppendPathComponent(documentsDir.value, PairingFileName) !in existing
  {
    match documentsDir
    case None => None
    case Some(dir) =>
      var pairingFile := AppendPathComponent(dir, PairingFileName);
      if pairingFile in existing then Some(pairingFile)
      else
        var sidestorePairingFile := AppendPathComponent(dir, SideStorePairingFileName);
        if sidestorePairingFile in existing then Some(sidestorePairingFile)
        else None
  }

  predicate HasPairingFile(documentsDir: Option<string>, existing: set<string>) {
    DefaultPairingFilePath(documentsDir, existing) != None
  }

  /** A pairing file is reported exactly when one of the two candidate names exists. */
  lemma HasPairingFileIffCandidate(dir: string, existing: set<string>)
    ensures HasPairingFile(Some(dir), existing) <==>
      AppendPathComponent(dir, PairingFileName) in existing ||
      AppendPathComponent(dir, SideStorePairingFileName) in existing
  {
  }
}
