/** HIAHJITEnabler.swift: the choice of how to get JIT for an app. Either JIT is already on,
    or the helper's debug server enables it, or the enabler falls back to waiting for the VPN;
    whichever way it goes, the completion is called once, and always with success. */
module JIT {
  import opened Wrappers
  import opened Errors
  import MinimuxerStub

  const DefaultBundleID: string := "com.aspauldingcode.HIAHDesktop"

  /** What the enabler observes while it runs. The helper's answers are inputs, so the decision
      tree can be stated for any helper; `StubObservations` fixes them to the shipped stub's. */
  datatype Observations = Observations(
    jitEnabledAtStart: bool,         // the CS_DEBUGGED check on entry
    helperReady: bool,               // `minimuxer.isReady`
    documentsDir: Option<string>,    // first documents directory URL, as a path
    existingFiles: set<string>,      // paths for which `fileExists` answers yes
    initializeSucceeds: bool,        // what `minimuxer.initialize` returns
    deviceReachable: bool,           // what `minimuxer.testDeviceConnection` returns
    enableError: Option<Error>,      // what `minimuxer.enableJIT` throws, if anything
    jitEnabledAfterSettle: bool)     // the CS_DEBUGGED check after the 0.5 s or 1.5 s wait

  /** The calls the enabler makes on the helper, in order. */
  datatype HelperCall =
    | QueryReady
    | InitializeHelper(pairingFile: string, logPath: string, consoleLogging: bool)
    | TestConnection
    | EnableJITFor(bundleID: string)

  datatype FallbackReason = NoPairingFileFound | InitializeFailed | NoDeviceConnection | EnableFailed(error: Error)

  datatype Strategy = AlreadyEnabled | DebugServer | VPNFallback(reason: FallbackReason)

  /** The `(Bool, Error?)` a completion handler is called with. */
  datatype Completion = Completion(success: bool, error: Option<Error>)

  datatype JITOutcome = JITOutcome(
    strategy: Strategy,
    helperCalls: seq<HelperCall>,
    completions: seq<Completion>,
    jitConfirmed: bool)              // whether the final CS_DEBUGGED check saw JIT on

  /** `NSString.appendingPathComponent`, for the log path beside the documents directory. */
  function AppendingPathComponent(base: string, name: string): string {
    if base == "" then name else base + "/" + name
  }

  /** `enableJITVPNFallback`: wait, look at the flag again, and report success either way. */
  function VPNFallbackOutcome(reason: FallbackReason, calls: seq<HelperCall>, obs: Observations): (r: JITOutcome)
    ensures r.strategy == VPNFallback(reason) && r.helperCalls == calls
    ensures r.completions == [Completion(true, None)]
    ensures r.jitConfirmed == obs.jitEnabledAfterSettle
  {
    JITOutcome(VPNFallback(reason), calls, [Completion(true, None)], obs.jitEnabledAfterSettle)
  }

  /** The steps after the helper is running: the connection test, then the debug server. */
  function ViaDebugServer(bundleID: string, calls: seq<HelperCall>, obs: Observations): JITOutcome {
    var calls := calls + [TestConnection];
    if !obs.deviceReachable then VPNFallbackOutcome(NoDeviceConnection, calls, obs)
    else
      var calls := calls + [EnableJITFor(bundleID)];
      match obs.enableError
      case Some(e) => VPNFallbackOutcome(EnableFailed(e), calls, obs)
      case None =>
        // Success is reported whether or not the re-check after 0.5 s sees the flag.
        JITOutcome(DebugServer, calls, [Completion(true, None)], obs.jitEnabledAfterSettle)
  }

  /** `enableJIT(forBundleID:completion:)`. */
  function EnableJIT(bundleID: string, obs: Observations): (r: JITOutcome)
    ensures r.jitConfirmed <==> obs.jitEnabledAtStart || obs.jitEnabledAfterSettle
    ensures r.helperCalls == [] <==> obs.jitEnabledAtStart
    ensures |r.helperCalls| <= 4
  {
    if obs.jitEnabledAtStart then JITOutcome(AlreadyEnabled, [], [Completion(true, None)], true)
    else if obs.helperReady then ViaDebugServer(bundleID, [QueryReady], obs)
    else
      match MinimuxerStub.DefaultPairingFilePath(obs.documentsDir, obs.existingFiles)
      case None => VPNFallbackOutcome(NoPairingFileFound, [QueryReady], obs)
      case Some(pairingPath) =>
        var documentsPath := obs.documentsDir.OrElse(Some("")).value;
        var calls := [QueryReady, InitializeHelper(pairingPath, AppendingPathComponent(documentsPath, "minimuxer.log"), true)];
        if !obs.initializeSucceeds then VPNFallbackOutcome(InitializeFailed, calls, obs)
        else ViaDebugServer(bundleID, calls, obs)
  }

  /** `enableJITForCurrentProcess`: the main bundle's identifier, or the desktop's by default. */
  function EnableJITForCurrentProcess(mainBundleID: Option<string>, obs: Observations): (r: JITOutcome)
    ensures mainBundleID.Some? ==> r == EnableJIT(mainBundleID.value, obs)
    ensures mainBundleID.None? ==> r == EnableJIT(DefaultBundleID, obs)
  {
    EnableJIT(mainBundleID.OrElse(Some(DefaultBundleID)).value, obs)
  }

  /** The helper is running once the primary path has passed its start-up step: it was ready,
      or a pairing file was found and `initialize` succeeded. */
  predicate HelperStarted(obs: Observations) {
    obs.helperReady ||
    (MinimuxerStub.DefaultPairingFilePath(obs.documentsDir, obs.existingFiles).Some? && obs.initializeSucceeds)
  }

  // ---- Properties ----

  /** No path reports failure or an error, and the completion is called exactly once. */
  lemma AlwaysReportsSuccess(bundleID: string, obs: Observations)
    ensures EnableJIT(bundleID, obs).completions == [Completion(true, None)]
  {
  }

  /** JIT already on: immediate success and not a single call on the helper. */
  lemma AlreadyEnabledTouchesNothing(bundleID: string, obs: Observations)
    ensures EnableJIT(bundleID, obs).strategy == AlreadyEnabled <==> obs.jitEnabledAtStart
    ensures obs.jitEnabledAtStart ==> EnableJIT(bundleID, obs).helperCalls == []
    ensures !obs.jitEnabledAtStart ==> EnableJIT(bundleID, obs).helperCalls[0] == QueryReady
  {
  }

  /** The debug server is used exactly when the helper runs, the device answers and `enableJIT`
      does not throw; it is then told the requested bundle identifier, after a successful
      connection test. */
  lemma DebugServerCallsEnable(bundleID: string, obs: Observations)
    ensures EnableJIT(bundleID, obs).strategy == DebugServer <==>
      (!obs.jitEnabledAtStart && HelperStarted(obs) && obs.deviceReachable && obs.enableError.None?)
    ensures EnableJIT(bundleID, obs).strategy.DebugServer? ==>
      var calls := EnableJIT(bundleID, obs).helperCalls;
      |calls| >= 2 && calls[|calls| - 1] == EnableJITFor(bundleID) && calls[|calls| - 2] == TestConnection
  {
  }

  /** Each failure of the primary path leads to the fallback, for the reason that stopped it. */
  lemma FallbackReasons(bundleID: string, obs: Observations)
    requires !obs.jitEnabledAtStart
    ensures var pairing := MinimuxerStub.DefaultPairingFilePath(obs.documentsDir, obs.existingFiles);
      var s := EnableJIT(bundleID, obs).strategy;
      (!obs.helperReady && pairing.None? ==> s == VPNFallback(NoPairingFileFound)) &&
      (!obs.helperReady && pairing.Some? && !obs.initializeSucceeds ==> s == VPNFallback(InitializeFailed)) &&
      (HelperStarted(obs) && !obs.deviceReachable ==> s == VPNFallback(NoDeviceConnection)) &&
      (HelperStarted(obs) && obs.deviceReachable && obs.enableError.Some? ==>
        s == VPNFallback(EnableFailed(obs.enableError.value)))
  {
  }

  /** The fallback is taken exactly when JIT is off and the primary path fails somewhere. */
  lemma FallbackIff(bundleID: string, obs: Observations)
    ensures EnableJIT(bundleID, obs).strategy.VPNFallback? <==>
      (!obs.jitEnabledAtStart && !(HelperStarted(obs) && obs.deviceReachable && obs.enableError.None?))
  {
    DebugServerCallsEnable(bundleID, obs);
  }

  /** The helper answers of the shipped stub: not ready, `initialize` fails, no device. */
  predicate StubObservations(obs: Observations) {
    !obs.helperReady && !obs.initializeSucceeds && !obs.deviceReachable
  }

  /** Without a main bundle identifier the debug server is asked for the desktop's. */
  lemma CurrentProcessDefaultsBundle(obs: Observations)
    ensures EnableJITForCurrentProcess(None, obs).strategy.DebugServer? ==>
      EnableJITFor(DefaultBundleID) in EnableJITForCurrentProcess(None, obs).helperCalls
  {
    DebugServerCallsEnable(DefaultBundleID, obs);
  }

  /** With the stub, JIT that is not already on always ends in the fallback, and the helper is
      never asked to enable anything. */
  lemma StubAlwaysFallsBack(bundleID: string, obs: Observations)
    requires StubObservations(obs) && !obs.jitEnabledAtStart
    ensures EnableJIT(bundleID, obs).strategy.VPNFallback?
    ensures EnableJITFor(bundleID) !in EnableJIT(bundleID, obs).helperCalls
  {
  }
}
