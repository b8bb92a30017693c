/** RefreshService.swift: renewing the app's provisioning profile before it expires. The
    refresh itself is a chain of guards followed by remote steps, each failing with its own
    `RefreshError`; around it sit the launch-time decision, the expiration warning and the
    expiry read-outs. Times are integer seconds; calendar day and hour counts are inputs. */
module Refresh {
  import opened Wrappers
  import opened Errors
  import opened Decimal
  import opened AppleAPI
  import MinimuxerStub
  import opened Accounts
  import opened Auth

  const LastRefreshKey: string := "HIAHDesktop.lastRefreshDate"
  const ExpirationKey: string := "HIAHDesktop.certificateExpirationDate"
  const RefreshBundleID: string := "com.aspauldingcode.HIAHDesktop"
  const AppIDName: string := "HIAH Desktop"
  const MaxConnectionAttempts: nat := 10
  /** The warning goes out 24 hours before the expiration. */
  const WarningLead: int := 24 * 60 * 60
  /** The launch-time refresh acts when at most this many days are left. */
  const LaunchThresholdDays: int := 2

  // ---- What the refresh observes ----

  /** Everything `performRefresh` learns from outside the model, in the order it asks. */
  datatype RefreshEnv = RefreshEnv(
    vpnConnected: bool,                     // `HIAHVPNStateMachine.shared().isConnected`
    documentsDir: Option<string>,           // first documents directory, as a path
    existingFiles: set<string>,             // paths `fileExists` answers yes for
    helperStatus: MinimuxerStub.Status,     // `minimuxer.status` when step 5 looks at it
    initializeSucceeds: bool,               // what `minimuxer.initialize` returns
    probes: seq<bool>,                      // answer of the i-th `testDeviceConnection`; later calls answer no
    mainBundleID: Option<string>,           // `Bundle.main.bundleIdentifier`
    appIDsReply: Reply<seq<AppID>>,         // completion of `fetchAppIDs`
    addAppIDReply: Reply<AppID>,            // completion of `addAppID`
    profileReply: Reply<ProvisioningProfile>, // completion of `fetchProvisioningProfile`
    installError: Option<Error>,            // what `installProvisioningProfile` throws, if anything
    now: int)                               // `Date()` when the new dates are recorded

  /** The calls the refresh makes on the helper and on Apple, in order. */
  datatype Call =
    | InitializeHelper(pairingFile: string, logPath: Option<string>)
    | TestConnection
    | Sleep
    | FetchAppIDsCall
    | AddAppIDCall(name: string, bundleIdentifier: string)
    | FetchProfileCall(appID: AppID)
    | InstallProfileCall(data: seq<bv8>)

  /** The outcome of one refresh: the installed profile or the error thrown, and the calls made. */
  datatype RefreshRun = RefreshRun(result: Result<ProvisioningProfile, Error>, calls: seq<Call>)

  function Probe(probes: seq<bool>, i: nat): bool {
    i < |probes| && probes[i]
  }

  /** The number of half-second sleeps of the device poll from attempt `k` on: the first
      attempt whose probe answers yes, capped at ten. */
  function SleepCountFrom(probes: seq<bool>, k: nat): (n: nat)
    requires k <= MaxConnectionAttempts
    ensures k <= n <= MaxConnectionAttempts
    ensures forall j :: k <= j < n ==> !Probe(probes, j)
    ensures n < MaxConnectionAttempts ==> Probe(probes, n)
    decreases MaxConnectionAttempts - k
  {
    if k == MaxConnectionAttempts || Probe(probes, k) then k else SleepCountFrom(probes, k + 1)
  }

  function SleepCount(probes: seq<bool>): nat {
    SleepCountFrom(probes, 0)
  }

  /** The calls of the poll loop that sleeps `k` times: a probe before each sleep and one
      more that ends the loop. */
  function PollCalls(k: nat): seq<Call> {
    if k == 0 then [TestConnection] else [TestConnection, Sleep] + PollCalls(k - 1)
  }

  function Sleeps(calls: seq<Call>): nat {
    if calls == [] then 0 else (if calls[0] == Sleep then 1 else 0) + Sleeps(calls[1..])
  }

  lemma {:induction false} SleepsAppend(a: seq<Call>, b: seq<Call>)
    ensures Sleeps(a + b) == Sleeps(a) + Sleeps(b)
  {
    if a == [] {
      assert a + b == b;
    } else {
      assert (a + b)[0] == a[0];
      assert (a + b)[1..] == a[1..] + b;
      SleepsAppend(a[1..], b);
    }
  }

  lemma {:induction false} PollSleeps(k: nat)
    ensures Sleeps(PollCalls(k)) == k
    ensures |PollCalls(k)| == 2 * k + 1
  {
    if k > 0 {
      SleepsAppend([TestConnection, Sleep], PollCalls(k - 1));
      PollSleeps(k - 1);
    }
  }

  /** `existingAppIDs.first(where:)` on the bundle identifier. */
  function FirstWithBundle(ids: seq<AppID>, bundleID: string): (r: Option<AppID>)
    ensures r.None? <==> forall i :: 0 <= i < |ids| ==> ids[i].bundleIdentifier != bundleID
    ensures r.Some? ==> r.value in ids && r.value.bundleIdentifier == bundleID
  {
    if ids == [] then None
    else if ids[0].bundleIdentifier == bundleID then Some(ids[0])
    else
      var r := FirstWithBundle(ids[1..], bundleID);
      assert forall i :: 1 <= i < |ids| ==> ids[i] == ids[1..][i - 1];
      r
  }

  /** Of several App IDs for the bundle, the one earliest in the list is taken. */
  lemma {:induction false} FirstWithBundleIsFirst(ids: seq<AppID>, bundleID: string, j: nat)
    requires j < |ids| && ids[j].bundleIdentifier == bundleID
    requires forall k :: 0 <= k < j ==> ids[k].bundleIdentifier != bundleID
    ensures FirstWithBundle(ids, bundleID) == Some(ids[j])
  {
    if j > 0 {
      assert ids[0].bundleIdentifier != bundleID;
      assert forall k :: 0 <= k < j - 1 ==> ids[1..][k] == ids[k + 1];
      FirstWithBundleIsFirst(ids[1..], bundleID, j - 1);
    }
  }

  // ---- The refresh, step by step ----

  function Fails(e: RefreshError, calls: seq<Call>): RefreshRun {
    RefreshRun(Failure(Refresh(e)), calls)
  }

  /** Steps 1 to 4: the checks that need no call on the helper or on Apple. */
  function Preflight(canSelfRefresh: bool, authenticated: bool, env: RefreshEnv): Option<RefreshError> {
    if !canSelfRefresh then Some(MinimuxerNotAvailable)
    else if !authenticated then Some(NotAuthenticated)
    else if !env.vpnConnected then Some(VPNNotConnected)
    else if !MinimuxerStub.HasPairingFile(env.documentsDir, env.existingFiles) then Some(NoPairingFile)
    else None
  }

  /** Step 5: start the helper unless it is already ready. */
  function StartHelper(env: RefreshEnv): (Option<RefreshError>, seq<Call>) {
    if env.helperStatus == MinimuxerStub.Ready then (None, [])
    else
      match MinimuxerStub.DefaultPairingFilePath(env.documentsDir, env.existingFiles)
      case None => (Some(NoPairingFile), [])
      case Some(pairingPath) =>
        var logPath := match env.documentsDir
          case None => None
          case Some(dir) => Some(MinimuxerStub.AppendPathComponent(dir, "minimuxer.log"));
        var calls := [InitializeHelper(pairingPath, logPath)];
        if env.initializeSucceeds then (None, calls) else (Some(MinimuxerNotReady), calls)
  }

  /** Steps 8 to 10, once the device answers and a team and session are known. */
  function ProfileSteps(env: RefreshEnv): RefreshRun {
    var bundleID := env.mainBundleID.OrElse(Some(RefreshBundleID)).value;
    match FetchAppIDs(env.appIDsReply)
    case Failure(e) => Fails(ProfileFetchFailed(e), [FetchAppIDsCall])
    case Success(existing) =>
      var found := FirstWithBundle(existing, bundleID);
      var appIDStep: (Result<AppID, Error>, seq<Call>) :=
        if found.Some? then (Success(found.value), [FetchAppIDsCall])
        else (AddAppID(env.addAppIDReply), [FetchAppIDsCall, AddAppIDCall(AppIDName, bundleID)]);
      match appIDStep.0
      case Failure(e) => Fails(ProfileFetchFailed(e), appIDStep.1)
      case Success(appID) =>
        var calls := appIDStep.1 + [FetchProfileCall(appID)];
        match FetchProvisioningProfile(env.profileReply)
        case Failure(e) => Fails(ProfileFetchFailed(e), calls)
        case Success(profile) =>
          var calls := calls + [InstallProfileCall(profile.data)];
          match env.installError
          case Some(e) => Fails(ProfileInstallFailed(e), calls)
          case None => RefreshRun(Success(profile), calls)
  }

  /** `performRefresh`: `authenticated` is the authentication manager's flag, `team` and
      `session` the account manager's. */
  function ExpectedRefresh(canSelfRefresh: bool, authenticated: bool, team: Option<Team>, session: Option<Session>,
                           env: RefreshEnv): RefreshRun
  {
    match Preflight(canSelfRefresh, authenticated, env)
    case Some(e) => Fails(e, [])
    case None =>
      var (startError, startCalls) := StartHelper(env);
      if startError.Some? then Fails(startError.value, startCalls)
      else
        var attempts := SleepCount(env.probes);
        var calls := startCalls + PollCalls(attempts) + [TestConnection];
        if !Probe(env.probes, attempts + 1) then Fails(MinimuxerNotReady, calls)
        else if team.None? || session.None? then Fails(NotAuthenticated, calls)
        else
          var rest := ProfileSteps(env);
          RefreshRun(rest.result, calls + rest.calls)
  }

  // ---- Properties of the refresh ----

  /** Without self-refresh nothing else is checked and nothing is called. */
  lemma UnavailableFirst(authenticated: bool, team: Option<Team>, session: Option<Session>, env: RefreshEnv)
    ensures ExpectedRefresh(false, authenticated, team, session, env) == Fails(MinimuxerNotAvailable, [])
  {
  }

  /** The guards fail in their fixed order, and a failing guard comes before every call
      after it. */
  lemma GuardOrder(can: bool, authenticated: bool, team: Option<Team>, session: Option<Session>, env: RefreshEnv)
    requires can
    ensures var run := ExpectedRefresh(can, authenticated, team, session, env);
      (!authenticated ==> run == Fails(NotAuthenticated, [])) &&
      (authenticated && !env.vpnConnected ==> run == Fails(VPNNotConnected, [])) &&
      (authenticated && env.vpnConnected && !MinimuxerStub.HasPairingFile(env.documentsDir, env.existingFiles) ==>
        run == Fails(NoPairingFile, [])) &&
      (authenticated && env.vpnConnected && MinimuxerStub.HasPairingFile(env.documentsDir, env.existingFiles) &&
        env.helperStatus != MinimuxerStub.Ready && !env.initializeSucceeds ==>
        run.result == Failure(Refresh(MinimuxerNotReady)) && |run.calls| == 1 && run.calls[0].InitializeHelper?)
  {
  }

  /** The device poll sleeps at most ten times over the whole refresh. */
  lemma PollBounded(can: bool, authenticated: bool, team: Option<Team>, session: Option<Session>, env: RefreshEnv)
    ensures Sleeps(ExpectedRefresh(can, authenticated, team, session, env).calls) <= MaxConnectionAttempts
  {
    var run := ExpectedRefresh(can, authenticated, team, session, env);
    if Preflight(can, authenticated, env).None? && StartHelper(env).0.None? {
      var k := SleepCount(env.probes);
      var startCalls := StartHelper(env).1;
      var calls := startCalls + PollCalls(k) + [TestConnection];
      assert Sleeps(startCalls) == 0 by {
        if startCalls != [] { assert startCalls[1..] == []; }
      }
      assert Sleeps([TestConnection]) == 0;
      PollSleeps(k);
      SleepsAppend(startCalls, PollCalls(k));
      SleepsAppend(startCalls + PollCalls(k), [TestConnection]);
      if Probe(env.probes, k + 1) && team.Some? && session.Some? {
        ProfileStepsNoSleep(env);
        SleepsAppend(calls, ProfileSteps(env).calls);
      }
    }
  }

  lemma ProfileStepsNoSleep(env: RefreshEnv)
    ensures Sleeps(ProfileSteps(env).calls) == 0
  {
    var calls := ProfileSteps(env).calls;
    assert forall i :: 0 <= i < |calls| ==> calls[i] != Sleep;
    NoSleepMeansZero(calls);
  }

  lemma {:induction false} NoSleepMeansZero(calls: seq<Call>)
    requires forall i :: 0 <= i < |calls| ==> calls[i] != Sleep
    ensures Sleeps(calls) == 0
  {
    if calls != [] {
      assert calls[0] != Sleep;
      assert forall i :: 0 <= i < |calls[1..]| ==> calls[1..][i] == calls[i + 1];
      NoSleepMeansZero(calls[1..]);
    }
  }

  /** A call that talks to the helper or sleeps, not one on Apple's developer services. */
  predicate HelperOnly(c: Call) {
    c.InitializeHelper? || c == TestConnection || c == Sleep
  }

  /** A device still unreachable after the poll (the extra probe of the guard included)
      ends the refresh with `minimuxerNotReady`; every call made by then went to the helper
      or was a sleep, so none of the App ID, profile or install calls on Apple was made. */
  lemma UnreachableDevice(can: bool, authenticated: bool, team: Option<Team>, session: Option<Session>, env: RefreshEnv)
    requires Preflight(can, authenticated, env).None? && StartHelper(env).0.None?
    requires !Probe(env.probes, SleepCount(env.probes) + 1)
    ensures var run := ExpectedRefresh(can, authenticated, team, session, env);
      run.result == Failure(Refresh(MinimuxerNotReady)) &&
      (forall i :: 0 <= i < |run.calls| ==> HelperOnly(run.calls[i])) &&
      run.calls[|run.calls| - 1] == TestConnection
  {
    var k := SleepCount(env.probes);
    var run := ExpectedRefresh(can, authenticated, team, session, env);
    PollHelperOnly(k);
    assert run.calls == StartHelper(env).1 + PollCalls(k) + [TestConnection];
  }

  /** The poll loop only probes the helper and sleeps. */
  lemma {:induction false} PollHelperOnly(k: nat)
    ensures forall i :: 0 <= i < |PollCalls(k)| ==> PollCalls(k)[i] == TestConnection || PollCalls(k)[i] == Sleep
  {
    if k > 0 {
      PollHelperOnly(k - 1);
      assert forall i :: 2 <= i < |PollCalls(k)| ==> PollCalls(k)[i] == PollCalls(k - 1)[i - 2];
    }
  }

  /** The App ID step: an existing App ID for the bundle is reused and none is created; with
      none, one named "HIAH Desktop" is created for the bundle; errors of either call, and of
      the profile fetch, become `profileFetchFailed`. */
  lemma AppIDStep(env: RefreshEnv)
    ensures var bundleID := env.mainBundleID.OrElse(Some(RefreshBundleID)).value;
      var run := ProfileSteps(env);
      (env.appIDsReply.error.Some? ==> run == Fails(ProfileFetchFailed(AltSign(NetworkError(env.appIDsReply.error.value))), [FetchAppIDsCall])) &&
      (env.appIDsReply.error.None? && env.appIDsReply.value.Some? &&
        FirstWithBundle(env.appIDsReply.value.value, bundleID).Some? ==>
        |run.calls| >= 2 && run.calls[..2] == [FetchAppIDsCall, FetchProfileCall(FirstWithBundle(env.appIDsReply.value.value, bundleID).value)]) &&
      (env.appIDsReply.error.None? && (env.appIDsReply.value.None? || FirstWithBundle(env.appIDsReply.value.value, bundleID).None?) ==>
        |run.calls| >= 2 && run.calls[..2] == [FetchAppIDsCall, AddAppIDCall(AppIDName, bundleID)] &&
        (AddAppID(env.addAppIDReply).Failure? ==> run.result == Failure(Refresh(ProfileFetchFailed(AddAppID(env.addAppIDReply).error))))) &&
      (env.profileReply.error.Some? && run.calls != [FetchAppIDsCall] &&
        run.calls[|run.calls| - 1].FetchProfileCall? ==>
        run.result == Failure(Refresh(ProfileFetchFailed(AltSign(ProvisioningFailed(Description(env.profileReply.error.value)))))))
  {
  }

  /** The profile steps succeed exactly when every reply is good and the install does not
      throw; the profile installed is the one Apple returned. Every failure is a
      `RefreshError`. */
  lemma ProfileStepsOutcome(env: RefreshEnv)
    ensures ProfileSteps(env).result.Success? ==>
      env.profileReply.error.None? && env.profileReply.value.Some? && env.installError.None? &&
      ProfileSteps(env).result.value == env.profileReply.value.value &&
      ProfileSteps(env).calls[|ProfileSteps(env).calls| - 1] == InstallProfileCall(env.profileReply.value.value.data)
    ensures ProfileSteps(env).result.Failure? ==> ProfileSteps(env).result.error.Refresh?
    ensures (ProfileSteps(env).result.Failure? && env.installError.Some? &&
             ProfileSteps(env).calls[|ProfileSteps(env).calls| - 1].InstallProfileCall?) ==>
      ProfileSteps(env).result == Failure(Refresh(ProfileInstallFailed(env.installError.value)))
  {
  }

  /** A refresh succeeds only if every guard passed and the device answered. */
  lemma RefreshSuccess(can: bool, authenticated: bool, team: Option<Team>, session: Option<Session>, env: RefreshEnv)
    ensures var run := ExpectedRefresh(can, authenticated, team, session, env);
      run.result.Success? ==>
        can && authenticated && env.vpnConnected && MinimuxerStub.HasPairingFile(env.documentsDir, env.existingFiles) &&
        (env.helperStatus == MinimuxerStub.Ready || env.initializeSucceeds) &&
        Probe(env.probes, SleepCount(env.probes) + 1) && team.Some? && session.Some? &&
        run.result == ProfileSteps(env).result
    ensures ExpectedRefresh(can, authenticated, team, session, env).result.Failure? ==>
      ExpectedRefresh(can, authenticated, team, session, env).result.error.Refresh?
  {
    ProfileStepsOutcome(env);
  }

  // ---- Small decisions ----

  /** What `scheduleExpirationWarning` does for a given expiration date. */
  datatype Warning = NoExpirationDate | Scheduled(secondsUntilWarning: int) | NotifyNow(isExpired: bool)

  function WarningFor(expiration: Option<int>, now: int): (w: Warning)
    ensures w == NoExpirationDate <==> expiration.None?
    ensures w.Scheduled? <==> expiration.Some? && expiration.value - WarningLead > now
    ensures w.Scheduled? ==> w.secondsUntilWarning > 0 && now + w.secondsUntilWarning == expiration.value - WarningLead
    ensures w.NotifyNow? ==> (w.isExpired <==> expiration.value < now)
  {
    match expiration
    case None => NoExpirationDate
    case Some(expiresAt) =>
      var untilWarning := (expiresAt - WarningLead) - now;
      if untilWarning > 0 then Scheduled(untilWarning)
      else NotifyNow(expiresAt - now < 0)
  }

  /** A notice that is due now says "expired" only once the expiration has passed; before the
      last day it is always a scheduled warning instead. */
  lemma WarningPhases(expiresAt: int, now: int)
    ensures now < expiresAt - WarningLead ==> WarningFor(Some(expiresAt), now) == Scheduled(expiresAt - WarningLead - now)
    ensures expiresAt - WarningLead <= now <= expiresAt ==> WarningFor(Some(expiresAt), now) == NotifyNow(false)
    ensures expiresAt < now ==> WarningFor(Some(expiresAt), now) == NotifyNow(true)
  {
  }

  /** The notifications this model records. */
  datatype Notice =
    | WarningScheduled(secondsUntilWarning: int)
    | ExpirationNotice(isExpired: bool)
    | RefreshSuccessNotice
    | RefreshFailureNotice(message: string)

  function WarningNotices(w: Warning): seq<Notice> {
    match w
    case NoExpirationDate => []
    case Scheduled(s) => [WarningScheduled(s)]
    case NotifyNow(expired) => [ExpirationNotice(expired)]
  }

  /** `isExpired`: an unknown expiry counts as expired. */
  function IsExpired(days: Option<int>): (expired: bool)
    ensures days.None? ==> expired
    ensures days.Some? ==> (expired <==> days.value < 0)
  {
    match days
    case None => true
    case Some(d) => d < 0
  }

  /** `formattedTimeUntilExpiration` for the calendar's hour count. */
  function FormattedTimeUntilExpiration(hours: Option<int>): (s: string)
    ensures hours.None? <==> s == "Unknown"
  {
    match hours
    case None => "Unknown"
    case Some(h) =>
      if h < 0 then "Expired"
      else
        var t := if h < 24 then DecimalString(h) + " hours" else DecimalString(h / 24) + " days";
        assert t[|t| - 1] == 's' != "Unknown"[6];
        t
  }

  /** The count shown is the hours under a day and the whole days otherwise; reading the
      number back gives exactly that count. */
  lemma FormattedTimeReadsBack(h: int)
    ensures h < 0 ==> FormattedTimeUntilExpiration(Some(h)) == "Expired"
    ensures 0 <= h < 24 ==>
      var s := FormattedTimeUntilExpiration(Some(h));
      |s| > 6 && s[|s| - 6..] == " hours" && DecimalValue(s[..|s| - 6]) == h
    ensures h >= 24 ==>
      var s := FormattedTimeUntilExpiration(Some(h));
      |s| > 5 && s[|s| - 5..] == " days" && DecimalValue(s[..|s| - 5]) == h / 24 && h / 24 >= 1
  {
    if 0 <= h < 24 {
      var s := DecimalString(h) + " hours";
      assert s[..|s| - 6] == DecimalString(h);
      DecimalRoundTrip(h);
    } else if h >= 24 {
      var s := DecimalString(h / 24) + " days";
      assert s[..|s| - 5] == DecimalString(h / 24);
      DecimalRoundTrip(h / 24);
    }
  }

  /** What `refreshOnLaunchIfNeeded` decides from the day count. */
  datatype LaunchPlan = NothingToDo | NotifyExpiring(isExpired: bool) | AutoRefresh

  function LaunchDecision(days: Option<int>, canSelfRefresh: bool): (p: LaunchPlan)
    ensures p == NothingToDo <==> days.None? || days.value > LaunchThresholdDays
    ensures p.NotifyExpiring? <==> days.Some? && days.value <= LaunchThresholdDays && !canSelfRefresh
    ensures p.NotifyExpiring? ==> p.isExpired == (days.value < 0)
    ensures p == AutoRefresh <==> days.Some? && days.value <= LaunchThresholdDays && canSelfRefresh
  {
    match days
    case None => NothingToDo
    case Some(d) =>
      if d > LaunchThresholdDays then NothingToDo
      else if !canSelfRefresh then NotifyExpiring(d < 0)
      else AutoRefresh
  }

  // ---- Persistence ----

  /** `persistState`: only the known dates are written; an unknown one keeps what was stored. */
  function Persist(store: map<string, int>, lastRefresh: Option<int>, expiration: Option<int>): map<string, int> {
    var s := if lastRefresh.Some? then store[LastRefreshKey := lastRefresh.value] else store;
    if expiration.Some? then s[ExpirationKey := expiration.value] else s
  }

  function Lookup(store: map<string, int>, key: string): (v: Option<int>)
    ensures v.Some? <==> key in store
    ensures v.Some? ==> v.value == store[key]
  {
    if key in store then Some(store[key]) else None
  }

  /** Loading after persisting gives back each known date, and the earlier stored value for an
      unknown one; no other key is touched. */
  lemma PersistThenLoad(store: map<string, int>, lastRefresh: Option<int>, expiration: Option<int>, other: string)
    requires other != LastRefreshKey && other != ExpirationKey
    ensures Lookup(Persist(store, lastRefresh, expiration), LastRefreshKey) == lastRefresh.OrElse(Lookup(store, LastRefreshKey))
    ensures Lookup(Persist(store, lastRefresh, expiration), ExpirationKey) == expiration.OrElse(Lookup(store, ExpirationKey))
    ensures Lookup(Persist(store, lastRefresh, expiration), other) == Lookup(store, other)
  {
    assert LastRefreshKey != ExpirationKey;
  }

  // ---- The service ----

  class RefreshService {
    const auth: AuthenticationManager
    var lastRefreshDate: Option<int>
    var nextRefreshDate: Option<int>
    var expirationDate: Option<int>
    var isRefreshing: bool
    var canSelfRefresh: bool
    var store: map<string, int>

    ghost predicate Valid()
      reads this
    {
      !isRefreshing
    }

    /** The initializer: persisted dates, then the helper's availability (`isAvailable()` of
        the helper, which the shipped stub answers with no). Registering the background task,
        asking for notification permission and scheduling are left out. */
    constructor (auth: AuthenticationManager, store: map<string, int>, helperAvailable: bool)
      ensures this.auth == auth && this.store == store
      ensures lastRefreshDate == Lookup(store, LastRefreshKey) && expirationDate == Lookup(store, ExpirationKey)
      ensures canSelfRefresh == helperAvailable && nextRefreshDate.None? && Valid()
    {
      this.auth := auth;
      this.store := store;
      nextRefreshDate := None;
      isRefreshing := false;
      new;
      LoadPersistedState();
      CheckSelfRefreshAvailability(helperAvailable);
    }

    method CheckSelfRefreshAvailability(helperAvailable: bool)
      modifies this
      ensures canSelfRefresh == helperAvailable
      ensures lastRefreshDate == old(lastRefreshDate) && expirationDate == old(expirationDate)
      ensures nextRefreshDate == old(nextRefreshDate) && isRefreshing == old(isRefreshing) && store == old(store)
    {
      canSelfRefresh := helperAvailable;
    }

    method LoadPersistedState()
      modifies this
      ensures lastRefreshDate == Lookup(store, LastRefreshKey) && expirationDate == Lookup(store, ExpirationKey)
      ensures store == old(store) && nextRefreshDate == old(nextRefreshDate)
      ensures isRefreshing == old(isRefreshing) && canSelfRefresh == old(canSelfRefresh)
    {
      lastRefreshDate := Lookup(store, LastRefreshKey);
      expirationDate := Lookup(store, ExpirationKey);
    }

    method PersistState()
      modifies this
      ensures store == Persist(old(store), lastRefreshDate, expirationDate)
      ensures lastRefreshDate == old(lastRefreshDate) && expirationDate == old(expirationDate)
      ensures nextRefreshDate == old(nextRefreshDate) && isRefreshing == old(isRefreshing) && canSelfRefresh == old(canSelfRefresh)
    {
      if lastRefreshDate.Some? {
        store := store[LastRefreshKey := lastRefreshDate.value];
      }
      if expirationDate.Some? {
        store := store[ExpirationKey := expirationDate.value];
      }
    }

    /** `scheduleExpirationWarning`, decision part: it looks at this service's own date. */
    function ExpirationWarning(now: int): (w: Warning)
      reads this
      ensures w == NoExpirationDate <==> expirationDate.None?
      ensures w.Scheduled? ==> now + w.secondsUntilWarning == expirationDate.value - WarningLead
      ensures w.NotifyNow? ==> (w.isExpired <==> expirationDate.value < now)
    {
      WarningFor(expirationDate, now)
    }

    /** The expiry the read-outs use: the authentication manager's date, else this one. */
    function EffectiveExpiration(): (e: Option<int>)
      reads this, auth
      ensures auth.certificateExpirationDate.Some? ==> e == auth.certificateExpirationDate
      ensures auth.certificateExpirationDate.None? ==> e == expirationDate
    {
      auth.certificateExpirationDate.OrElse(expirationDate)
    }

    /** `daysUntilExpiration()`: `calendarDays` is the calendar's day count from now to the
        effective expiry. */
    function DaysUntilExpiration(calendarDays: int): (days: Option<int>)
      reads this, auth
      ensures days.None? <==> EffectiveExpiration().None?
      ensures days.Some? ==> days.value == calendarDays
    {
      if EffectiveExpiration().None? then None else Some(calendarDays)
    }

    /** The device poll of step 6: probe, and while there is no answer and fewer than ten
        sleeps were made, sleep and probe again; then probe once more for the guard. */
    static method WaitForDevice(probes: seq<bool>) returns (attempts: nat, connected: bool)
      ensures attempts == SleepCount(probes) && attempts <= MaxConnectionAttempts
      ensures connected == Probe(probes, attempts + 1)
    {
      attempts := 0;
      while !Probe(probes, attempts) && attempts < MaxConnectionAttempts
        invariant attempts <= MaxConnectionAttempts
        invariant SleepCountFrom(probes, attempts) == SleepCount(probes)
        decreases MaxConnectionAttempts - attempts
      {
        attempts := attempts + 1;
      }
      connected := Probe(probes, attempts + 1);
    }

    /** Steps 5 to 10 once the guards have passed. */
    method RunSteps(env: RefreshEnv) returns (run: RefreshRun)
      requires Preflight(canSelfRefresh, auth.isAuthenticated, env).None?
      ensures run == ExpectedRefresh(canSelfRefresh, auth.isAuthenticated, auth.accountManager.team, auth.accountManager.session, env)
    {
      var calls: seq<Call> := [];
      if env.helperStatus != MinimuxerStub.Ready {
        var pairingPath := MinimuxerStub.DefaultPairingFilePath(env.documentsDir, env.existingFiles);
        if pairingPath.None? {
          return Fails(NoPairingFile, []);
        }
        var logPath := if env.documentsDir.Some? then Some(MinimuxerStub.AppendPathComponent(env.documentsDir.value, "minimuxer.log")) else None;
        calls := [InitializeHelper(pairingPath.value, logPath)];
        if !env.initializeSucceeds {
          return Fails(MinimuxerNotReady, calls);
        }
      }
      var attempts, connected := WaitForDevice(env.probes);
      calls := calls + PollCalls(attempts) + [TestConnection];
      if !connected {
        return Fails(MinimuxerNotReady, calls);
      }
      if auth.accountManager.team.None? || auth.accountManager.session.None? {
        return Fails(NotAuthenticated, calls);
      }
      var rest := ProfileSteps(env);
      run := RefreshRun(rest.result, calls + rest.calls);
    }

    /** `performRefresh`. Only a successful run records the new dates, in this service and in
        the authentication manager, persists them and re-plans the expiration warning; every
        failure leaves all of that as it was. `isRefreshing` is down again on every exit. */
    method PerformRefresh(env: RefreshEnv) returns (run: RefreshRun, notices: seq<Notice>)
      modifies this, auth
      ensures run == ExpectedRefresh(old(canSelfRefresh), old(auth.isAuthenticated),
                                     auth.accountManager.team, auth.accountManager.session, env)
      ensures run.result.Success? ==>
        lastRefreshDate == Some(env.now) && expirationDate == Some(run.result.value.expirationDate) &&
        auth.certificateExpirationDate == Some(run.result.value.expirationDate) &&
        store == Persist(old(store), lastRefreshDate, expirationDate) &&
        notices == WarningNotices(WarningFor(expirationDate, env.now))
      ensures run.result.Failure? ==>
        lastRefreshDate == old(lastRefreshDate) && expirationDate == old(expirationDate) &&
        auth.certificateExpirationDate == old(auth.certificateExpirationDate) && store == old(store) && notices == []
      ensures !isRefreshing && canSelfRefresh == old(canSelfRefresh) && nextRefreshDate == old(nextRefreshDate)
      ensures auth.isAuthenticated == old(auth.isAuthenticated) && auth.appleID == old(auth.appleID)
      ensures auth.isLoading == old(auth.isLoading) && auth.lastError == old(auth.lastError)
      ensures Valid()
    {
      isRefreshing := true;
      notices := [];
      var failed := Preflight(canSelfRefresh, auth.isAuthenticated, env);
      if failed.Some? {
        isRefreshing := false;
        return Fails(failed.value, []), [];
      }
      run := RunSteps(env);
      if run.result.Failure? {
        isRefreshing := false;
        return;
      }
      var newExpiration := run.result.value.expirationDate;
      lastRefreshDate := Some(env.now);
      expirationDate := Some(newExpiration);
      auth.certificateExpirationDate := Some(newExpiration);
      PersistState();
      notices := WarningNotices(ExpirationWarning(env.now));
      isRefreshing := false;
    }

    /** `manualRefresh`: refused outright without self-refresh (without raising `isRefreshing`);
        a successful refresh adds the success notice. */
    method ManualRefresh(env: RefreshEnv) returns (r: Outcome<Error>, notices: seq<Notice>)
      modifies this, auth
      ensures !old(canSelfRefresh) ==>
        r == Fail(Refresh(MinimuxerNotAvailable)) && notices == [] &&
        isRefreshing == old(isRefreshing) && lastRefreshDate == old(lastRefreshDate) &&
        expirationDate == old(expirationDate) && store == old(store) &&
        auth.certificateExpirationDate == old(auth.certificateExpirationDate)
      ensures old(canSelfRefresh) ==>
        var run := ExpectedRefresh(true, old(auth.isAuthenticated), auth.accountManager.team, auth.accountManager.session, env);
        !isRefreshing && (r.Pass? <==> run.result.Success?) &&
        (r.Fail? ==>
          r.error == run.result.error && notices == [] &&
          lastRefreshDate == old(lastRefreshDate) && expirationDate == old(expirationDate) &&
          auth.certificateExpirationDate == old(auth.certificateExpirationDate) && store == old(store)) &&
        (r.Pass? ==>
          lastRefreshDate == Some(env.now) && expirationDate == Some(run.result.value.expirationDate) &&
          auth.certificateExpirationDate == Some(run.result.value.expirationDate) &&
          store == Persist(old(store), lastRefreshDate, expirationDate) &&
          notices == WarningNotices(WarningFor(expirationDate, env.now)) + [RefreshSuccessNotice])
      ensures canSelfRefresh == old(canSelfRefresh) && nextRefreshDate == old(nextRefreshDate)
      ensures auth.isAuthenticated == old(auth.isAuthenticated) && auth.appleID == old(auth.appleID)
      ensures auth.isLoading == old(auth.isLoading) && auth.lastError == old(auth.lastError)
      ensures old(Valid()) ==> Valid()
    {
      if !canSelfRefresh {
        return Fail(Refresh(MinimuxerNotAvailable)), [];
      }
      var run, warnings := PerformRefresh(env);
      if run.result.Failure? {
        return Fail(run.result.error), [];
      }
      r := Pass;
      notices := warnings + [RefreshSuccessNotice];
    }

    /** `refreshOnLaunchIfNeeded`. `calendarDays` is the calendar's day count to the effective
        expiry. A failed automatic refresh is reported with the error's description. */
    method RefreshOnLaunchIfNeeded(calendarDays: int, env: RefreshEnv) returns (plan: LaunchPlan, notices: seq<Notice>)
      modifies this, auth
      ensures plan == LaunchDecision(old(DaysUntilExpiration(calendarDays)), old(canSelfRefresh))
      ensures plan == NothingToDo ==> notices == []
      ensures plan.NotifyExpiring? ==> notices == [ExpirationNotice(calendarDays < 0)]
      ensures plan != AutoRefresh ==>
        lastRefreshDate == old(lastRefreshDate) && expirationDate == old(expirationDate) &&
        store == old(store) && isRefreshing == old(isRefreshing) &&
        auth.certificateExpirationDate == old(auth.certificateExpirationDate)
      ensures plan == AutoRefresh ==>
        var run := ExpectedRefresh(true, old(auth.isAuthenticated), auth.accountManager.team, auth.accountManager.session, env);
        !isRefreshing &&
        (run.result.Failure? ==>
          notices == [RefreshFailureNotice(Description(run.result.error))] &&
          lastRefreshDate == old(lastRefreshDate) && expirationDate == old(expirationDate) &&
          auth.certificateExpirationDate == old(auth.certificateExpirationDate) && store == old(store)) &&
        (run.result.Success? ==>
          lastRefreshDate == Some(env.now) && expirationDate == Some(run.result.value.expirationDate) &&
          auth.certificateExpirationDate == Some(run.result.value.expirationDate) &&
          store == Persist(old(store), lastRefreshDate, expirationDate) &&
          notices == WarningNotices(WarningFor(expirationDate, env.now)))
      ensures canSelfRefresh == old(canSelfRefresh) && nextRefreshDate == old(nextRefreshDate)
      ensures auth.isAuthenticated == old(auth.isAuthenticated) && auth.appleID == old(auth.appleID)
      ensures auth.isLoading == old(auth.isLoading) && auth.lastError == old(auth.lastError)
      ensures old(Valid()) ==> Valid()
    {
      var days := DaysUntilExpiration(calendarDays);
      plan := LaunchDecision(days, canSelfRefresh);
      match plan
      case NothingToDo =>
        notices := [];
      case NotifyExpiring(expired) =>
        notices := [ExpirationNotice(expired)];
      case AutoRefresh =>
        var run, warnings := PerformRefresh(env);
        if run.result.Failure? {
          notices := [RefreshFailureNotice(Description(run.result.error))];
        } else {
          notices := warnings;
        }
    }
  }

  /** With the shipped helper stub self-refresh is never available, so a refresh can only fail,
      and does so before any other check. */
  lemma StubNeverRefreshes(authenticated: bool, team: Option<Team>, session: Option<Session>, env: RefreshEnv)
    ensures ExpectedRefresh(MinimuxerStub.IsAvailable(), authenticated, team, session, env) == Fails(MinimuxerNotAvailable, [])
  {
  }
}
