/** HIAHAccountManager.swift: the signed-in Apple Account. The in-memory triple (account, session,
    team) says who is signed in; two ordinary-storage strings and one keychain entry carry the
    session across launches. Remote answers (anisette servers, Apple's authentication and team
    list) are inputs. */
module Accounts {
  import opened Wrappers
  import opened Errors
  import opened Anisette
  import opened AppleAPI

  const AppleIDKey: string := "HIAH_Account_AppleID"
  const DSIDKey: string := "HIAH_Account_DSID"
  const KeychainService: string := "com.aspauldingcode.HIAHDesktop.account"

  /** A generic-password keychain entry is addressed by its service and account attributes. */
  datatype KeychainItem = KeychainItem(service: string, account: string)

  const TokenItem: KeychainItem := KeychainItem(KeychainService, "authToken")

  /** The persistent state the manager touches: `UserDefaults` strings and keychain entries
      (the token is stored as UTF-8 and read back as UTF-8, so it is kept here as the string). */
  datatype Store = Store(defaults: map<string, string>, keychain: map<KeychainItem, string>)

  datatype SessionData = SessionData(appleID: string, dsid: string, authToken: string)

  /** `saveSession`: both ordinary keys set, the keychain entry deleted and added again. */
  function SaveStore(s: Store, appleID: string, dsid: string, authToken: string): Store {
    Store(s.defaults[AppleIDKey := appleID][DSIDKey := dsid], s.keychain[TokenItem := authToken])
  }

  /** `loadSession`: a session only when both ordinary keys and the token are all present. */
  function LoadStore(s: Store): (r: Option<SessionData>)
    ensures r.Some? <==> AppleIDKey in s.defaults && DSIDKey in s.defaults && TokenItem in s.keychain
    ensures r.Some? ==>
      r.value == SessionData(s.defaults[AppleIDKey], s.defaults[DSIDKey], s.keychain[TokenItem])
  {
    if AppleIDKey !in s.defaults || DSIDKey !in s.defaults then None
    else if TokenItem !in s.keychain then None
    else Some(SessionData(s.defaults[AppleIDKey], s.defaults[DSIDKey], s.keychain[TokenItem]))
  }

  /** `clearSession`: both ordinary keys and the keychain entry removed. */
  function ClearStore(s: Store): Store {
    Store(s.defaults - {AppleIDKey, DSIDKey}, s.keychain - {TokenItem})
  }

  lemma SaveThenLoad(s: Store, appleID: string, dsid: string, authToken: string)
    ensures LoadStore(SaveStore(s, appleID, dsid, authToken)) == Some(SessionData(appleID, dsid, authToken))
  {
    assert AppleIDKey != DSIDKey;
  }

  lemma ClearThenLoad(s: Store)
    ensures LoadStore(ClearStore(s)) == None
  {
  }

  lemma ClearIdempotent(s: Store)
    ensures ClearStore(ClearStore(s)) == ClearStore(s)
  {
  }

  /** Saving and clearing leave every other ordinary key and keychain entry alone. */
  lemma StoreFrame(s: Store, appleID: string, dsid: string, authToken: string, k: string, item: KeychainItem)
    requires k != AppleIDKey && k != DSIDKey && item != TokenItem
    ensures SaveStore(s, appleID, dsid, authToken).defaults.Items >= (s.defaults - {AppleIDKey, DSIDKey}).Items
    ensures (k in ClearStore(s).defaults <==> k in s.defaults) && (k in s.defaults ==> ClearStore(s).defaults[k] == s.defaults[k])
    ensures (item in SaveStore(s, appleID, dsid, authToken).keychain <==> item in s.keychain)
    ensures item in s.keychain ==> SaveStore(s, appleID, dsid, authToken).keychain[item] == s.keychain[item]
    ensures (item in ClearStore(s).keychain <==> item in s.keychain) &&
      (item in s.keychain ==> ClearStore(s).keychain[item] == s.keychain[item])
  {
  }

  /** What `authenticate(appleID:password:anisetteData:twoFactorHandler:)` called back with. */
  datatype AuthReply = AuthReply(account: Option<Account>, session: Option<Session>, error: Option<Error>)

  /** The remote answers one `login` sees: one response per anisette server, then Apple's. */
  datatype LoginReplies = LoginReplies(anisette: seq<ServerResponse>, auth: AuthReply, teams: Reply<seq<Team>>)

  /** What `login` yields: the first error along the way, or the account, its session and the
      first team. */
  function ExpectedLogin(o: LoginReplies): Result<(Account, Session, Team), Error>
    requires |o.anisette| == |AnisetteServers|
  {
    match ExpectedFetch(o.anisette)
    case Failure(e) => Failure(e)
    case Success(_) =>
      match AppleAPI.Authenticate(o.auth.account, o.auth.session, o.auth.error)
      case Failure(e) => Failure(e)
      case Success(signedIn) =>
        match FetchTeams(o.teams)
        case Failure(e) => Failure(e)
        case Success(teams) =>
          if teams == [] then Failure(AltSign(NoTeamsFound))
          else Success((signedIn.0, signedIn.1, teams[0]))
  }

  /** Login succeeds exactly when every step does and Apple lists at least one team; the team
      taken is the first, and an empty list is `noTeamsFound`. */
  lemma LoginSuccess(o: LoginReplies)
    requires |o.anisette| == |AnisetteServers|
    ensures ExpectedLogin(o).Success? <==>
      ExpectedFetch(o.anisette).Success? && o.auth.error.None? && o.auth.account.Some? &&
      o.auth.session.Some? && o.teams.error.None? && o.teams.value.Some? && o.teams.value.value != []
    ensures ExpectedLogin(o).Success? ==>
      ExpectedLogin(o).value == (o.auth.account.value, o.auth.session.value, o.teams.value.value[0])
    ensures (ExpectedFetch(o.anisette).Success? && o.auth.error.None? && o.auth.account.Some? &&
             o.auth.session.Some? && o.teams.error.None? && o.teams.value == Some([])) ==>
      ExpectedLogin(o) == Failure(AltSign(NoTeamsFound))
  {
  }

  /** An anisette failure ends the login before Apple is contacted, with the anisette error. */
  lemma LoginAnisetteFirst(o: LoginReplies)
    requires |o.anisette| == |AnisetteServers|
    ensures ExpectedFetch(o.anisette).Failure? ==> ExpectedLogin(o) == Failure(ExpectedFetch(o.anisette).error)
  {
  }

  /** What the request for a 2FA code turns into. */
  datatype TwoFactorDelivery = PassedToHandler | PostedNotification(name: string)

  const Requires2FANotification: string := "HIAHRequires2FA"
  const SignOutNotification: string := "HIAHAuthenticationSignOut"

  /** What `restoreSession` saw at its first failing step, or what it restored. */
  datatype RestoreOutcome =
    | NoSavedSession
    | AnisetteUnavailable
    | SessionInvalid(error: Error)
    | NoTeams
    | Restored(account: Account, session: Session, team: Team)

  datatype RestoreReplies = RestoreReplies(anisette: seq<ServerResponse>, teams: Reply<seq<Team>>)

  /** `restoreSession`'s decision: the saved credentials get fresh anisette data and are
      accepted only if Apple then lists at least one team. */
  function RestoreDecision(saved: Option<SessionData>, o: RestoreReplies): RestoreOutcome
    requires |o.anisette| == |AnisetteServers|
  {
    match saved
    case None => NoSavedSession
    case Some(data) =>
      match ExpectedFetch(o.anisette)
      case Failure(_) => AnisetteUnavailable
      case Success(anisette) =>
        var session := Session(data.dsid, data.authToken, anisette);
        var account := Account(data.appleID, data.dsid);
        match FetchTeams(o.teams)
        case Failure(e) => SessionInvalid(e)
        case Success(teams) => if teams == [] then NoTeams else Restored(account, session, teams[0])
  }

  /** A restored session is the saved one: same Apple ID, DSID and token, the account's
      identifier is the DSID, and the anisette data is the freshly fetched one. */
  lemma RestoreKeepsSavedCredentials(saved: Option<SessionData>, o: RestoreReplies)
    requires |o.anisette| == |AnisetteServers|
    ensures RestoreDecision(saved, o).Restored? ==>
      var r := RestoreDecision(saved, o);
      saved.Some? && r.account == Account(saved.value.appleID, saved.value.dsid) &&
      r.session.dsid == saved.value.dsid && r.session.authToken == saved.value.authToken &&
      ExpectedFetch(o.anisette) == Success(r.session.anisetteData) &&
      o.teams.value.Some? && r.team == o.teams.value.value[0]
    ensures RestoreDecision(saved, o) == NoSavedSession <==> saved.None?
    ensures RestoreDecision(saved, o) == AnisetteUnavailable <==> saved.Some? && ExpectedFetch(o.anisette).Failure?
  {
  }

  class AccountManager {
    var account: Option<Account>
    var team: Option<Team>
    var session: Option<Session>
    var twoFactorHandlerSet: bool
    var store: Store

    /** Signed in means all three of account, session and team are known. */
    ghost predicate Valid()
      reads this
    {
      account.Some? == session.Some? && session.Some? == team.Some?
    }

    predicate IsAuthenticated()
      reads this
      ensures IsAuthenticated() ==> account.Some? && session.Some?
      ensures Valid() ==> (IsAuthenticated() <==> team.Some?)
    {
      account.Some? && session.Some?
    }

    /** `loadSession`. */
    function LoadSession(): (r: Option<SessionData>)
      reads this
      ensures r.Some? <==> AppleIDKey in store.defaults && DSIDKey in store.defaults && TokenItem in store.keychain
      ensures r.Some? ==> r.value.appleID == store.defaults[AppleIDKey] && r.value.authToken == store.keychain[TokenItem]
    {
      LoadStore(store)
    }

    /** The start-up `restoreSession` runs as a separate task; it is `RestoreSession` here. */
    constructor (store: Store)
      ensures Valid() && account.None? && team.None? && session.None?
      ensures !twoFactorHandlerSet && this.store == store
    {
      account := None;
      team := None;
      session := None;
      twoFactorHandlerSet := false;
      this.store := store;
    }

    method SetTwoFactorHandler(isSet: bool)
      modifies this
      ensures twoFactorHandlerSet == isSet
      ensures account == old(account) && team == old(team) && session == old(session) && store == old(store)
    {
      twoFactorHandlerSet := isSet;
    }

    /** Where login sends Apple's request for a verification code. */
    function TwoFactorRoute(): (d: TwoFactorDelivery)
      reads this
      ensures d == PassedToHandler <==> twoFactorHandlerSet
      ensures !twoFactorHandlerSet ==> d == PostedNotification(Requires2FANotification)
    {
      if twoFactorHandlerSet then PassedToHandler else PostedNotification(Requires2FANotification)
    }

    method SaveSession(appleID: string, dsid: string, authToken: string)
      modifies this
      ensures store == SaveStore(old(store), appleID, dsid, authToken)
      ensures LoadSession() == Some(SessionData(appleID, dsid, authToken))
      ensures account == old(account) && team == old(team) && session == old(session)
      ensures twoFactorHandlerSet == old(twoFactorHandlerSet)
    {
      store := SaveStore(store, appleID, dsid, authToken);
      SaveThenLoad(old(store), appleID, dsid, authToken);
    }

    method ClearSession()
      modifies this
      ensures store == ClearStore(old(store))
      ensures LoadSession() == None
      ensures account == old(account) && team == old(team) && session == old(session)
      ensures twoFactorHandlerSet == old(twoFactorHandlerSet)
    {
      store := ClearStore(store);
    }

    /** `login(appleID:password:)`. The Apple ID typed in is the one saved, next to the
        session's DSID and token. */
    method Login(appleID: string, password: string, o: LoginReplies) returns (r: Result<Account, Error>)
      requires |o.anisette| == |AnisetteServers|
      modifies this
      ensures r.Success? <==> ExpectedLogin(o).Success?
      ensures r.Success? ==>
        var (acct, sess, tm) := ExpectedLogin(o).value;
        r.value == acct && account == Some(acct) && session == Some(sess) && team == Some(tm) &&
        store == SaveStore(old(store), appleID, sess.dsid, sess.authToken) && Valid() && IsAuthenticated()
      ensures r.Failure? ==>
        r.error == ExpectedLogin(o).error &&
        account == old(account) && team == old(team) && session == old(session) && store == old(store)
      ensures twoFactorHandlerSet == old(twoFactorHandlerSet)
    {
      var fetched := FetchFromServer(o.anisette);
      if fetched.Failure? {
        return Failure(fetched.error);
      }
      var signedIn := AppleAPI.Authenticate(o.auth.account, o.auth.session, o.auth.error);
      if signedIn.Failure? {
        return Failure(signedIn.error);
      }
      var teams := FetchTeams(o.teams);
      if teams.Failure? {
        return Failure(teams.error);
      }
      if teams.value == [] {
        return Failure(AltSign(NoTeamsFound));
      }
      account := Some(signedIn.value.0);
      session := Some(signedIn.value.1);
      team := Some(teams.value[0]);
      SaveSession(appleID, signedIn.value.1.dsid, signedIn.value.1.authToken);
      r := Success(signedIn.value.0);
    }

    /** `logout`: storage cleared, the triple reset, and the sign-out notification named. */
    method Logout() returns (posted: string)
      modifies this
      ensures store == ClearStore(old(store)) && LoadSession() == None
      ensures account.None? && team.None? && session.None? && Valid() && !IsAuthenticated()
      ensures twoFactorHandlerSet == old(twoFactorHandlerSet)
      ensures posted == SignOutNotification
    {
      ClearSession();
      account := None;
      session := None;
      team := None;
      posted := SignOutNotification;
    }

    /** `restoreSession`. A missing session or unreachable anisette servers change nothing; a
        team-list error or an empty team list clears the stored session and leaves the
        in-memory triple as it was; otherwise the triple is set and storage is left alone. */
    method RestoreSession(o: RestoreReplies) returns (outcome: RestoreOutcome)
      requires |o.anisette| == |AnisetteServers|
      modifies this
      ensures outcome == RestoreDecision(LoadStore(old(store)), o)
      ensures outcome.Restored? ==>
        account == Some(outcome.account) && session == Some(outcome.session) &&
        team == Some(outcome.team) && store == old(store)
      ensures outcome.SessionInvalid? || outcome == NoTeams ==>
        store == ClearStore(old(store)) && LoadSession() == None
      ensures !outcome.Restored? ==> account == old(account) && team == old(team) && session == old(session)
      ensures outcome == NoSavedSession || outcome == AnisetteUnavailable ==> store == old(store)
      ensures old(Valid()) ==> Valid()
      ensures twoFactorHandlerSet == old(twoFactorHandlerSet)
    {
      var saved := LoadSession();
      if saved.None? {
        return NoSavedSession;
      }
      var fetched := FetchFromServer(o.anisette);
      if fetched.Failure? {
        return AnisetteUnavailable;
      }
      var restoredSession := Session(saved.value.dsid, saved.value.authToken, fetched.value);
      var restoredAccount := Account(saved.value.appleID, saved.value.dsid);
      var teams := FetchTeams(o.teams);
      if teams.Failure? {
        ClearSession();
        return SessionInvalid(teams.error);
      }
      if teams.value == [] {
        ClearSession();
        return NoTeams;
      }
      account := Some(restoredAccount);
      session := Some(restoredSession);
      team := Some(teams.value[0]);
      outcome := Restored(restoredAccount, restoredSession, teams.value[0]);
    }

    /** `refreshSession`: only the session's anisette data is replaced. */
    method RefreshSession(anisette: seq<ServerResponse>) returns (r: Outcome<Error>)
      requires |anisette| == |AnisetteServers|
      modifies this
      ensures !old(IsAuthenticated()) ==> r == Fail(AltSign(AuthenticationFailed("Not logged in")))
      ensures old(IsAuthenticated()) && ExpectedFetch(anisette).Failure? ==> r == Fail(ExpectedFetch(anisette).error)
      ensures r.Pass? <==> old(IsAuthenticated()) && ExpectedFetch(anisette).Success?
      ensures r.Pass? ==> session == Some(old(session).value.(anisetteData := ExpectedFetch(anisette).value))
      ensures r.Fail? ==> session == old(session)
      ensures account == old(account) && team == old(team) && store == old(store)
      ensures twoFactorHandlerSet == old(twoFactorHandlerSet)
    {
      if account.None? || session.None? {
        return Fail(AltSign(AuthenticationFailed("Not logged in")));
      }
      var fetched := FetchFromServer(anisette);
      if fetched.Failure? {
        return Fail(fetched.error);
      }
      session := Some(session.value.(anisetteData := fetched.value));
      r := Pass;
    }
  }
}
