/** AuthenticationManager.swift: the published sign-in state the interface observes. It
    drives the account manager and mirrors the result in a few flags; the certificate manager it
    also consults is outside the model, so what that manager reports is an input. */
module Auth {
  import opened Wrappers
  import opened Errors
  import opened Anisette
  import opened Accounts

  /** What `HIAHCertificateManager` reports: the outcome of `fetchCertificate()`, the answer of
      `needsRefresh()`, and its `expirationDate` (seconds) once the call is over. */
  datatype CertificateReplies = CertificateReplies(fetchError: Option<Error>, needsRefresh: bool, expirationDate: Option<int>)

  const SuccessNotification: string := "HIAHAuthenticationSuccess"

  class AuthenticationManager {
    const accountManager: AccountManager
    var isAuthenticated: bool
    var appleID: Option<string>
    var certificateExpirationDate: Option<int>
    var isLoading: bool
    var lastError: Option<Error>

    /** Between calls nothing is loading, and an Apple ID is shown exactly when signed in. */
    ghost predicate Valid()
      reads this
    {
      !isLoading && (isAuthenticated <==> appleID.Some?)
    }

    /** The initializer runs `checkExistingAuthentication` against the account manager. */
    constructor (accountManager: AccountManager, certExpiry: Option<int>)
      ensures this.accountManager == accountManager
      ensures isAuthenticated == accountManager.IsAuthenticated()
      ensures isAuthenticated ==> appleID == Some(accountManager.account.value.appleID) && certificateExpirationDate == certExpiry
      ensures !isAuthenticated ==> appleID.None? && certificateExpirationDate.None?
      ensures lastError.None? && Valid()
    {
      this.accountManager := accountManager;
      isLoading := false;
      lastError := None;
      new;
      CheckExistingAuthentication(certExpiry);
    }

    /** `authenticate(appleID:password:)`: login, then the certificate, then the published state.
        `lastError` is cleared on entry and set to the error of a failing step. */
    method Authenticate(appleID: string, password: string, o: LoginReplies, cert: CertificateReplies)
      returns (r: Outcome<Error>, posted: Option<string>)
      requires |o.anisette| == |AnisetteServers|
      modifies this, accountManager
      ensures !isLoading
      ensures r.Pass? <==> ExpectedLogin(o).Success? && cert.fetchError.None?
      ensures ExpectedLogin(o).Failure? ==> r == Fail(ExpectedLogin(o).error)
      ensures ExpectedLogin(o).Success? && cert.fetchError.Some? ==> r == Fail(cert.fetchError.value)
      ensures r.Pass? ==>
        this.appleID == Some(ExpectedLogin(o).value.0.appleID) && isAuthenticated &&
        certificateExpirationDate == cert.expirationDate && lastError.None? &&
        posted == Some(SuccessNotification)
      ensures r.Fail? ==>
        lastError == Some(r.error) && posted.None? && this.appleID == old(this.appleID) &&
        isAuthenticated == old(isAuthenticated) && certificateExpirationDate == old(certificateExpirationDate)
      ensures ExpectedLogin(o).Success? ==>
        var (acct, sess, tm) := ExpectedLogin(o).value;
        accountManager.account == Some(acct) && accountManager.session == Some(sess) && accountManager.team == Some(tm) &&
        accountManager.store == SaveStore(old(accountManager.store), appleID, sess.dsid, sess.authToken) &&
        accountManager.IsAuthenticated() && accountManager.Valid()
      ensures ExpectedLogin(o).Failure? ==>
        accountManager.account == old(accountManager.account) && accountManager.session == old(accountManager.session) &&
        accountManager.team == old(accountManager.team) && accountManager.store == old(accountManager.store)
      ensures accountManager.twoFactorHandlerSet == old(accountManager.twoFactorHandlerSet)
      ensures old(Valid()) ==> Valid()
    {
      isLoading := true;
      lastError := None;
      posted := None;
      var login := accountManager.Login(appleID, password, o);
      if login.Failure? {
        lastError := Some(login.error);
        isLoading := false;
        return Fail(login.error), None;
      }
      if cert.fetchError.Some? {
        lastError := cert.fetchError;
        isLoading := false;
        return Fail(cert.fetchError.value), None;
      }
      this.appleID := Some(login.value.appleID);
      isAuthenticated := true;
      certificateExpirationDate := cert.expirationDate;
      posted := Some(SuccessNotification);
      isLoading := false;
      r := Pass;
    }

    /** `signOut`: the account manager logs out (posting its own sign-out notification), the
        published state is reset and the sign-out notification is posted again. */
    method SignOut() returns (posted: seq<string>)
      modifies this, accountManager
      ensures this.appleID.None? && !isAuthenticated && certificateExpirationDate.None?
      ensures accountManager.account.None? && accountManager.session.None? && accountManager.team.None?
      ensures accountManager.store == ClearStore(old(accountManager.store))
      ensures isLoading == old(isLoading) && lastError == old(lastError)
      ensures posted == [SignOutNotification, SignOutNotification]
      ensures accountManager.twoFactorHandlerSet == old(accountManager.twoFactorHandlerSet)
      ensures old(Valid()) ==> Valid()
    {
      var first := accountManager.Logout();
      this.appleID := None;
      isAuthenticated := false;
      certificateExpirationDate := None;
      posted := [first, SignOutNotification];
    }

    /** `refresh()`. The not-logged-in guard comes before `isLoading` is raised and before the
        error-recording block, so that failure changes nothing at all. */
    method Refresh(anisette: seq<ServerResponse>, cert: CertificateReplies) returns (r: Outcome<Error>)
      requires |anisette| == |AnisetteServers|
      modifies this, accountManager
      ensures !old(accountManager.IsAuthenticated()) ==>
        r == Fail(Authentication(NotLoggedIn)) &&
        isLoading == old(isLoading) && lastError == old(lastError) &&
        certificateExpirationDate == old(certificateExpirationDate) &&
        accountManager.session == old(accountManager.session)
      ensures old(accountManager.IsAuthenticated()) ==>
        (!isLoading && (r.Pass? <==> ExpectedFetch(anisette).Success? && !(cert.needsRefresh && cert.fetchError.Some?)))
      ensures old(accountManager.IsAuthenticated()) && ExpectedFetch(anisette).Failure? ==>
        r == Fail(ExpectedFetch(anisette).error)
      ensures old(accountManager.IsAuthenticated()) && ExpectedFetch(anisette).Success? && cert.needsRefresh && cert.fetchError.Some? ==>
        r == Fail(cert.fetchError.value)
      ensures old(accountManager.IsAuthenticated()) && r.Fail? ==>
        lastError == Some(r.error) && certificateExpirationDate == old(certificateExpirationDate)
      ensures r.Pass? ==> certificateExpirationDate == cert.expirationDate && lastError == old(lastError)
      ensures r.Pass? ==> accountManager.session == Some(old(accountManager.session).value.(anisetteData := ExpectedFetch(anisette).value))
      ensures old(accountManager.IsAuthenticated()) && ExpectedFetch(anisette).Success? ==>
        accountManager.session == Some(old(accountManager.session).value.(anisetteData := ExpectedFetch(anisette).value))
      ensures ExpectedFetch(anisette).Failure? ==> accountManager.session == old(accountManager.session)
      ensures isAuthenticated == old(isAuthenticated) && this.appleID == old(this.appleID)
      ensures accountManager.account == old(accountManager.account) && accountManager.team == old(accountManager.team)
      ensures accountManager.store == old(accountManager.store)
      ensures accountManager.twoFactorHandlerSet == old(accountManager.twoFactorHandlerSet)
      ensures old(Valid()) ==> Valid()
    {
      if !accountManager.IsAuthenticated() {
        return Fail(Authentication(NotLoggedIn));
      }
      isLoading := true;
      var refreshed := accountManager.RefreshSession(anisette);
      if refreshed.Fail? {
        lastError := Some(refreshed.error);
        isLoading := false;
        return refreshed;
      }
      if cert.needsRefresh && cert.fetchError.Some? {
        lastError := cert.fetchError;
        isLoading := false;
        return Fail(cert.fetchError.value);
      }
      certificateExpirationDate := cert.expirationDate;
      isLoading := false;
      r := Pass;
    }

    /** `daysUntilExpiration`: `calendarDays` is the calendar's whole-day count from now to the
        stored expiration date. */
    function DaysUntilExpiration(calendarDays: int): (days: Option<int>)
      reads this
      ensures days.None? <==> certificateExpirationDate.None?
      ensures days.Some? ==> days.value == calendarDays
    {
      if certificateExpirationDate.None? then None else Some(calendarDays)
    }

    /** `checkExistingAuthentication`: mirror the account manager, or show nobody signed in.
        The "expiring soon" message for fewer than two days is a log line only. */
    method CheckExistingAuthentication(certExpiry: Option<int>)
      modifies this
      ensures isAuthenticated == accountManager.IsAuthenticated()
      ensures isAuthenticated ==> appleID == Some(accountManager.account.value.appleID) && certificateExpirationDate == certExpiry
      ensures !isAuthenticated ==> appleID.None? && certificateExpirationDate.None?
      ensures isLoading == old(isLoading) && lastError == old(lastError)
      ensures old(isLoading) == false ==> Valid()
    {
      if accountManager.IsAuthenticated() {
        appleID := Some(accountManager.account.value.appleID);
        isAuthenticated := true;
        certificateExpirationDate := certExpiry;
      } else {
        appleID := None;
        isAuthenticated := false;
        certificateExpirationDate := None;
      }
    }
  }
}
