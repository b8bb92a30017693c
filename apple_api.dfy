/** The continuation wrappers of AltSignExtensions.swift around the callback-style `ALTAppleAPI`
    and `ALTSigner` calls. The remote call itself is foreign: what it passes to its completion
    handler is an input (`Reply`), and each wrapper turns that into the single value or error
    the awaiting caller sees. */
module AppleAPI {
  import opened Wrappers
  import opened Errors
  import opened Anisette

  datatype Account = Account(appleID: string, identifier: string)
  datatype Session = Session(dsid: string, authToken: string, anisetteData: AnisetteData)
  datatype Team = Team(identifier: string, name: string)
  datatype Certificate = Certificate(serialNumber: string, machineName: string)
  datatype Device = Device(name: string, identifier: string)
  datatype AppID = AppID(identifier: string, name: string, bundleIdentifier: string)
  /** `expirationDate` in seconds since the epoch. */
  datatype ProvisioningProfile = ProvisioningProfile(identifier: string, data: seq<bv8>, expirationDate: int)

  /** What a completion handler of the shape `(value?, error?)` was called with. */
  datatype Reply<+T> = Reply(value: Option<T>, error: Option<Error>)

  /** What a completion handler of the shape `(success, error?)` was called with. */
  datatype StatusReply = StatusReply(success: bool, error: Option<Error>)

  /** The `AltSignError` case a wrapper puts around the handler's error. */
  datatype Wrapping = AsNetworkError | AsAuthenticationFailed | AsCertificateFailed | AsProvisioningFailed | AsSigningFailed

  function Wrap(w: Wrapping, e: Error): Error {
    match w
    case AsNetworkError => AltSign(NetworkError(e))
    case AsAuthenticationFailed => AltSign(AuthenticationFailed(Description(e)))
    case AsCertificateFailed => AltSign(CertificateFailed(Description(e)))
    case AsProvisioningFailed => AltSign(ProvisioningFailed(Description(e)))
    case AsSigningFailed => AltSign(SigningFailed(Description(e)))
  }

  /** The shared shape of the value wrappers: an error wins over a value; with neither, the
      wrapper's own fallback result. */
  function Resolve<T>(reply: Reply<T>, w: Wrapping, neither: Result<T, Error>): (r: Result<T, Error>)
    ensures reply.error.Some? ==> r == Failure(Wrap(w, reply.error.value))
    ensures r.Success? <==> reply.error.None? && (reply.value.Some? || neither.Success?)
    ensures r.Success? && reply.value.Some? ==> r.value == reply.value.value
    ensures reply.error.None? && reply.value.None? ==> r == neither
  {
    match reply.error
    case Some(e) => Failure(Wrap(w, e))
    case None =>
      match reply.value
      case Some(v) => Success(v)
      case None => neither
  }

  /** The shared shape of the status wrappers. */
  function ResolveStatus(reply: StatusReply, w: Wrapping, unsuccessful: Error): (r: Outcome<Error>)
    ensures reply.error.Some? ==> r == Fail(Wrap(w, reply.error.value))
    ensures reply.error.None? && !reply.success ==> r == Fail(unsuccessful)
    ensures r.Pass? <==> reply.error.None? && reply.success
  {
    match reply.error
    case Some(e) => Fail(Wrap(w, e))
    case None => if reply.success then Pass else Fail(unsuccessful)
  }

  /** `authenticate(appleID:password:anisetteData:twoFactorHandler:)`: success needs both an
      account and a session; any error, or a missing half, is `authenticationFailed`. */
  function Authenticate(account: Option<Account>, session: Option<Session>, error: Option<Error>)
    : (r: Result<(Account, Session), Error>)
    ensures error.Some? ==> r == Failure(AltSign(AuthenticationFailed(Description(error.value))))
    ensures r.Success? <==> error.None? && account.Some? && session.Some?
    ensures r.Success? ==> r.value == (account.value, session.value)
    ensures error.None? && !(account.Some? && session.Some?) ==>
      r == Failure(AltSign(AuthenticationFailed("Unknown authentication error")))
  {
    if error.Some? then Failure(AltSign(AuthenticationFailed(Description(error.value))))
    else if account.Some? && session.Some? then Success((account.value, session.value))
    else Failure(AltSign(AuthenticationFailed("Unknown authentication error")))
  }

  /** The verification code the handler-less `authenticate` hands to AltSign's 2FA callback:
      none, so a login that needs 2FA fails. */
  function HandlerlessVerificationCode(): (code: Option<string>)
    ensures code.None?
  {
    None
  }

  function FetchTeams(reply: Reply<seq<Team>>): (r: Result<seq<Team>, Error>)
    ensures reply.error.Some? ==> r == Failure(AltSign(NetworkError(reply.error.value)))
    ensures reply.error.None? && reply.value.None? ==> r == Failure(AltSign(NoTeamsFound))
    ensures r.Success? <==> reply.error.None? && reply.value.Some?
    ensures r.Success? ==> r.value == reply.value.value
  {
    Resolve(reply, AsNetworkError, Failure(AltSign(NoTeamsFound)))
  }

  function FetchCertificates(reply: Reply<seq<Certificate>>): (r: Result<seq<Certificate>, Error>)
    ensures reply.error.Some? ==> r == Failure(AltSign(NetworkError(reply.error.value)))
    ensures reply.error.None? ==> r == Success(reply.value.OrElse(Some([])).value)
  {
    Resolve(reply, AsNetworkError, Success([]))
  }

  function AddCertificate(reply: Reply<Certificate>): (r: Result<Certificate, Error>)
    ensures reply.error.Some? ==> r == Failure(AltSign(CertificateFailed(Description(reply.error.value))))
    ensures reply.error.None? && reply.value.None? ==> r == Failure(AltSign(CertificateFailed("Unknown error")))
    ensures r.Success? <==> reply.error.None? && reply.value.Some?
    ensures r.Success? ==> r.value == reply.value.value
  {
    Resolve(reply, AsCertificateFailed, Failure(AltSign(CertificateFailed("Unknown error"))))
  }

  function RevokeCertificate(reply: StatusReply): (r: Outcome<Error>)
    ensures reply.error.Some? ==> r == Fail(AltSign(CertificateFailed(Description(reply.error.value))))
    ensures reply.error.None? && !reply.success ==> r == Fail(AltSign(CertificateFailed("Failed to revoke certificate")))
    ensures r.Pass? <==> reply.error.None? && reply.success
  {
    ResolveStatus(reply, AsCertificateFailed, AltSign(CertificateFailed("Failed to revoke certificate")))
  }

  function FetchDevices(reply: Reply<seq<Device>>): (r: Result<seq<Device>, Error>)
    ensures reply.error.Some? ==> r == Failure(AltSign(NetworkError(reply.error.value)))
    ensures reply.error.None? ==> r == Success(reply.value.OrElse(Some([])).value)
  {
    Resolve(reply, AsNetworkError, Success([]))
  }

  function RegisterDevice(reply: Reply<Device>): (r: Result<Device, Error>)
    ensures reply.error.Some? ==> r == Failure(AltSign(NetworkError(reply.error.value)))
    ensures reply.error.None? && reply.value.None? ==> r == Failure(AltSign(ProvisioningFailed("Failed to register device")))
    ensures r.Success? <==> reply.error.None? && reply.value.Some?
    ensures r.Success? ==> r.value == reply.value.value
  {
    Resolve(reply, AsNetworkError, Failure(AltSign(ProvisioningFailed("Failed to register device"))))
  }

  function FetchAppIDs(reply: Reply<seq<AppID>>): (r: Result<seq<AppID>, Error>)
    ensures reply.error.Some? ==> r == Failure(AltSign(NetworkError(reply.error.value)))
    ensures reply.error.None? ==> r == Success(reply.value.OrElse(Some([])).value)
  {
    Resolve(reply, AsNetworkError, Success([]))
  }

  function AddAppID(reply: Reply<AppID>): (r: Result<AppID, Error>)
    ensures reply.error.Some? ==> r == Failure(AltSign(ProvisioningFailed(Description(reply.error.value))))
    ensures reply.error.None? && reply.value.None? ==> r == Failure(AltSign(ProvisioningFailed("Failed to create App ID")))
    ensures r.Success? <==> reply.error.None? && reply.value.Some?
    ensures r.Success? ==> r.value == reply.value.value
  {
    Resolve(reply, AsProvisioningFailed, Failure(AltSign(ProvisioningFailed("Failed to create App ID"))))
  }

  function FetchProvisioningProfile(reply: Reply<ProvisioningProfile>): (r: Result<ProvisioningProfile, Error>)
    ensures reply.error.Some? ==> r == Failure(AltSign(ProvisioningFailed(Description(reply.error.value))))
    ensures reply.error.None? && reply.value.None? ==>
      r == Failure(AltSign(ProvisioningFailed("Failed to fetch provisioning profile")))
    ensures r.Success? <==> reply.error.None? && reply.value.Some?
    ensures r.Success? ==> r.value == reply.value.value
  {
    Resolve(reply, AsProvisioningFailed, Failure(AltSign(ProvisioningFailed("Failed to fetch provisioning profile"))))
  }

  /** `ALTSigner.signApp(at:provisioningProfiles:)`. */
  function SignApp(reply: StatusReply): (r: Outcome<Error>)
    ensures reply.error.Some? ==> r == Fail(AltSign(SigningFailed(Description(reply.error.value))))
    ensures reply.error.None? && !reply.success ==> r == Fail(AltSign(SigningFailed("Unknown signing error")))
    ensures r.Pass? <==> reply.error.None? && reply.success
  {
    ResolveStatus(reply, AsSigningFailed, AltSign(SigningFailed("Unknown signing error")))
  }
}
