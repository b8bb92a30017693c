/** The error values that flow through the login window. Swift's `Error` is an open existential;
    here it is the closed union of the enums the core throws and the two foreign kinds it inspects
    (`URLError` from the network stack and `NSError` from the local helper). */
module Errors {

  /** The `URLError.Code`s the anisette fetch distinguishes; every other code is `OtherURLCode`. */
  datatype URLErrorCode = TimedOut | NetworkConnectionLost | OtherURLCode(raw: int)

  datatype Error =
    | URLError(urlCode: URLErrorCode, description: string)
    | NSError(domain: string, code: int, description: string)
    | AltSign(altSign: AltSignError)
    | Refresh(refresh: RefreshError)
    | Authentication(authentication: AuthenticationError)

  /** AltSignExtensions.swift, `AltSignError`. */
  datatype AltSignError =
    | AuthenticationFailed(message: string)
    | NoTeamsFound
    | CertificateFailed(message: string)
    | ProvisioningFailed(message: string)
    | SigningFailed(message: string)
    | InvalidAnisetteData
    | AnisetteServerTimeout
    | NetworkError(cause: Error)

  /** RefreshService.swift, `RefreshError`. */
  datatype RefreshError =
    | NotAuthenticated
    | VPNNotConnected
    | MinimuxerNotAvailable
    | MinimuxerNotReady
    | ProfileFetchFailed(cause: Error)
    | ProfileInstallFailed(cause: Error)
    | NoPairingFile

  /** AuthenticationManager.swift, `AuthenticationError`. */
  datatype AuthenticationError =
    | InvalidCredentials
    | NetworkUnavailable
    | CertificateDownloadFailed
    | KeychainError
    | NotLoggedIn
    | TwoFactorRequired

  /** `error.localizedDescription`: the `errorDescription` of the source's enums, and the
      description carried by a foreign error. */
  function Description(e: Error): string {
    match e
    case URLError(_, d) => d
    case NSError(_, _, d) => d
    case AltSign(a) => AltSignDescription(a)
    case Refresh(r) => RefreshDescription(r)
    case Authentication(a) => AuthenticationDescription(a)
  }

  function AltSignDescription(a: AltSignError): string {
    match a
    case AuthenticationFailed(m) => "Authentication failed: " + m
    case NoTeamsFound => "No development teams found for this Apple Account"
    case CertificateFailed(m) => "Certificate error: " + m
    case ProvisioningFailed(m) => "Provisioning profile error: " + m
    case SigningFailed(m) => "Signing failed: " + m
    case InvalidAnisetteData => "Failed to fetch Anisette data from all servers"
    case AnisetteServerTimeout =>
      "Anisette servers timed out. If using WireGuard VPN, try disabling it temporarily to sign in."
    case NetworkError(c) => "Network error: " + Description(c)
  }

  function RefreshDescription(r: RefreshError): string {
    match r
    case NotAuthenticated => "Not authenticated. Please sign in with your Apple Account."
    case VPNNotConnected => "VPN not connected. The loopback VPN must be active to refresh."
    case MinimuxerNotAvailable => "Self-refresh not available. Minimuxer is disabled (requires libimobiledevice)."
    case MinimuxerNotReady => "Device connection not ready. Please check that the VPN is active."
    case ProfileFetchFailed(c) => "Failed to fetch provisioning profile: " + Description(c)
    case ProfileInstallFailed(c) => "Failed to install provisioning profile: " + Description(c)
    case NoPairingFile => "No pairing file found. Please pair your device using AltServer first."
  }

  function AuthenticationDescription(a: AuthenticationError): string {
    match a
    case InvalidCredentials => "Invalid Apple Account email or password"
    case NetworkUnavailable => "Network connection failed. Please check your internet connection."
    case CertificateDownloadFailed => "Failed to download development certificate"
    case KeychainError => "Failed to store credentials securely"
    case NotLoggedIn => "Not logged in. Please sign in first."
    case TwoFactorRequired => "Two-factor authentication required. Please check your trusted devices."
  }
}
