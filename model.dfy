/**
 * The server-side records the Financial Connections view-models read. Only
 * the fields the modelled code touches are kept; the records themselves live
 * in the SDK's `model` package.
 */
module FinancialConnectionsModel {
  import opened Wrappers

  /** A pane of the linking flow, known here only by its wire value (`Pane.value`). */
  datatype Pane = Pane(value: string)

  /** The exceptions the modelled code can observe. */
  datatype Throwable =
    | IllegalArgument                                        // `requireNotNull` on a null value
    | WebAuthFlowFailed(message: string, reason: Option<string>)
    | Remote(description: string)                            // any failure of a server call

  datatype Institution = Institution(id: string)

  /** One bank-authorization attempt (`FinancialConnectionsAuthorizationSession`). */
  datatype AuthSession = AuthSession(
    id: string,
    isOAuth: bool,
    url: Option<string>,
    skipAccountSelection: Option<bool>,
    institutionSkipAccountSelection: Option<bool>,
    nextPane: Pane)

  /** The server's description of the running flow (`FinancialConnectionsSessionManifest`). */
  datatype Manifest = Manifest(
    activeAuthSession: Option<AuthSession>,
    activeInstitution: Option<Institution>,
    allowManualEntry: bool,
    singleAccount: bool,
    isStripeDirect: Option<bool>,
    businessName: Option<string>)

  datatype PartnerAccount = PartnerAccount(id: string, allowSelection: bool)

  datatype PartnerAccountsList = PartnerAccountsList(
    data: seq<PartnerAccount>,
    skipAccountSelection: Option<bool>,
    nextPane: Pane)

  datatype MixedOAuthParams = MixedOAuthParams(publicToken: Option<string>)

  /** Kotlin's `b == true` on a `Boolean?`. */
  function IsTrue(b: Option<bool>): bool
  {
    b == Some(true)
  }

  /** `requireNotNull(x)`: the value, or `IllegalArgumentException`. */
  function RequireNotNull<T>(x: Option<T>): (r: Result<T, Throwable>)
    ensures r.Ok? <==> x.Some?
    ensures r.Ok? ==> r.value == x.value
    ensures r.Err? ==> r.error == IllegalArgument
  {
    match x
    case Some(v) => Ok(v)
    case None => Err(IllegalArgument)
  }

  /**
   * `requireNotNull(getManifest().activeAuthSession)`, where `manifest` is what
   * `getManifest()` returned or threw.
   */
  function RequireActiveSession(manifest: Result<Manifest, Throwable>): (r: Result<AuthSession, Throwable>)
    ensures r.Ok? <==> manifest.Ok? && manifest.value.activeAuthSession.Some?
    ensures r.Ok? ==> r.value == manifest.value.activeAuthSession.value
    ensures manifest.Err? ==> r == Err(manifest.error)
  {
    match manifest
    case Err(e) => Err(e)
    case Ok(m) => RequireNotNull(m.activeAuthSession)
  }
}
