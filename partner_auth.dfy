/**
 * The partner-auth pane (`PartnerAuthViewModel`): it creates or restores an
 * authorization session, opens the bank's page in the browser and reacts to
 * what the in-browser flow reports.
 *
 * What each handler does to the state, which server calls it makes and which
 * navigation events it emits is first defined as a function (an `Effect`),
 * and the properties of the flow are lemmas about those functions. The class
 * then runs each handler step by step and is proved to produce that effect.
 * Every server call's reply (or exception) is an input.
 */
module PartnerAuth {
  import opened Wrappers
  import opened Strings
  import opened FinancialConnectionsModel
  import M = Mavericks
  import W = WebAuthFlow
  import N = Navigation

  /** `PartnerAuthState.Payload`. */
  datatype Payload = Payload(authSession: AuthSession, institution: Institution, isStripeDirect: bool)

  /** A one-off instruction to the screen; `id` is the click time that makes two effects differ. */
  datatype ViewEffect =
    | OpenPartnerAuth(url: string)
    | OpenUrl(url: string, id: int)
    | OpenBottomSheet(id: int)

  /** The fields of `PartnerAuthState` the view-model reads and writes. */
  datatype PartnerAuthState = PartnerAuthState(
    payload: M.Async<Payload, Throwable>,
    authenticationStatus: M.Async<(), Throwable>,
    viewEffect: Option<ViewEffect>,
    activeAuthSession: Option<string>)

  /** `AuthSessionEvent`s posted to the server; their timestamps are not modelled. */
  datatype AuthSessionEvent =
    | Launched
    | Loaded
    | OAuthLaunched
    | Failure(error: Throwable)
    | Retry
    | Cancel
    | Success

  /** The server calls the view-model makes, in the order it makes them. */
  datatype Call =
    | CreateSession(institution: Institution, allowManualEntry: bool)
    | PostEvents(sessionId: string, events: seq<AuthSessionEvent>)
    | CancelSession(sessionId: string)
    | PollOAuthResults(sessionId: string)
    | CompleteSession(sessionId: string, publicToken: Option<string>)

  /**
   * The view-model's fixed configuration: the application id, the unseen
   * `Pane.toNavigationCommand()` table, and whether `init` registered
   * `launchBrowserIfNonOauth` (it does so only when it creates a session).
   */
  datatype Config = Config(
    applicationId: string,
    toNavigationCommand: Pane -> N.Direction,
    launchesBrowserForNonOAuth: bool)

  /** What one handler does: the new state, and the calls and navigation events it appends. */
  datatype Effect = Effect(state: PartnerAuthState, calls: seq<Call>, navigation: seq<N.NavigationState>)

  /**
   * The replies `createAuthSession` sees: `getManifest`, the session
   * creation, and the `getManifest` of the browser launch its hook may run.
   */
  datatype CreateReplies = CreateReplies(
    manifest: Result<Manifest, Throwable>,
    created: Result<AuthSession, Throwable>,
    launchManifest: Result<Manifest, Throwable>)

  /** The replies the web-flow handlers see. */
  datatype ServerReplies = ServerReplies(
    manifest: Result<Manifest, Throwable>,
    cancelled: Result<AuthSession, Throwable>,
    oAuthResults: Result<MixedOAuthParams, Throwable>,
    completed: Result<AuthSession, Throwable>,
    recreate: CreateReplies)

  // ------------------------------------------------------------ the auth URL

  /** `"stripe-auth://native-redirect/$applicationId/"`. */
  function RedirectPrefix(applicationId: string): (r: string)
    ensures |r| == |applicationId| + 31
    ensures r[30..|r| - 1] == applicationId && r[|r| - 1] == '/'
  {
    "stripe-auth://native-redirect/" + applicationId + "/"
  }

  /** The session URL with the first occurrence of the redirect prefix removed. */
  function PartnerAuthUrl(url: string, applicationId: string): (r: string)
    ensures r == url || |r| + |RedirectPrefix(applicationId)| == |url|
  {
    ReplaceFirst(url, RedirectPrefix(applicationId), "")
  }

  /** A URL that starts with the prefix loses exactly the prefix. */
  lemma PartnerAuthUrlStripsPrefix(rest: string, applicationId: string)
    ensures PartnerAuthUrl(RedirectPrefix(applicationId) + rest, applicationId) == rest
  {
    ReplaceFirstLeading(RedirectPrefix(applicationId), rest, "");
  }

  /** Only the first occurrence is removed; what comes before it is kept. */
  lemma PartnerAuthUrlRemovesFirstOccurrence(url: string, applicationId: string, i: nat)
    requires OccursAt(url, RedirectPrefix(applicationId), i)
    requires forall j :: 0 <= j < i ==> !OccursAt(url, RedirectPrefix(applicationId), j)
    ensures PartnerAuthUrl(url, applicationId) == url[..i] + url[i + |RedirectPrefix(applicationId)|..]
  {
    ReplaceFirstAt(url, RedirectPrefix(applicationId), "", i);
  }

  /** A URL without the prefix is opened as it is. */
  lemma PartnerAuthUrlWithoutPrefix(url: string, applicationId: string)
    requires forall j :: !OccursAt(url, RedirectPrefix(applicationId), j)
    ensures PartnerAuthUrl(url, applicationId) == url
  {
  }

  // ------------------------------------------------------------ launching the browser

  /**
   * `launchAuthInBrowser`: a manifest without an active session (or a failed
   * `getManifest`) fails the authentication; a session without URL changes
   * nothing; otherwise the screen is told to open the stripped URL.
   */
  function LaunchedState(st: PartnerAuthState, manifest: Result<Manifest, Throwable>, applicationId: string)
    : (r: PartnerAuthState)
    ensures r.payload == st.payload && r.activeAuthSession == st.activeAuthSession
  {
    match RequireActiveSession(manifest)
    case Err(e) => st.(authenticationStatus := M.Fail(e))
    case Ok(session) =>
      match session.url
      case None => st
      case Some(u) => st.(viewEffect := Some(OpenPartnerAuth(PartnerAuthUrl(u, applicationId))))
  }

  /** The three outcomes of a launch. */
  lemma LaunchOutcomes(st: PartnerAuthState, manifest: Result<Manifest, Throwable>, applicationId: string)
    ensures var r := LaunchedState(st, manifest, applicationId);
      && (manifest.Err? ==> r == st.(authenticationStatus := M.Fail(manifest.error)))
      && (manifest.Ok? && manifest.value.activeAuthSession.None? ==>
            r == st.(authenticationStatus := M.Fail(IllegalArgument)))
      && (manifest.Ok? && manifest.value.activeAuthSession.Some? && manifest.value.activeAuthSession.value.url.None? ==>
            r == st)
      && (manifest.Ok? && manifest.value.activeAuthSession.Some? && manifest.value.activeAuthSession.value.url.Some? ==>
            r == st.(viewEffect :=
              Some(OpenPartnerAuth(PartnerAuthUrl(manifest.value.activeAuthSession.value.url.value, applicationId)))))
  {
  }

  /** A session URL behind the redirect prefix is opened without it. */
  lemma LaunchOpensStrippedUrl(st: PartnerAuthState, m: Manifest, rest: string, applicationId: string)
    requires m.activeAuthSession.Some? && m.activeAuthSession.value.url == Some(RedirectPrefix(applicationId) + rest)
    ensures LaunchedState(st, Ok(m), applicationId).viewEffect == Some(OpenPartnerAuth(rest))
    ensures LaunchedState(st, Ok(m), applicationId).authenticationStatus == st.authenticationStatus
  {
    PartnerAuthUrlStripsPrefix(rest, applicationId);
  }

  // ------------------------------------------------------------ creating and restoring the session

  /** Launched always, then Loaded only for an OAuth session (the others are reported by the web shim). */
  function LaunchEvents(session: AuthSession): (r: seq<AuthSessionEvent>)
    ensures |r| >= 1 && r[0] == Launched
    ensures Loaded in r <==> session.isOAuth
    ensures r == [Launched] || r == [Launched, Loaded]
  {
    [Launched] + (if session.isOAuth then [Loaded] else [])
  }

  /** The payload `createAuthSession`'s block returns or throws. */
  function CreatedPayload(manifest: Result<Manifest, Throwable>, created: Result<AuthSession, Throwable>)
    : (r: Result<Payload, Throwable>)
    ensures r.Ok? <==> manifest.Ok? && manifest.value.activeInstitution.Some? && created.Ok?
    ensures r.Ok? ==> r.value.authSession == created.value && r.value.institution == manifest.value.activeInstitution.value
    ensures r.Ok? ==> (r.value.isStripeDirect <==> IsTrue(manifest.value.isStripeDirect))
    ensures manifest.Ok? && manifest.value.activeInstitution.None? ==> r == Err(IllegalArgument)
  {
    match manifest
    case Err(e) => Err(e)
    case Ok(m) =>
      match m.activeInstitution
      case None => Err(IllegalArgument)
      case Some(institution) =>
        match created
        case Err(e) => Err(e)
        case Ok(session) => Ok(Payload(session, institution, IsTrue(m.isStripeDirect)))
  }

  /** The calls of `createAuthSession`: the creation, then the events of the new session. */
  function CreateCalls(manifest: Result<Manifest, Throwable>, created: Result<AuthSession, Throwable>): (r: seq<Call>)
    ensures r != [] <==> manifest.Ok? && manifest.value.activeInstitution.Some?
    ensures r != [] ==> r[0] == CreateSession(manifest.value.activeInstitution.value, manifest.value.allowManualEntry)
    ensures |r| == 2 <==> CreatedPayload(manifest, created).Ok?
  {
    match manifest
    case Err(_) => []
    case Ok(m) =>
      match m.activeInstitution
      case None => []
      case Some(institution) =>
        [CreateSession(institution, m.allowManualEntry)]
        + (match created
           case Err(_) => []
           case Ok(session) => [PostEvents(session.id, LaunchEvents(session))])
  }

  /**
   * `createAuthSession`: the payload and the active session id are set from
   * the outcome; a new non-OAuth session is then launched when `init`
   * registered the hook.
   */
  function CreateEffect(st: PartnerAuthState, replies: CreateReplies, cfg: Config): (r: Effect)
    ensures r.navigation == []
    ensures r.state.payload == M.Completed(CreatedPayload(replies.manifest, replies.created))
    ensures r.state.activeAuthSession.Some? <==> CreatedPayload(replies.manifest, replies.created).Ok?
  {
    var r := CreatedPayload(replies.manifest, replies.created);
    var created := st.(payload := M.Completed(r),
                       activeAuthSession := if r.Ok? then Some(r.value.authSession.id) else None);
    var launches := cfg.launchesBrowserForNonOAuth && r.Ok? && !r.value.authSession.isOAuth;
    Effect(if launches then LaunchedState(created, replies.launchManifest, cfg.applicationId) else created,
           CreateCalls(replies.manifest, replies.created), [])
  }

  /**
   * A successful creation stores the new session's id as the active one and
   * posts Launched (plus Loaded for OAuth) for that session; a failed one
   * clears the active session and fails the payload. Nothing is navigated.
   */
  lemma CreateSetsActiveSession(st: PartnerAuthState, replies: CreateReplies, cfg: Config)
    ensures var e := CreateEffect(st, replies, cfg);
      var ok := replies.manifest.Ok? && replies.manifest.value.activeInstitution.Some? && replies.created.Ok?;
      && e.navigation == []
      && (ok ==>
            && e.state.activeAuthSession == Some(replies.created.value.id)
            && e.state.payload.Success? && e.state.payload.value.authSession == replies.created.value
            && e.calls == [CreateSession(replies.manifest.value.activeInstitution.value, replies.manifest.value.allowManualEntry),
                           PostEvents(replies.created.value.id, LaunchEvents(replies.created.value))])
      && (!ok ==> e.state.activeAuthSession.None? && e.state.payload.Fail?)
  {
  }

  /** An OAuth session is never launched by the hook: the pre-pane waits for a click. */
  lemma CreateOAuthWaitsForClick(st: PartnerAuthState, replies: CreateReplies, cfg: Config)
    requires replies.created.Ok? && replies.created.value.isOAuth
    ensures var e := CreateEffect(st, replies, cfg);
      e.state.viewEffect == st.viewEffect && e.state.authenticationStatus == st.authenticationStatus
  {
  }

  /**
   * `restoreAuthSession`'s block: the manifest's active session is reused,
   * and a session is created only when the manifest has none.
   */
  function RestoredPayload(manifest: Result<Manifest, Throwable>, created: Result<AuthSession, Throwable>)
    : (r: Result<Payload, Throwable>)
    ensures r.Ok? ==> manifest.Ok? && manifest.value.activeInstitution.Some?
    ensures r.Ok? && manifest.value.activeAuthSession.Some? ==> r.value.authSession == manifest.value.activeAuthSession.value
    ensures r.Ok? && manifest.value.activeAuthSession.None? ==> created.Ok? && r.value.authSession == created.value
  {
    match manifest
    case Err(e) => Err(e)
    case Ok(m) =>
      match m.activeAuthSession
      case Some(session) =>
        (match m.activeInstitution
         case None => Err(IllegalArgument)
         case Some(institution) => Ok(Payload(session, institution, IsTrue(m.isStripeDirect))))
      case None => CreatedPayload(manifest, created)
  }

  /** The calls of `restoreAuthSession`: a creation only when the manifest has no active session. */
  function RestoreCalls(manifest: Result<Manifest, Throwable>): (r: seq<Call>)
    ensures |r| <= 1
    ensures |r| == 1 <==>
      manifest.Ok? && manifest.value.activeAuthSession.None? && manifest.value.activeInstitution.Some?
  {
    match manifest
    case Err(_) => []
    case Ok(m) =>
      if m.activeAuthSession.Some? || m.activeInstitution.None? then []
      else [CreateSession(m.activeInstitution.value, m.allowManualEntry)]
  }

  /** Restoring reuses the manifest's session without creating one, and creates one otherwise. */
  lemma RestoreReusesSession(m: Manifest, created: Result<AuthSession, Throwable>)
    requires m.activeInstitution.Some?
    ensures m.activeAuthSession.Some? ==>
      && RestoredPayload(Ok(m), created) == Ok(Payload(m.activeAuthSession.value, m.activeInstitution.value, IsTrue(m.isStripeDirect)))
      && RestoreCalls(Ok(m)) == []
    ensures m.activeAuthSession.None? ==>
      && RestoredPayload(Ok(m), created) == CreatedPayload(Ok(m), created)
      && RestoreCalls(Ok(m)) == [CreateSession(m.activeInstitution.value, m.allowManualEntry)]
  {
  }

  // ------------------------------------------------------------ the web flow's outcome

  /**
   * `onAuthFailed`: with an active session, Failure is posted and the session
   * cancelled; then the status fails with the web-flow error. An exception
   * on the way (a failed `getManifest` or cancellation) is only logged.
   */
  function FailEffect(st: PartnerAuthState, message: string, reason: Option<string>,
                      manifest: Result<Manifest, Throwable>, cancelled: Result<AuthSession, Throwable>): (r: Effect)
    ensures r.navigation == []
    ensures r.state == st.(authenticationStatus := r.state.authenticationStatus)
    ensures r.state.authenticationStatus == st.authenticationStatus
         || r.state.authenticationStatus == M.Fail(WebAuthFlowFailed(message, reason))
    ensures r.calls != [] <==> manifest.Ok? && manifest.value.activeAuthSession.Some?
  {
    var error := WebAuthFlowFailed(message, reason);
    match manifest
    case Err(_) => Effect(st, [], [])
    case Ok(m) =>
      match m.activeAuthSession
      case None => Effect(st.(authenticationStatus := M.Fail(error)), [], [])
      case Some(session) =>
        var posted := [PostEvents(session.id, [Failure(error)]), CancelSession(session.id)];
        if cancelled.Err? then Effect(st, posted, [])
        else Effect(st.(authenticationStatus := M.Fail(error)), posted, [])
  }

  /** A failed web flow fails the status with its message and reason, unless a step before throws. */
  lemma FailedSetsWebAuthError(st: PartnerAuthState, message: string, reason: Option<string>,
                               manifest: Result<Manifest, Throwable>, cancelled: Result<AuthSession, Throwable>)
    ensures var e := FailEffect(st, message, reason, manifest, cancelled);
      var reached := manifest.Ok? && (manifest.value.activeAuthSession.None? || cancelled.Ok?);
      && e.navigation == []
      && (reached ==> e.state == st.(authenticationStatus := M.Fail(WebAuthFlowFailed(message, reason))))
      && (!reached ==> e.state == st)
  {
  }

  /**
   * `onAuthCancelled`: the status is Loading while the session is cancelled.
   * An OAuth session then posts Retry, resets the status and creates a new
   * session; any other session posts Cancel and navigates to the cancelled
   * session's next pane. A thrown exception fails the status.
   */
  function CancelEffect(st: PartnerAuthState, replies: ServerReplies, cfg: Config, eventId: string): (r: Effect)
    ensures RequireActiveSession(replies.manifest).Err? ==> r.calls == []
    ensures RequireActiveSession(replies.manifest).Ok? ==>
      r.calls != [] && r.calls[0] == CancelSession(RequireActiveSession(replies.manifest).value.id)
    ensures |r.navigation| <= 1
    ensures forall k :: 0 <= k < |r.navigation| ==> r.navigation[k].NavigateToRoute? && r.navigation[k].popCurrentFromBackStack
  {
    match RequireActiveSession(replies.manifest)
    case Err(e) => Effect(st.(authenticationStatus := M.Fail(e)), [], [])
    case Ok(session) =>
      match replies.cancelled
      case Err(e) => Effect(st.(authenticationStatus := M.Fail(e)), [CancelSession(session.id)], [])
      case Ok(result) =>
        if session.isOAuth then
          var c := CreateEffect(st.(authenticationStatus := M.Uninitialized), replies.recreate, cfg);
          Effect(c.state, [CancelSession(session.id), PostEvents(session.id, [Retry])] + c.calls, [])
        else
          Effect(st.(authenticationStatus := M.Loading),
                 [CancelSession(session.id), PostEvents(session.id, [Cancel])],
                 [N.NavigateTo(cfg.toNavigationCommand(result.nextPane), true, eventId)])
  }

  /** A cancelled OAuth flow stays on the pane with a new session and a reset status. */
  lemma CancelOAuthCreatesNewSession(st: PartnerAuthState, replies: ServerReplies, cfg: Config, eventId: string)
    requires RequireActiveSession(replies.manifest).Ok? && RequireActiveSession(replies.manifest).value.isOAuth
    requires replies.cancelled.Ok?
    ensures var e := CancelEffect(st, replies, cfg, eventId);
      var id := RequireActiveSession(replies.manifest).value.id;
      var c := CreateEffect(st.(authenticationStatus := M.Uninitialized), replies.recreate, cfg);
      && e.navigation == []
      && e.state == c.state
      && e.calls == [CancelSession(id), PostEvents(id, [Retry])] + CreateCalls(replies.recreate.manifest, replies.recreate.created)
  {
  }

  /** Unless the hook launches a new non-OAuth session, the status ends Uninitialized. */
  lemma CancelOAuthResetsStatus(st: PartnerAuthState, replies: ServerReplies, cfg: Config, eventId: string)
    requires RequireActiveSession(replies.manifest).Ok? && RequireActiveSession(replies.manifest).value.isOAuth
    requires replies.cancelled.Ok?
    requires !cfg.launchesBrowserForNonOAuth || replies.recreate.created.Err? || replies.recreate.created.value.isOAuth
    ensures CancelEffect(st, replies, cfg, eventId).state.authenticationStatus == M.Uninitialized
  {
  }

  /** A cancelled non-OAuth flow leaves the pane for the cancelled session's next pane. */
  lemma CancelNonOAuthNavigates(st: PartnerAuthState, replies: ServerReplies, cfg: Config, eventId: string)
    requires RequireActiveSession(replies.manifest).Ok? && !RequireActiveSession(replies.manifest).value.isOAuth
    requires replies.cancelled.Ok?
    ensures var e := CancelEffect(st, replies, cfg, eventId);
      && e.navigation == [N.NavigateTo(cfg.toNavigationCommand(replies.cancelled.value.nextPane), true, eventId)]
      && e.state == st.(authenticationStatus := M.Loading)
  {
  }

  /** A missing session or a failed cancellation fails the status and navigates nowhere. */
  lemma CancelFailureFails(st: PartnerAuthState, replies: ServerReplies, cfg: Config, eventId: string)
    requires RequireActiveSession(replies.manifest).Err? || replies.cancelled.Err?
    ensures var e := CancelEffect(st, replies, cfg, eventId);
      e.state.authenticationStatus.Fail? && e.navigation == []
      && e.state == st.(authenticationStatus := e.state.authenticationStatus)
  {
  }

  /**
   * `completeAuthorizationSession`: Success is posted; an OAuth session is
   * polled for its results and completed, then the flow moves on to the
   * completed session's next pane; any other session moves on to the
   * account picker. A thrown exception fails the status.
   */
  function CompleteEffect(st: PartnerAuthState, replies: ServerReplies, cfg: Config, eventId: string): (r: Effect)
    ensures RequireActiveSession(replies.manifest).Err? ==> r.calls == []
    ensures RequireActiveSession(replies.manifest).Ok? ==>
      r.calls != [] && r.calls[0] == PostEvents(RequireActiveSession(replies.manifest).value.id, [Success])
    ensures |r.navigation| <= 1
    ensures forall k :: 0 <= k < |r.navigation| ==> r.navigation[k].NavigateToRoute? && r.navigation[k].popCurrentFromBackStack
  {
    match RequireActiveSession(replies.manifest)
    case Err(e) => Effect(st.(authenticationStatus := M.Fail(e)), [], [])
    case Ok(session) =>
      var posted := [PostEvents(session.id, [Success])];
      if !session.isOAuth then
        Effect(st.(authenticationStatus := M.Loading), posted, [N.NavigateTo(N.AccountPicker, true, eventId)])
      else
        var polled := posted + [PollOAuthResults(session.id)];
        match replies.oAuthResults
        case Err(e) => Effect(st.(authenticationStatus := M.Fail(e)), polled, [])
        case Ok(results) =>
          var completing := polled + [CompleteSession(session.id, results.publicToken)];
          match replies.completed
          case Err(e) => Effect(st.(authenticationStatus := M.Fail(e)), completing, [])
          case Ok(updated) =>
            Effect(st.(authenticationStatus := M.Loading), completing,
                   [N.NavigateTo(cfg.toNavigationCommand(updated.nextPane), true, eventId)])
  }

  /** A completed non-OAuth flow emits exactly one navigation: to the account picker, popping this pane. */
  lemma CompleteNonOAuthGoesToAccountPicker(st: PartnerAuthState, replies: ServerReplies, cfg: Config, eventId: string)
    requires RequireActiveSession(replies.manifest).Ok? && !RequireActiveSession(replies.manifest).value.isOAuth
    ensures CompleteEffect(st, replies, cfg, eventId).navigation == [N.NavigateTo(N.AccountPicker, true, eventId)]
  {
  }

  /** A completed OAuth flow goes to the completed session's next pane, after polling and completing it. */
  lemma CompleteOAuthGoesToNextPane(st: PartnerAuthState, replies: ServerReplies, cfg: Config, eventId: string)
    requires RequireActiveSession(replies.manifest).Ok? && RequireActiveSession(replies.manifest).value.isOAuth
    requires replies.oAuthResults.Ok? && replies.completed.Ok?
    ensures var e := CompleteEffect(st, replies, cfg, eventId);
      var id := RequireActiveSession(replies.manifest).value.id;
      && e.navigation == [N.NavigateTo(cfg.toNavigationCommand(replies.completed.value.nextPane), true, eventId)]
      && e.calls == [PostEvents(id, [Success]), PollOAuthResults(id), CompleteSession(id, replies.oAuthResults.value.publicToken)]
  {
  }

  /** Any failing step fails the status and emits no navigation. */
  lemma CompleteFailureFails(st: PartnerAuthState, replies: ServerReplies, cfg: Config, eventId: string)
    requires || RequireActiveSession(replies.manifest).Err?
             || (RequireActiveSession(replies.manifest).value.isOAuth && (replies.oAuthResults.Err? || replies.completed.Err?))
    ensures var e := CompleteEffect(st, replies, cfg, eventId);
      e.state.authenticationStatus.Fail? && e.navigation == []
  {
  }

  /** `onWebAuthFlowFinished`: dispatch on what the browser reported. */
  function FinishedEffect(st: PartnerAuthState, webStatus: W.WebAuthFlowState, replies: ServerReplies,
                          cfg: Config, eventId: string): (r: Effect)
    ensures r.navigation != [] ==> webStatus.Canceled? || webStatus.Success?
    ensures webStatus.InProgress? || webStatus.Uninitialized? ==> r.calls == []
  {
    match webStatus
    case Canceled => CancelEffect(st, replies, cfg, eventId)
    case Failed(message, reason) => FailEffect(st, message, reason, replies.manifest, replies.cancelled)
    case InProgress => Effect(st.(authenticationStatus := M.Loading), [], [])
    case Success => CompleteEffect(st, replies, cfg, eventId)
    case Uninitialized => Effect(st, [], [])
  }

  /** InProgress only marks the status as loading; Uninitialized does nothing. */
  lemma InProgressAndUninitialized(st: PartnerAuthState, replies: ServerReplies, cfg: Config, eventId: string)
    ensures FinishedEffect(st, W.InProgress, replies, cfg, eventId) == Effect(st.(authenticationStatus := M.Loading), [], [])
    ensures FinishedEffect(st, W.Uninitialized, replies, cfg, eventId) == Effect(st, [], [])
  {
  }

  /**
   * Whatever the browser reports, the pane emits at most one navigation, and
   * that navigation removes the pane from the back stack.
   */
  lemma FinishedNavigatesAtMostOnce(st: PartnerAuthState, webStatus: W.WebAuthFlowState, replies: ServerReplies,
                                    cfg: Config, eventId: string)
    ensures var e := FinishedEffect(st, webStatus, replies, cfg, eventId);
      |e.navigation| <= 1
      && forall k :: 0 <= k < |e.navigation| ==> e.navigation[k].NavigateToRoute? && e.navigation[k].popCurrentFromBackStack
  {
  }

  /** Only the cancel and fail paths ever cancel the session; completion never does. */
  lemma CompleteNeverCancels(st: PartnerAuthState, replies: ServerReplies, cfg: Config, eventId: string, id: string)
    ensures CancelSession(id) !in CompleteEffect(st, replies, cfg, eventId).calls
  {
  }

  // ------------------------------------------------------------ the view-model

  class PartnerAuthViewModel {
    var state: PartnerAuthState
    /** The events handed to `navigationManager.navigate`, oldest first. */
    var navigation: seq<N.NavigationState>
    /** The server calls made, oldest first. */
    var calls: seq<Call>
    const config: Config

    /**
     * `init`: without an active session, registers the launch hook and
     * creates a session; with one, restores it. `create` holds the replies
     * of whichever block runs.
     */
    constructor (initialState: PartnerAuthState, applicationId: string, toNavigationCommand: Pane -> N.Direction,
                 create: CreateReplies)
      ensures config == Config(applicationId, toNavigationCommand, initialState.activeAuthSession.None?)
      ensures initialState.activeAuthSession.None? ==>
        var e := CreateEffect(initialState, create, config);
        state == e.state && calls == e.calls
      ensures initialState.activeAuthSession.Some? ==>
        && state == initialState.(payload := M.Completed(RestoredPayload(create.manifest, create.created)))
        && calls == RestoreCalls(create.manifest)
      ensures navigation == []
    {
      state := initialState;
      navigation := [];
      calls := [];
      config := Config(applicationId, toNavigationCommand, initialState.activeAuthSession.None?);
      new;
      if initialState.activeAuthSession.None? {
        CreateAuthSession(create);
      } else {
        RestoreAuthSession(create.manifest, create.created);
      }
    }

    /** `restoreAuthSession`, completed with what `getManifest` and the creation returned. */
    method RestoreAuthSession(manifest: Result<Manifest, Throwable>, created: Result<AuthSession, Throwable>)
      modifies this
      ensures state == old(state).(payload := M.Completed(RestoredPayload(manifest, created)))
      ensures calls == old(calls) + RestoreCalls(manifest)
      ensures navigation == old(navigation)
    {
      if manifest.Err? {
        state := state.(payload := M.Fail(manifest.error));
        return;
      }
      var m := manifest.value;
      var session: AuthSession;
      if m.activeAuthSession.Some? {
        session := m.activeAuthSession.value;
      } else {
        if m.activeInstitution.None? {
          state := state.(payload := M.Fail(IllegalArgument));
          return;
        }
        calls := calls + [CreateSession(m.activeInstitution.value, m.allowManualEntry)];
        if created.Err? {
          state := state.(payload := M.Fail(created.error));
          return;
        }
        session := created.value;
      }
      if m.activeInstitution.None? {
        state := state.(payload := M.Fail(IllegalArgument));
        return;
      }
      state := state.(payload := M.Success(Payload(session, m.activeInstitution.value, IsTrue(m.isStripeDirect))));
    }

    /** `createAuthSession`, followed by the launch hook when it is registered. */
    method CreateAuthSession(replies: CreateReplies)
      modifies this
      ensures var e := CreateEffect(old(state), replies, config);
        state == e.state && calls == old(calls) + e.calls && navigation == old(navigation) + e.navigation
    {
      var manifest := replies.manifest;
      var payload: Result<Payload, Throwable>;
      if manifest.Err? {
        payload := Err(manifest.error);
      } else if manifest.value.activeInstitution.None? {
        payload := Err(IllegalArgument);
      } else {
        var institution := manifest.value.activeInstitution.value;
        calls := calls + [CreateSession(institution, manifest.value.allowManualEntry)];
        if replies.created.Err? {
          payload := Err(replies.created.error);
        } else {
          var session := replies.created.value;
          payload := Ok(Payload(session, institution, IsTrue(manifest.value.isStripeDirect)));
          calls := calls + [PostEvents(session.id, LaunchEvents(session))];
        }
      }
      state := state.(payload := M.Completed(payload),
                      activeAuthSession := if payload.Ok? then Some(payload.value.authSession.id) else None);
      if config.launchesBrowserForNonOAuth && payload.Ok? && !payload.value.authSession.isOAuth {
        LaunchAuthInBrowser(replies.launchManifest);
      }
    }

    /** `launchAuthInBrowser`, with what its `getManifest` returned. */
    method LaunchAuthInBrowser(manifest: Result<Manifest, Throwable>)
      modifies this
      ensures state == LaunchedState(old(state), manifest, config.applicationId)
      ensures calls == old(calls) && navigation == old(navigation)
    {
      var session := RequireActiveSession(manifest);
      if session.Err? {
        state := state.(authenticationStatus := M.Fail(session.error));
      } else if session.value.url.Some? {
        var url := PartnerAuthUrl(session.value.url.value, config.applicationId);
        state := state.(viewEffect := Some(OpenPartnerAuth(url)));
      }
    }

    /** `onLaunchAuthClick`: OAuthLaunched is posted for the loaded session, then the browser is launched. */
    method OnLaunchAuthClick(launchManifest: Result<Manifest, Throwable>)
      modifies this
      ensures state == LaunchedState(old(state), launchManifest, config.applicationId)
      ensures calls == old(calls) +
        (if old(state).payload.Success? then [PostEvents(old(state).payload.value.authSession.id, [OAuthLaunched])] else [])
      ensures navigation == old(navigation)
    {
      if state.payload.Success? {
        calls := calls + [PostEvents(state.payload.value.authSession.id, [OAuthLaunched])];
      }
      LaunchAuthInBrowser(launchManifest);
    }

    /** `onWebAuthFlowFinished`. */
    method OnWebAuthFlowFinished(webStatus: W.WebAuthFlowState, replies: ServerReplies, eventId: string)
      modifies this
      ensures var e := FinishedEffect(old(state), webStatus, replies, config, eventId);
        state == e.state && calls == old(calls) + e.calls && navigation == old(navigation) + e.navigation
    {
      match webStatus {
        case Canceled => OnAuthCancelled(replies, eventId);
        case Failed(message, reason) => OnAuthFailed(message, reason, replies.manifest, replies.cancelled);
        case InProgress => state := state.(authenticationStatus := M.Loading);
        case Success => CompleteAuthorizationSession(replies, eventId);
        case Uninitialized =>
      }
    }

    /** `onAuthFailed`. */
    method OnAuthFailed(message: string, reason: Option<string>,
                        manifest: Result<Manifest, Throwable>, cancelled: Result<AuthSession, Throwable>)
      modifies this
      ensures var e := FailEffect(old(state), message, reason, manifest, cancelled);
        state == e.state && calls == old(calls) + e.calls && navigation == old(navigation) + e.navigation
    {
      var error := WebAuthFlowFailed(message, reason);
      if manifest.Err? {
        return;
      }
      var session := manifest.value.activeAuthSession;
      if session.Some? {
        calls := calls + [PostEvents(session.value.id, [Failure(error)])];
        calls := calls + [CancelSession(session.value.id)];
        if cancelled.Err? {
          return;
        }
      }
      state := state.(authenticationStatus := M.Fail(error));
    }

    /** `onAuthCancelled`. */
    method OnAuthCancelled(replies: ServerReplies, eventId: string)
      modifies this
      ensures var e := CancelEffect(old(state), replies, config, eventId);
        state == e.state && calls == old(calls) + e.calls && navigation == old(navigation) + e.navigation
    {
      var start := state;
      state := state.(authenticationStatus := M.Loading);
      var session := RequireActiveSession(replies.manifest);
      if session.Err? {
        state := state.(authenticationStatus := M.Fail(session.error));
        return;
      }
      var id := session.value.id;
      calls := calls + [CancelSession(id)];
      if replies.cancelled.Err? {
        state := state.(authenticationStatus := M.Fail(replies.cancelled.error));
        return;
      }
      if session.value.isOAuth {
        calls := calls + [PostEvents(id, [Retry])];
        state := state.(authenticationStatus := M.Uninitialized);
        assert state == start.(authenticationStatus := M.Uninitialized);
        CreateAuthSession(replies.recreate);
      } else {
        calls := calls + [PostEvents(id, [Cancel])];
        var command := config.toNavigationCommand(replies.cancelled.value.nextPane);
        navigation := navigation + [N.NavigateTo(command, true, eventId)];
      }
    }

    /** `completeAuthorizationSession`. */
    method CompleteAuthorizationSession(replies: ServerReplies, eventId: string)
      modifies this
      ensures var e := CompleteEffect(old(state), replies, config, eventId);
        state == e.state && calls == old(calls) + e.calls && navigation == old(navigation) + e.navigation
    {
      state := state.(authenticationStatus := M.Loading);
      var session := RequireActiveSession(replies.manifest);
      if session.Err? {
        state := state.(authenticationStatus := M.Fail(session.error));
        return;
      }
      var id := session.value.id;
      calls := calls + [PostEvents(id, [Success])];
      if session.value.isOAuth {
        calls := calls + [PollOAuthResults(id)];
        if replies.oAuthResults.Err? {
          state := state.(authenticationStatus := M.Fail(replies.oAuthResults.error));
          return;
        }
        calls := calls + [CompleteSession(id, replies.oAuthResults.value.publicToken)];
        if replies.completed.Err? {
          state := state.(authenticationStatus := M.Fail(replies.completed.error));
          return;
        }
        var command := config.toNavigationCommand(replies.completed.value.nextPane);
        navigation := navigation + [N.NavigateTo(command, true, eventId)];
      } else {
        navigation := navigation + [N.NavigateTo(N.AccountPicker, true, eventId)];
      }
    }

    /** `onSelectAnotherBank`: to the reset pane, popping this one. */
    method OnSelectAnotherBank(eventId: string)
      modifies this
      ensures navigation == old(navigation) + [N.NavigateTo(N.Reset, true, eventId)]
      ensures state == old(state) && calls == old(calls)
    {
      navigation := navigation + [N.NavigateTo(N.Reset, true, eventId)];
    }

    /** `onEnterDetailsManuallyClick`: to manual entry, popping this pane. */
    method OnEnterDetailsManuallyClick(eventId: string)
      modifies this
      ensures navigation == old(navigation) + [N.NavigateTo(N.ManualEntry, true, eventId)]
      ensures state == old(state) && calls == old(calls)
    {
      navigation := navigation + [N.NavigateTo(N.ManualEntry, true, eventId)];
    }

    /**
     * `onClickableTextClick(uri)`: a network URL is opened, the data-access
     * link opens the bottom sheet, anything else is only logged. The URL
     * checks and the click time `now` are inputs.
     */
    method OnClickableTextClick(uri: string, isNetworkUrl: bool, isDataLink: bool, now: int)
      modifies this
      ensures isNetworkUrl ==> state == old(state).(viewEffect := Some(OpenUrl(uri, now)))
      ensures !isNetworkUrl && isDataLink ==> state == old(state).(viewEffect := Some(OpenBottomSheet(now)))
      ensures !isNetworkUrl && !isDataLink ==> state == old(state)
      ensures calls == old(calls) && navigation == old(navigation)
    {
      if isNetworkUrl {
        state := state.(viewEffect := Some(OpenUrl(uri, now)));
      } else if isDataLink {
        state := state.(viewEffect := Some(OpenBottomSheet(now)));
      }
    }

    /** `onViewEffectLaunched`: the effect is consumed and nothing else changes. */
    method OnViewEffectLaunched()
      modifies this
      ensures state == old(state).(viewEffect := None)
      ensures calls == old(calls) && navigation == old(navigation)
    {
      state := state.(viewEffect := None);
    }
  }
}
