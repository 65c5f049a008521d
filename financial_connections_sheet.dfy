/**
 * The auth-flow state machine of the bank-account connections sheet
 * (financialconnections/FinancialConnectionsSheetViewModel.kt). The view
 * model holds a `FinancialConnectionsSheetState` and replaces it event by
 * event; the mutex around the lifecycle callbacks makes each event one
 * atomic step here. Backend calls are not made: their outcomes are inputs.
 */
module FinancialConnectionsSheet {
  import opened Wrappers
  import opened Strings

  datatype AuthFlowStatus = NONE | WEB | APP2APP

  /** The parts of the session manifest the sheet uses. */
  datatype Manifest = Manifest(hostedAuthUrl: string, successUrl: string, cancelUrl: string)

  /** The kind of `initialArgs`: what the sheet was launched to obtain. */
  datatype InitialArgs = ForData | ForToken | ForLink

  datatype Session = Session(id: string)
  datatype Token = Token(id: string)

  /** The payload of `Completed`, one shape per kind of launch. */
  datatype Completion =
    | SessionCompleted(session: Session)
    | TokenCompleted(session: Session, token: Token)
    | LinkedAccountCompleted(linkedAccountId: string)

  /** `FinancialConnectionsSheetActivityResult`; a failure keeps its exception's message. */
  datatype SheetResult = Completed(completion: Completion) | Canceled | Failed(error: string)

  datatype ViewEffect = OpenAuthFlowWithUrl(url: string) | FinishWithResult(result: SheetResult)

  datatype SheetState = SheetState(
    initialArgs: InitialArgs,
    manifest: Option<Manifest>,
    authFlowStatus: AuthFlowStatus,
    activityRecreated: bool,
    viewEffect: Option<ViewEffect>)

  /**
   * A parsed redirect `Uri`: its host and path, its string form, the string
   * form of `buildUpon().clearQuery()`, its fragment and its query
   * parameters (the first value of each).
   */
  datatype Uri = Uri(host: Option<string>, path: Option<string>, text: string,
                     withoutQuery: string, fragment: Option<string>, query: map<string, string>)

  const NATIVE_REDIRECT_HOST := "native-redirect"
  const LINK_ACCOUNTS_HOST := "link-accounts"
  const LOGIN_PATH := "/login"
  const NATIVE_REDIRECT_PREFIX := "stripe-auth://native-redirect/"
  const START_POLLING := "&startPolling=true&"
  const QUERY_PARAM_LINKED_ACCOUNT := "linked_account"
  const INTENT_ERROR_MESSAGE := "Error processing FinancialConnectionsSheet intent"
  /** The message of `requireNotNull` without a message of its own. */
  const REQUIRED_VALUE_NULL_MESSAGE := "Required value was null."

  /** `Any?.toString()`: `null` prints as "null". */
  function OrNull(s: Option<string>): string {
    s.GetOr("null")
  }

  /** `openAuthFlow(manifest)`: keep the manifest and open its hosted auth URL. */
  function OpenAuthFlow(s: SheetState, m: Manifest): (r: SheetState)
    ensures r.manifest == Some(m) && r.authFlowStatus == WEB
    ensures r.viewEffect == Some(OpenAuthFlowWithUrl(m.hostedAuthUrl))
    ensures r.initialArgs == s.initialArgs && r.activityRecreated == s.activityRecreated
  {
    s.(manifest := Some(m), authFlowStatus := WEB, viewEffect := Some(OpenAuthFlowWithUrl(m.hostedAuthUrl)))
  }

  /** `onFatal`: finish with `Failed`; nothing else changes. */
  function OnFatal(s: SheetState, error: string): (r: SheetState)
    ensures r.viewEffect == Some(FinishWithResult(Failed(error)))
    ensures r.(viewEffect := s.viewEffect) == s
  {
    s.(viewEffect := Some(FinishWithResult(Failed(error))))
  }

  /** The end of the manifest fetch (argument validation included). */
  function ManifestFetched(s: SheetState, outcome: Outcome<Manifest>): (r: SheetState)
    ensures outcome.Ok? ==> r == OpenAuthFlow(s, outcome.value)
    ensures outcome.Err? ==> r == OnFatal(s, outcome.error)
  {
    match outcome
    case Ok(m) => OpenAuthFlow(s, m)
    case Err(e) => OnFatal(s, e)
  }

  /** `onActivityRecreated`. */
  function ActivityRecreated(s: SheetState): (r: SheetState)
    ensures r.activityRecreated && r.(activityRecreated := s.activityRecreated) == s
  {
    s.(activityRecreated := true)
  }

  /**
   * The shared `when (authFlowStatus)` of `onResume` and `onActivityResult`:
   * back from the browser without a redirect, the web flow was abandoned,
   * and an app-to-app hop falls back to the web flow.
   */
  function BackWithoutRedirect(s: SheetState): (r: SheetState)
    ensures s.authFlowStatus == WEB ==>
      r.authFlowStatus == WEB && r.viewEffect == Some(FinishWithResult(Canceled))
    ensures s.authFlowStatus == APP2APP ==> r.authFlowStatus == WEB && r.viewEffect == s.viewEffect
    ensures s.authFlowStatus == NONE ==> r == s
    ensures r.manifest == s.manifest && r.activityRecreated == s.activityRecreated
    ensures r.initialArgs == s.initialArgs
  {
    match s.authFlowStatus
    case WEB => s.(viewEffect := Some(FinishWithResult(Canceled)))
    case APP2APP => s.(authFlowStatus := WEB)
    case NONE => s
  }

  /** `onResume`: acts only when the activity was not recreated. */
  function AfterResume(s: SheetState): (r: SheetState)
    ensures s.activityRecreated ==> r == s
    ensures !s.activityRecreated ==> r == BackWithoutRedirect(s)
  {
    if !s.activityRecreated then BackWithoutRedirect(s) else s
  }

  /** `onActivityResult`: the mirror image, acting only after a recreation. */
  function AfterActivityResult(s: SheetState): (r: SheetState)
    ensures !s.activityRecreated ==> r == s
    ensures s.activityRecreated ==> r == BackWithoutRedirect(s)
  {
    if s.activityRecreated then BackWithoutRedirect(s) else s
  }

  /**
   * Exactly one of the two callbacks reacts, neither touches the manifest or
   * the recreation flag, and the order in which they arrive does not matter.
   */
  lemma ResumeAndActivityResultAgree(s: SheetState)
    ensures AfterResume(s) == s || AfterActivityResult(s) == s
    ensures AfterResume(s).manifest == s.manifest && AfterResume(s).activityRecreated == s.activityRecreated
    ensures AfterActivityResult(s).manifest == s.manifest && AfterActivityResult(s).activityRecreated == s.activityRecreated
    ensures AfterActivityResult(AfterResume(s)) == AfterResume(AfterActivityResult(s)) == BackWithoutRedirect(s)
  {
    if s.authFlowStatus == APP2APP {
      assert BackWithoutRedirect(s).authFlowStatus != s.authFlowStatus;
    }
  }

  /** The branches of `handleOnNewIntent`'s `when`, in priority order. */
  datatype Route = NativeRedirect | LoginReturn | WebFlowSucceeded | WebFlowCancelled | Unrecognised

  /** `receivedUrl?.buildUpon()?.clearQuery().toString()`: a missing URL gives "null". */
  function StrippedUrl(url: Option<Uri>): (r: string)
    ensures url.Some? ==> r == url.value.withoutQuery
    ensures url.None? ==> r == "null"
  {
    if url.Some? then url.value.withoutQuery else "null"
  }

  /** `receivedUrl?.host == "native-redirect"`: a null URL never matches. */
  predicate IsNativeRedirect(url: Option<Uri>)
    ensures IsNativeRedirect(url) ==> url.Some?
  {
    url.Some? && url.value.host == Some(NATIVE_REDIRECT_HOST)
  }

  /** The login return URL; its host rules out a native redirect, so the two app-to-app tests are exclusive. */
  predicate IsLoginReturn(url: Option<Uri>)
    ensures IsLoginReturn(url) ==> url.Some? && !IsNativeRedirect(url)
  {
    url.Some? && url.value.host == Some(LINK_ACCOUNTS_HOST) && url.value.path == Some(LOGIN_PATH)
  }

  /** The `when` of `handleOnNewIntent`: the first test that holds picks the branch. */
  function RouteOf(s: SheetState, url: Option<Uri>): (route: Route)
    ensures route == NativeRedirect <==> IsNativeRedirect(url)
    ensures route == LoginReturn <==> !IsNativeRedirect(url) && IsLoginReturn(url)
    ensures route == WebFlowSucceeded <==>
      !IsNativeRedirect(url) && !IsLoginReturn(url)
      && s.manifest.Some? && StrippedUrl(url) == s.manifest.value.successUrl
    ensures route == WebFlowCancelled <==>
      !IsNativeRedirect(url) && !IsLoginReturn(url)
      && s.manifest.Some? && StrippedUrl(url) != s.manifest.value.successUrl
      && StrippedUrl(url) == s.manifest.value.cancelUrl
    ensures route == Unrecognised <==>
      !IsNativeRedirect(url) && !IsLoginReturn(url)
      && !(s.manifest.Some? && StrippedUrl(url) in {s.manifest.value.successUrl, s.manifest.value.cancelUrl})
  {
    if IsNativeRedirect(url) then NativeRedirect
    else if IsLoginReturn(url) then LoginReturn
    else if s.manifest.Some? && StrippedUrl(url) == s.manifest.value.successUrl then WebFlowSucceeded
    else if s.manifest.Some? && StrippedUrl(url) == s.manifest.value.cancelUrl then WebFlowCancelled
    else Unrecognised
  }

  /** The backend fetch a success redirect starts for data and token launches. */
  datatype Fetch = FetchSession | FetchSessionForToken

  /** The result of handling one event: the new state and any fetch started, or the exception that escaped. */
  datatype Step = Step(state: SheetState, launched: Option<Fetch>) | Crash(exception: string)

  /** `onSuccessFromLinkFlow`: the linked account id comes from the success URL's query. */
  function SuccessFromLinkFlow(s: SheetState, url: Option<Uri>): (r: SheetState)
    ensures r.(viewEffect := s.viewEffect) == s
    ensures r.viewEffect.Some? && r.viewEffect.value.FinishWithResult?
    ensures r.viewEffect.value.result.Completed? <==> url.Some? && QUERY_PARAM_LINKED_ACCOUNT in url.value.query
    ensures r.viewEffect.value.result.Completed? ==>
      r.viewEffect.value.result.completion == LinkedAccountCompleted(url.value.query[QUERY_PARAM_LINKED_ACCOUNT])
    ensures !(url.Some? && QUERY_PARAM_LINKED_ACCOUNT in url.value.query) ==> r == OnFatal(s, REQUIRED_VALUE_NULL_MESSAGE)
  {
    if url.Some? && QUERY_PARAM_LINKED_ACCOUNT in url.value.query then
      s.(viewEffect := Some(FinishWithResult(Completed(LinkedAccountCompleted(url.value.query[QUERY_PARAM_LINKED_ACCOUNT])))))
    else
      OnFatal(s, REQUIRED_VALUE_NULL_MESSAGE)
  }

  /** `onWebFlowSucceed`: back to NONE, then a fetch (data, token) or the link result. */
  function WebFlowSucceed(s: SheetState, url: Option<Uri>): (step: Step)
    ensures step.Step? && step.state.authFlowStatus == NONE
    ensures step.launched.Some? <==> !s.initialArgs.ForLink?
    ensures step.launched.Some? ==> step.state == s.(authFlowStatus := NONE)
    ensures s.initialArgs.ForData? ==> step.launched == Some(FetchSession)
    ensures s.initialArgs.ForToken? ==> step.launched == Some(FetchSessionForToken)
    ensures s.initialArgs.ForLink? ==> step == Step(SuccessFromLinkFlow(s.(authFlowStatus := NONE), url), None)
  {
    var s' := s.(authFlowStatus := NONE);
    match s.initialArgs
    case ForData => Step(s', Some(FetchSession))
    case ForToken => Step(s', Some(FetchSessionForToken))
    case ForLink => Step(SuccessFromLinkFlow(s', url), None)
  }

  /** `handleOnNewIntent(intent)`, with `url` the redirect it carries (`None` when missing or unparsable). */
  function AfterNewIntent(s: SheetState, url: Option<Uri>): (step: Step)
    ensures step.Crash? <==> RouteOf(s, url) == LoginReturn && s.manifest.None?
    // only the two app-to-app routes enter APP2APP
    ensures step.Step? ==>
      (step.state.authFlowStatus == APP2APP <==> RouteOf(s, url) in {NativeRedirect, LoginReturn})
    // every other route ends the flow
    ensures step.Step? && RouteOf(s, url) !in {NativeRedirect, LoginReturn} ==> step.state.authFlowStatus == NONE
    ensures step.Step? ==> step.state.manifest == s.manifest && step.state.activityRecreated == s.activityRecreated
    ensures step.Step? ==> step.state.initialArgs == s.initialArgs
    ensures step.Step? && step.launched.Some? ==> RouteOf(s, url) == WebFlowSucceeded
    // a success redirect is handed to `onWebFlowSucceed`
    ensures RouteOf(s, url) == WebFlowSucceeded ==> step == WebFlowSucceed(s, url)
  {
    match RouteOf(s, url)
    case NativeRedirect =>
      Step(s.(authFlowStatus := APP2APP,
              viewEffect := Some(OpenAuthFlowWithUrl(ReplaceFirst(url.value.text, NATIVE_REDIRECT_PREFIX, "")))), None)
    case LoginReturn =>
      if s.manifest.None? then Crash("NullPointerException")
      else
        Step(s.(authFlowStatus := APP2APP,
                viewEffect := Some(OpenAuthFlowWithUrl(s.manifest.value.hostedAuthUrl + START_POLLING + OrNull(url.value.fragment)))), None)
    case WebFlowSucceeded =>
      WebFlowSucceed(s, url)
    case WebFlowCancelled =>
      Step(s.(authFlowStatus := NONE, viewEffect := Some(FinishWithResult(Canceled))), None)
    case Unrecognised =>
      Step(OnFatal(s.(authFlowStatus := NONE), INTENT_ERROR_MESSAGE), None)
  }

  /** A redirect nothing recognises, or a missing one, fails the sheet. */
  lemma UnrecognisedFails(s: SheetState, url: Option<Uri>)
    requires RouteOf(s, url) == Unrecognised
    ensures AfterNewIntent(s, url) ==
      Step(s.(authFlowStatus := NONE, viewEffect := Some(FinishWithResult(Failed(INTENT_ERROR_MESSAGE)))), None)
  {
  }

  /** A missing URL is compared as the string "null": it is fatal unless a manifest URL is literally "null". */
  lemma MissingUrlFails(s: SheetState)
    requires !(s.manifest.Some? && "null" in {s.manifest.value.successUrl, s.manifest.value.cancelUrl})
    ensures AfterNewIntent(s, None).Step?
    ensures AfterNewIntent(s, None).state.authFlowStatus == NONE
    ensures AfterNewIntent(s, None).state.viewEffect == Some(FinishWithResult(Failed(INTENT_ERROR_MESSAGE)))
  {
  }

  /** The cancel URL ends the flow as `Canceled`. */
  lemma CancelUrlCancels(s: SheetState, url: Option<Uri>)
    requires RouteOf(s, url) == WebFlowCancelled
    ensures AfterNewIntent(s, url) ==
      Step(s.(authFlowStatus := NONE, viewEffect := Some(FinishWithResult(Canceled))), None)
  {
  }

  /**
   * A native redirect is recognised by its host alone; the first
   * `stripe-auth://native-redirect/` in its text, wherever it is, is removed,
   * and a text without one is opened as it is.
   */
  lemma NativeRedirectOpensTarget(s: SheetState, u: Uri)
    requires u.host == Some(NATIVE_REDIRECT_HOST)
    ensures NATIVE_REDIRECT_PREFIX <= u.text ==>
      AfterNewIntent(s, Some(u)) == Step(s.(authFlowStatus := APP2APP, viewEffect := Some(OpenAuthFlowWithUrl(u.text[|NATIVE_REDIRECT_PREFIX|..]))), None)
    ensures Absent(u.text, NATIVE_REDIRECT_PREFIX) ==>
      AfterNewIntent(s, Some(u)) == Step(s.(authFlowStatus := APP2APP, viewEffect := Some(OpenAuthFlowWithUrl(u.text))), None)
    ensures forall i: nat {:trigger OccursAt(u.text, NATIVE_REDIRECT_PREFIX, i)} ::
      OccursAt(u.text, NATIVE_REDIRECT_PREFIX, i) && NoneBefore(u.text, NATIVE_REDIRECT_PREFIX, i) ==>
        AfterNewIntent(s, Some(u)) ==
          Step(s.(authFlowStatus := APP2APP,
                  viewEffect := Some(OpenAuthFlowWithUrl(u.text[..i] + u.text[i + |NATIVE_REDIRECT_PREFIX|..]))), None)
  {
    if NATIVE_REDIRECT_PREFIX <= u.text {
      ReplaceFirstOfPrefix(u.text, NATIVE_REDIRECT_PREFIX, "");
      assert "" + u.text[|NATIVE_REDIRECT_PREFIX|..] == u.text[|NATIVE_REDIRECT_PREFIX|..];
    }
    forall i: nat | OccursAt(u.text, NATIVE_REDIRECT_PREFIX, i) && NoneBefore(u.text, NATIVE_REDIRECT_PREFIX, i)
      ensures ReplaceFirst(u.text, NATIVE_REDIRECT_PREFIX, "") == u.text[..i] + u.text[i + |NATIVE_REDIRECT_PREFIX|..]
    {
      assert u.text[..i] + "" + u.text[i + |NATIVE_REDIRECT_PREFIX|..] == u.text[..i] + u.text[i + |NATIVE_REDIRECT_PREFIX|..];
    }
  }

  /** The login return URL resumes the hosted flow with polling and the URL's fragment. */
  lemma LoginReturnResumesPolling(s: SheetState, u: Uri)
    requires u.host == Some(LINK_ACCOUNTS_HOST) && u.path == Some(LOGIN_PATH)
    requires s.manifest.Some?
    ensures AfterNewIntent(s, Some(u)) ==
      Step(s.(authFlowStatus := APP2APP,
              viewEffect := Some(OpenAuthFlowWithUrl(s.manifest.value.hostedAuthUrl + "&startPolling=true&" + OrNull(u.fragment)))), None)
  {
  }

  /** The success URL ends the flow and starts the fetch that matches the launch: the session for data, the session and token for a token. */
  lemma SuccessUrlStartsFetch(s: SheetState, url: Option<Uri>)
    requires RouteOf(s, url) == WebFlowSucceeded
    ensures s.initialArgs.ForData? ==> AfterNewIntent(s, url) == Step(s.(authFlowStatus := NONE), Some(FetchSession))
    ensures s.initialArgs.ForToken? ==> AfterNewIntent(s, url) == Step(s.(authFlowStatus := NONE), Some(FetchSessionForToken))
  {
  }

  /** In a link launch, the success URL completes exactly when it carries `linked_account`. */
  lemma LinkSuccessNeedsLinkedAccount(s: SheetState, url: Option<Uri>)
    requires RouteOf(s, url) == WebFlowSucceeded && s.initialArgs == ForLink
    ensures var step := AfterNewIntent(s, url);
      && step.Step? && step.launched.None? && step.state.authFlowStatus == NONE
      && (url.Some? && QUERY_PARAM_LINKED_ACCOUNT in url.value.query ==>
            step.state.viewEffect == Some(FinishWithResult(Completed(LinkedAccountCompleted(url.value.query[QUERY_PARAM_LINKED_ACCOUNT])))))
      && (!(url.Some? && QUERY_PARAM_LINKED_ACCOUNT in url.value.query) ==>
            step.state.viewEffect == Some(FinishWithResult(Failed(REQUIRED_VALUE_NULL_MESSAGE))))
  {
  }

  /** The outcome of the session fetch a data or token launch started. */
  datatype FetchOutcome = SessionFetched(session: Session) | SessionAndTokenFetched(session: Session, token: Token) | FetchFailed(error: string)

  /** The end of that fetch: `Completed` with what was fetched, or `onFatal`. */
  function FetchCompleted(s: SheetState, outcome: FetchOutcome): (r: SheetState)
    ensures r.(viewEffect := s.viewEffect) == s
    ensures r.viewEffect.Some? && r.viewEffect.value.FinishWithResult?
    ensures r.viewEffect.value.result.Failed? <==> outcome.FetchFailed?
    ensures outcome.SessionFetched? ==>
      r.viewEffect == Some(FinishWithResult(Completed(SessionCompleted(outcome.session))))
    ensures outcome.SessionAndTokenFetched? ==>
      r.viewEffect == Some(FinishWithResult(Completed(TokenCompleted(outcome.session, outcome.token))))
    ensures outcome.FetchFailed? ==> r == OnFatal(s, outcome.error)
  {
    match outcome
    case SessionFetched(session) => s.(viewEffect := Some(FinishWithResult(Completed(SessionCompleted(session)))))
    case SessionAndTokenFetched(session, token) => s.(viewEffect := Some(FinishWithResult(Completed(TokenCompleted(session, token)))))
    case FetchFailed(e) => OnFatal(s, e)
  }

  /** `onViewEffectLaunched`: the one-shot effect is consumed and nothing else changes. */
  function ViewEffectLaunched(s: SheetState): (r: SheetState)
    ensures r.viewEffect.None? && r.(viewEffect := s.viewEffect) == s
  {
    s.(viewEffect := None)
  }

  class FinancialConnectionsSheetViewModel {
    var state: SheetState
    /** Whether `init` started the manifest fetch and it has not ended. */
    var manifestFetchPending: bool

    constructor (initialState: SheetState)
      ensures state == initialState
      // `init` fetches the manifest only when the state holds none
      ensures manifestFetchPending <==> initialState.manifest.None?
    {
      state := initialState;
      manifestFetchPending := initialState.manifest == None;
    }

    method OnManifestFetched(outcome: Outcome<Manifest>)
      requires manifestFetchPending
      modifies this
      ensures !manifestFetchPending && state == ManifestFetched(old(state), outcome)
    {
      match outcome {
        case Ok(m) => state := OpenAuthFlow(state, m);
        case Err(e) => state := OnFatal(state, e);
      }
      manifestFetchPending := false;
    }

    method OnActivityRecreated()
      modifies this`state
      ensures state == ActivityRecreated(old(state))
    {
      state := state.(activityRecreated := true);
    }

    method OnResume()
      modifies this`state
      ensures state == AfterResume(old(state))
    {
      if !state.activityRecreated {
        state := BackWithoutRedirect(state);
      }
    }

    method OnActivityResult()
      modifies this`state
      ensures state == AfterActivityResult(old(state))
    {
      if state.activityRecreated {
        state := BackWithoutRedirect(state);
      }
    }

    /** Returns the fetch it started, or `threw` when the event ended in an exception (the state is then kept). */
    method HandleOnNewIntent(url: Option<Uri>) returns (launched: Option<Fetch>, threw: bool)
      modifies this`state
      ensures var step := AfterNewIntent(old(state), url);
        && threw == step.Crash?
        && (step.Step? ==> state == step.state && launched == step.launched)
        && (step.Crash? ==> state == old(state) && launched == None)
    {
      var step := AfterNewIntent(state, url);
      match step
      case Step(next, fetch) =>
        state := next;
        launched, threw := fetch, false;
      case Crash(_) =>
        launched, threw := None, true;
    }

    method OnFetchCompleted(outcome: FetchOutcome)
      modifies this`state
      ensures state == FetchCompleted(old(state), outcome)
    {
      state := FetchCompleted(state, outcome);
    }

    method OnViewEffectLaunched()
      modifies this`state
      ensures state == ViewEffectLaunched(old(state))
    {
      state := state.(viewEffect := None);
    }
  }
}
