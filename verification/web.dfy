/**
 * The web login coordinator: WebAuthTrigger (which owns the published state
 * and a local copy of the nonce) and TruecallerJsCallbackHandler (which holds
 * the copy that callbacks are checked against). Coroutine launches on the
 * main dispatcher are taken as immediate, in program order.
 */
module Web {
  import opened Wrappers
  import opened Auth
  import Nonce

  const PartnerKey := "pkPJN4ffeb3d90a4a40ad80adf32217eafc83"
  const PartnerName := "Flattr"
  const PrivacyPolicyUrl := "https://flattr.io/privacy"
  const TermsUrl := "https://flattr.io/tnc"
  const CustomDomain := "https://flattr.io"

  const SdkNotAvailable := "Truecaller SDK not available."
  const InitiationFailedPrefix := "Failed to initiate Truecaller login: "
  const NonceMismatch := "Security check failed (Nonce mismatch)."
  const MissingToken := "Success callback missing access token."
  const UnknownSdkError := "Unknown Truecaller Web SDK error"
  const UserCancelled := "User cancelled Truecaller login."
  const UnknownStatusPrefix := "Unknown callback status: "
  const ScriptLoadFailed := "Failed to load Truecaller SDK script."

  // ---------------------------------------------------------------------
  // The options object handed to `triggerTruecallerLogin`.

  /** The function reference stored in `callback`: always the exported handler. */
  datatype CallbackTarget = HandleTruecallerCallbackExported

  datatype SdkOptions = SdkOptions(customDomain: string)

  datatype TruecallerOptions = TruecallerOptions(
    requestNonce: string,
    callback: CallbackTarget,
    partnerKey: string,
    partnerName: string,
    lang: string,
    privacyUrl: string,
    termsUrl: string,
    loginHint: string,
    consentTitle: string,
    ctaText: string,
    buttonColor: string,
    buttonTextColor: string,
    sdkOptions: SdkOptions)

  /** `buildTruecallerOptionsJsObject`. */
  function BuildOptions(nonce: string): (o: TruecallerOptions)
    ensures o.requestNonce == nonce
  {
    TruecallerOptions(
      requestNonce := nonce,
      callback := HandleTruecallerCallbackExported,
      partnerKey := PartnerKey,
      partnerName := PartnerName,
      lang := "en",
      privacyUrl := PrivacyPolicyUrl,
      termsUrl := TermsUrl,
      loginHint := "",
      consentTitle := "Login with Truecaller",
      ctaText := "continue",
      buttonColor := "#4285F4",
      buttonTextColor := "#FFFFFF",
      sdkOptions := SdkOptions(CustomDomain))
  }

  /** Only `requestNonce` depends on the nonce; the rest is fixed configuration. */
  lemma OptionsDependOnlyOnNonce(a: string, b: string)
    ensures BuildOptions(a).(requestNonce := b) == BuildOptions(b)
    ensures BuildOptions(a) == BuildOptions(b) <==> a == b
    ensures BuildOptions(a).lang == "en" && BuildOptions(a).loginHint == ""
    ensures BuildOptions(a).callback == HandleTruecallerCallbackExported
  {
  }

  // ---------------------------------------------------------------------
  // State of the two objects.

  /** WebAuthTrigger's fields `state` and `currentRequestNonce`. */
  datatype WebAuthTrigger = WebAuthTrigger(state: AuthState, requestNonce: Option<string>)

  /** TruecallerJsCallbackHandler's fields; `registered` says `authTrigger` is set. */
  datatype CallbackHandler = CallbackHandler(registered: bool, requestNonce: Option<string>)

  /** The page: the one trigger `main` creates and the handler it is registered with. */
  datatype WebSession = WebSession(trigger: WebAuthTrigger, handler: CallbackHandler)

  /** The page before `main` runs `initialize`. */
  const PageLoaded: WebSession :=
    WebSession(WebAuthTrigger(Initial, None), CallbackHandler(false, None))

  /** `WebAuthTrigger.updateAuthState`: a terminal state also drops the local nonce. */
  function UpdateAuthState(t: WebAuthTrigger, s: AuthState): (r: WebAuthTrigger)
    ensures r.state == s
    ensures r.requestNonce.None? <==> s.IsTerminal() || t.requestNonce.None?
    ensures r.requestNonce.Some? ==> r.requestNonce == t.requestNonce
  {
    if s.IsTerminal() then WebAuthTrigger(s, None) else WebAuthTrigger(s, t.requestNonce)
  }

  /** `TruecallerJsCallbackHandler.initialize` with the page's trigger. */
  function Initialize(h: CallbackHandler): (r: CallbackHandler)
    ensures r.registered && r.requestNonce == h.requestNonce
  {
    h.(registered := true)
  }

  /** `TruecallerJsCallbackHandler.setCurrentNonce`. */
  function SetCurrentNonce(h: CallbackHandler, nonce: string): (r: CallbackHandler)
    ensures r.requestNonce == Some(nonce) && r.registered == h.registered
  {
    h.(requestNonce := Some(nonce))
  }

  /** `TruecallerJsCallbackHandler.clearNonce`. */
  function ClearNonce(h: CallbackHandler): (r: CallbackHandler)
    ensures r.requestNonce.None? && r.registered == h.registered
  {
    h.(requestNonce := None)
  }

  /** `WebAuthTrigger.setRequestNonce`: a null nonce is not forwarded to the handler. */
  function SetRequestNonce(s: WebSession, nonce: Option<string>): (r: WebSession)
    ensures r.trigger.requestNonce == nonce && r.trigger.state == s.trigger.state
    ensures nonce.Some? ==> r.handler == SetCurrentNonce(s.handler, nonce.value)
    ensures nonce.None? ==> r.handler == s.handler
  {
    var handler := match nonce
      case Some(n) => SetCurrentNonce(s.handler, n)
      case None => s.handler;
    WebSession(s.trigger.(requestNonce := nonce), handler)
  }

  /** The handler calling `trigger.updateAuthState`. */
  function Publish(s: WebSession, st: AuthState): WebSession {
    s.(trigger := UpdateAuthState(s.trigger, st))
  }

  // ---------------------------------------------------------------------
  // startTruecallerLogin

  /** A Throwable out of the external call: its JS rendering and its message, both nullable. */
  datatype JsThrowable = JsThrowable(jsText: Option<string>, message: Option<string>)

  function ThrowableText(e: JsThrowable): string {
    e.jsText.GetOr(e.message.GetOr("Unknown error"))
  }

  datatype StartOutcome = StartOutcome(
    session: WebSession,
    published: seq<AuthState>,             // every state handed to updateAuthState, in order
    invoked: Option<TruecallerOptions>)    // the argument of triggerTruecallerLogin, if it was called

  /**
   * `WebAuthTrigger.startTruecallerLogin`. `scriptLoaded` is
   * `isTruecallerScriptLoaded()`, `draw` the random picks of `generateNonce`,
   * `thrown` what `triggerTruecallerLogin` threw, if anything.
   */
  function StartLogin(s: WebSession, scriptLoaded: bool, draw: nat -> Nonce.AlphabetIndex,
                      thrown: Option<JsThrowable>): (r: StartOutcome)
    ensures |r.published| >= 1 && r.published[0] == Loading
    ensures r.session.trigger.state == r.published[|r.published| - 1]
    ensures r.session.handler.registered == s.handler.registered
    ensures !scriptLoaded ==>
      && r.published == [Loading, Error(SdkNotAvailable)]
      && r.invoked.None?
      && r.session.handler == s.handler
      && r.session.trigger.requestNonce.None?
    ensures scriptLoaded ==>
      && r.invoked == Some(BuildOptions(Nonce.GenerateNonce(Nonce.DefaultLength, draw)))
      && |r.invoked.value.requestNonce| == Nonce.DefaultLength
      && (forall k :: 0 <= k < Nonce.DefaultLength ==> Nonce.IsAlphanumeric(r.invoked.value.requestNonce[k]))
      // the handler holds the issued nonce whether or not the external call threw
      && r.session.handler.requestNonce == Some(r.invoked.value.requestNonce)
    ensures scriptLoaded && thrown.None? ==>
      && r.published == [Loading]
      && r.session.trigger.requestNonce == Some(r.invoked.value.requestNonce)
    ensures scriptLoaded && thrown.Some? ==>
      && r.published == [Loading, Error(InitiationFailedPrefix + ThrowableText(thrown.value))]
      && r.session.trigger.requestNonce.None?
  {
    var loading := Publish(s, Loading);
    if !scriptLoaded then
      StartOutcome(Publish(loading, Error(SdkNotAvailable)), [Loading, Error(SdkNotAvailable)], None)
    else
      var nonce := Nonce.GenerateNonce(Nonce.DefaultLength, draw);
      var issued := SetRequestNonce(loading, Some(nonce));
      var options := BuildOptions(nonce);
      match thrown
      case None => StartOutcome(issued, [Loading], Some(options))
      case Some(e) =>
        var failure := Error(InitiationFailedPrefix + ThrowableText(e));
        StartOutcome(SetRequestNonce(Publish(issued, failure), None), [Loading, failure], Some(options))
  }

  // ---------------------------------------------------------------------
  // Callbacks

  /** `TruecallerCallbackData`: every field may be null. */
  datatype CallbackData = CallbackData(
    status: Option<string>,
    message: Option<string>,
    accessToken: Option<string>,
    requestNonce: Option<string>)

  /** The nonce check: a stored nonce exists and the callback echoes it. */
  predicate NonceVerified(stored: Option<string>, echoed: Option<string>) {
    stored.Some? && stored == echoed
  }

  /** The `when (data.status)` classification, once the nonce is verified. */
  function VerifiedOutcome(data: CallbackData): (r: AuthState)
    ensures r.IsTerminal()
    ensures r.Success? <==> data.status == Some("success") && data.accessToken.Some?
    ensures r.Success? ==> r.authCode == data.accessToken.value
    ensures data.status == Some("success") && data.accessToken.None? ==> r == Error(MissingToken)
    ensures data.status == Some("failure") ==> r == Error(data.message.GetOr(UnknownSdkError))
    ensures data.status == Some("user_cancelled") ==> r == Error(UserCancelled)
    ensures data.status !in {Some("success"), Some("failure"), Some("user_cancelled")} ==>
      r == Error(UnknownStatusPrefix + Interpolate(data.status))
  {
    if data.status == Some("success") then
      match data.accessToken
      case Some(token) => Success(token)
      case None => Error(MissingToken)
    else if data.status == Some("failure") then Error(data.message.GetOr(UnknownSdkError))
    else if data.status == Some("user_cancelled") then Error(UserCancelled)
    else Error(UnknownStatusPrefix + Interpolate(data.status))
  }

  /** `TruecallerJsCallbackHandler.handleTruecallerCallback`. */
  function HandleCallback(s: WebSession, data: CallbackData): (r: WebSession)
    ensures !s.handler.registered ==> r == s
    ensures s.handler.registered ==>
      && r.handler == ClearNonce(s.handler)
      && r.trigger.requestNonce.None?
      && r.trigger.state.IsTerminal()
    ensures s.handler.registered && !NonceVerified(s.handler.requestNonce, data.requestNonce) ==>
      r.trigger.state == Error(NonceMismatch)
    ensures s.handler.registered && NonceVerified(s.handler.requestNonce, data.requestNonce) ==>
      r.trigger.state == VerifiedOutcome(data)
  {
    if !s.handler.registered then s
    else
      var outcome :=
        if NonceVerified(s.handler.requestNonce, data.requestNonce) then VerifiedOutcome(data)
        else Error(NonceMismatch);
      WebSession(UpdateAuthState(s.trigger, outcome), ClearNonce(s.handler))
  }

  /** `TruecallerJsCallbackHandler.handleTruecallerScriptError`: the handler's nonce is left alone. */
  function HandleScriptError(s: WebSession): (r: WebSession)
    ensures r.handler == s.handler
    ensures s.handler.registered ==> r.trigger == WebAuthTrigger(Error(ScriptLoadFailed), None)
    ensures !s.handler.registered ==> r == s
  {
    if s.handler.registered then Publish(s, Error(ScriptLoadFailed)) else s
  }

  /** A login succeeds only through a callback that echoes the issued nonce with status "success". */
  lemma SuccessNeedsIssuedNonce(s: WebSession, data: CallbackData)
    requires s.handler.registered
    ensures HandleCallback(s, data).trigger.state.Success? <==>
      && s.handler.requestNonce.Some?
      && data.requestNonce == s.handler.requestNonce
      && data.status == Some("success")
      && data.accessToken.Some?
  {
  }

  /** A completed start followed by a callback logs in exactly when the callback echoes this start's nonce. */
  lemma SuccessEchoesNonceOfStart(s: WebSession, draw: nat -> Nonce.AlphabetIndex, data: CallbackData)
    requires s.handler.registered
    ensures
      var started := StartLogin(s, true, draw, None).session;
      HandleCallback(started, data).trigger.state.Success? <==>
        && data.requestNonce == Some(Nonce.GenerateNonce(Nonce.DefaultLength, draw))
        && data.status == Some("success")
        && data.accessToken.Some?
  {
  }

  /** Before the nonce matches, the payload is ignored. */
  lemma PayloadIgnoredOnMismatch(s: WebSession, d1: CallbackData, d2: CallbackData)
    requires d1.requestNonce == d2.requestNonce
    requires !NonceVerified(s.handler.requestNonce, d1.requestNonce)
    ensures HandleCallback(s, d1) == HandleCallback(s, d2)
  {
  }

  /** A handled callback cannot be replayed, whatever it carries. */
  lemma ReplayRejected(s: WebSession, data: CallbackData)
    requires s.handler.registered
    ensures HandleCallback(HandleCallback(s, data), data).trigger.state == Error(NonceMismatch)
  {
  }

  // ---------------------------------------------------------------------
  // Whole sessions

  datatype Event =
    | Register
    | Start(scriptLoaded: bool, draw: nat -> Nonce.AlphabetIndex, thrown: Option<JsThrowable>)
    | Callback(data: CallbackData)
    | ScriptError
    | Update(state: AuthState)

  function Step(s: WebSession, e: Event): WebSession {
    match e
    case Register => s.(handler := Initialize(s.handler))
    case Start(loaded, draw, thrown) => StartLogin(s, loaded, draw, thrown).session
    case Callback(d) => HandleCallback(s, d)
    case ScriptError => HandleScriptError(s)
    case Update(st) => Publish(s, st)
  }

  function Run(s: WebSession, events: seq<Event>): WebSession
    decreases |events|
  {
    if |events| == 0 then s else Run(Step(s, events[0]), events[1..])
  }

  /** The trigger's copy of the nonce, when present, is the handler's copy. */
  predicate NonceCoherent(s: WebSession) {
    s.trigger.requestNonce.Some? ==> s.trigger.requestNonce == s.handler.requestNonce
  }

  lemma StepPreservesCoherence(s: WebSession, e: Event)
    requires NonceCoherent(s)
    ensures NonceCoherent(Step(s, e))
  {
  }

  /** Whatever the page, the script and the UI do, the two copies never disagree. */
  lemma {:induction false} RunPreservesCoherence(s: WebSession, events: seq<Event>)
    requires NonceCoherent(s)
    ensures NonceCoherent(Run(s, events))
    decreases |events|
  {
    if |events| > 0 {
      StepPreservesCoherence(s, events[0]);
      RunPreservesCoherence(Step(s, events[0]), events[1..]);
    }
  }

  // ---------------------------------------------------------------------
  // Finding: when the external call throws, only the trigger's copy is cleared.

  /** Picks the first alphabet character every time, giving "AAAAAAAAAAAAAAAA". */
  function FirstPick(k: nat): Nonce.AlphabetIndex {
    0
  }

  /** As written: after a failed start and a reset, a callback echoing the issued nonce logs in. */
  lemma StaleNonceAcceptedAfterFailedStart()
    ensures
      var page := PageLoaded.(handler := Initialize(PageLoaded.handler));
      var failed := StartLogin(page, true, FirstPick, Some(JsThrowable(None, Some("popup blocked"))));
      var reset := Publish(failed.session, Initial);
      var issued := failed.invoked.value.requestNonce;
      && failed.session.trigger.state.Error?
      && HandleCallback(reset, CallbackData(Some("success"), None, Some("tok"), Some(issued))).trigger.state
         == Success("tok")
  {
  }

  /**
   * Following the screen's rules (start from Initial, reset from a terminal state),
   * a script error and a start with the script not loaded leave the first start's
   * nonce live in the handler, and a callback echoing it logs in.
   */
  lemma StaleNonceAcceptedAfterScriptError()
    ensures
      var page := PageLoaded.(handler := Initialize(PageLoaded.handler));
      var first := StartLogin(page, true, FirstPick, None);
      var issued := first.invoked.value.requestNonce;
      var errored := HandleScriptError(first.session);
      var reset := Publish(errored, Initial);
      var second := StartLogin(reset, false, FirstPick, None);
      && errored.trigger.state.Error?
      && second.session.trigger.state == Error(SdkNotAvailable)
      && HandleCallback(second.session, CallbackData(Some("success"), None, Some("tok"), Some(issued))).trigger.state
         == Success("tok")
  {
  }

  /** As evidently intended: a failed external call also clears the handler's nonce. */
  function StartLoginIntended(s: WebSession, scriptLoaded: bool, draw: nat -> Nonce.AlphabetIndex,
                              thrown: Option<JsThrowable>): (r: StartOutcome)
    ensures r.session.trigger.state == StartLogin(s, scriptLoaded, draw, thrown).session.trigger.state
    ensures scriptLoaded && thrown.Some? ==>
      r.session.trigger.requestNonce.None? && r.session.handler.requestNonce.None?
    ensures !(scriptLoaded && thrown.Some?) ==> r == StartLogin(s, scriptLoaded, draw, thrown)
  {
    var r := StartLogin(s, scriptLoaded, draw, thrown);
    if scriptLoaded && thrown.Some? then r.(session := r.session.(handler := ClearNonce(r.session.handler)))
    else r
  }

  /** With the intended clean-up, no callback can succeed after a start that failed. */
  lemma IntendedFailedStartRejectsCallbacks(s: WebSession, draw: nat -> Nonce.AlphabetIndex,
                                            e: JsThrowable, st: AuthState, data: CallbackData)
    requires s.handler.registered
    ensures
      var failed := StartLoginIntended(s, true, draw, Some(e)).session;
      HandleCallback(Publish(failed, st), data).trigger.state == Error(NonceMismatch)
  {
  }
}
