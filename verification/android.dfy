/**
 * The Android login coordinator (MainActivity): it issues an OAuth `state`
 * (the CSRF guard of section 10.12 of RFC 6749) and a PKCE verifier and
 * challenge (RFC 7636), hands them to the Truecaller SDK, and maps the SDK's
 * three callbacks onto AuthState.
 */
module Android {
  import opened Wrappers
  import opened Auth
  import Radix

  /** The activity's mutable fields `authState`, `currentState`, `currentCodeVerifier`. */
  datatype Coordinator = Coordinator(
    authState: AuthState,
    currentState: Option<string>,
    currentCodeVerifier: Option<string>)

  /** The activity as created: nothing issued yet. */
  const Launched: Coordinator := Coordinator(Initial, None, None)

  /** What `TcSdk.getInstance()` reports when non-null. */
  datatype SdkInstance = SdkInstance(isOAuthFlowUsable: bool)

  /** The calls the coordinator makes on the SDK instance, in order. */
  datatype SdkCall =
    | SetOAuthState(state: string)
    | SetCodeChallenge(challenge: string)
    | SetOAuthScopes(scopes: seq<string>)
    | GetAuthorizationCode

  /** The result of one `startTruecallerLogin`. */
  datatype StartOutcome = StartOutcome(
    coordinator: Coordinator,
    published: seq<AuthState>,   // every value assigned to `authState`, in order
    calls: seq<SdkCall>)

  /** `TcOAuthData` as far as the coordinator reads it. */
  datatype OAuthData = OAuthData(state: Option<string>, authorizationCode: Option<string>)

  /** `TcOAuthError`. */
  datatype OAuthError = OAuthError(errorCode: int, errorMessage: Option<string>)

  const Scopes: seq<string> := ["profile", "phone", "email"]
  const TestModeErrorCode: int := 40306

  const SdkInitFailed := "Failed to initialize Truecaller SDK"
  const NotReady := "Truecaller app is not installed or not ready"
  const VerifierFailed := "Failed to generate code verifier"
  const ChallengeFailed := "Failed to generate code challenge"
  const NullAuthCode := "Received null authorization code"
  const StateMismatch := "State mismatch error - potential security issue"
  const TestModePrefix := "Test mode error: "
  const TestModeMessage := TestModePrefix + "Phone number not allowed in test mode"
  const FlowFailedPrefix := "OAuth flow failed: "
  const VerificationPrefix := "Verification required: "

  /** `generateState`: a 130-bit random value in radix 32. */
  function GenerateState(seed: Radix.StateSeed): (s: string)
    ensures Radix.IsCanonical(s) && 1 <= |s| <= 26
    ensures Radix.FromBase32(s) == seed
  {
    Radix.StateLength(seed);
    Radix.FromToBase32(seed);
    Radix.ToBase32(seed)
  }

  /** `clearOAuthState`: forget the issued `state` and verifier. */
  function ClearOAuthState(c: Coordinator): (r: Coordinator)
    ensures r.authState == c.authState
    ensures r.currentState.None? && r.currentCodeVerifier.None?
  {
    c.(currentState := None, currentCodeVerifier := None)
  }

  lemma ClearIsIdempotent(c: Coordinator)
    ensures ClearOAuthState(ClearOAuthState(c)) == ClearOAuthState(c)
  {
  }

  /** `updateAuthState`: replaces the published state and nothing else. */
  function UpdateAuthState(c: Coordinator, s: AuthState): (r: Coordinator)
    ensures r.authState == s
    ensures r.currentState == c.currentState && r.currentCodeVerifier == c.currentCodeVerifier
  {
    c.(authState := s)
  }

  /**
   * `startTruecallerLogin`. `sdk` is `TcSdk.getInstance()`, `seed` the random
   * draw of `generateState`, `verifier` the result of
   * `generateRandomCodeVerifier()` and `challenge` the result of
   * `getCodeChallenge(verifier)` (consulted only for a non-null verifier).
   */
  function StartLogin(c: Coordinator, sdk: Option<SdkInstance>, seed: Radix.StateSeed,
                      verifier: Option<string>, challenge: Option<string>): (r: StartOutcome)
    ensures |r.published| >= 1 && r.published[0] == Loading
    ensures r.coordinator.authState == r.published[|r.published| - 1]
    // not ready: an error, with the stored values untouched and the SDK not driven
    ensures sdk.None? ==>
      r.published == [Loading, Error(SdkInitFailed)] && r.calls == []
      && r.coordinator == c.(authState := Error(SdkInitFailed))
    ensures sdk.Some? && !sdk.value.isOAuthFlowUsable ==>
      r.published == [Loading, Error(NotReady)] && r.calls == []
      && r.coordinator == c.(authState := Error(NotReady))
    // usable: a fresh `state` is issued to the SDK before anything else
    ensures sdk.Some? && sdk.value.isOAuthFlowUsable ==>
      |r.calls| >= 1 && r.calls[0] == SetOAuthState(GenerateState(seed))
    ensures sdk.Some? && sdk.value.isOAuthFlowUsable && verifier.None? ==>
      && r.coordinator == Coordinator(Error(VerifierFailed), None, None)
      && r.published == [Loading, Error(VerifierFailed)] && |r.calls| == 1
    ensures sdk.Some? && sdk.value.isOAuthFlowUsable && verifier.Some? && challenge.None? ==>
      && r.coordinator == Coordinator(Error(ChallengeFailed), None, None)
      && r.published == [Loading, Error(ChallengeFailed)] && |r.calls| == 1
    ensures sdk.Some? && sdk.value.isOAuthFlowUsable && verifier.Some? && challenge.Some? ==>
      && r.coordinator == Coordinator(Loading, Some(GenerateState(seed)), verifier)
      && r.published == [Loading]
      && r.calls == [SetOAuthState(GenerateState(seed)), SetCodeChallenge(challenge.value),
                     SetOAuthScopes(["profile", "phone", "email"]), GetAuthorizationCode]
    // the SDK flow is launched exactly when the attempt stays in Loading
    ensures GetAuthorizationCode in r.calls <==> r.coordinator.authState == Loading
  {
    var loading := UpdateAuthState(c, Loading);
    match sdk
    case None =>
      StartOutcome(UpdateAuthState(loading, Error(SdkInitFailed)), [Loading, Error(SdkInitFailed)], [])
    case Some(instance) =>
      if !instance.isOAuthFlowUsable then
        StartOutcome(UpdateAuthState(loading, Error(NotReady)), [Loading, Error(NotReady)], [])
      else
        var state := GenerateState(seed);
        var issued := loading.(currentState := Some(state), currentCodeVerifier := verifier);
        match verifier
        case None =>
          var failed := UpdateAuthState(ClearOAuthState(issued), Error(VerifierFailed));
          StartOutcome(failed, [Loading, Error(VerifierFailed)], [SetOAuthState(state)])
        case Some(v) =>
          match challenge
          case None =>
            var failed := UpdateAuthState(ClearOAuthState(issued), Error(ChallengeFailed));
            StartOutcome(failed, [Loading, Error(ChallengeFailed)], [SetOAuthState(state)])
          case Some(ch) =>
            StartOutcome(issued, [Loading],
              [SetOAuthState(state), SetCodeChallenge(ch), SetOAuthScopes(Scopes), GetAuthorizationCode])
  }

  /** `onSuccess`: the echoed `state` is compared with plain equality of nullable strings. */
  function OnSuccess(c: Coordinator, data: OAuthData): (r: Coordinator)
    ensures r.currentState.None? && r.currentCodeVerifier.None?
    ensures r.authState.Success? <==> c.currentState == data.state && data.authorizationCode.Some?
    ensures r.authState.Success? ==> r.authState.authCode == data.authorizationCode.value
    ensures c.currentState != data.state ==> r.authState == Error(StateMismatch)
    ensures c.currentState == data.state && data.authorizationCode.None? ==>
      r.authState == Error(NullAuthCode)
  {
    var outcome :=
      if c.currentState == data.state then
        match data.authorizationCode
        case Some(code) => Success(code)
        case None => Error(NullAuthCode)
      else Error(StateMismatch);
    ClearOAuthState(UpdateAuthState(c, outcome))
  }

  /** `onFailure`: no `state` check; one error code gets a friendlier message. */
  function OnFailure(c: Coordinator, err: OAuthError): (r: Coordinator)
    ensures r.currentState.None? && r.currentCodeVerifier.None?
    ensures r.authState.Error?
    ensures r.authState == Error(TestModeMessage) <==> err.errorCode == TestModeErrorCode
    ensures err.errorCode != TestModeErrorCode ==>
      r.authState.message == FlowFailedPrefix + Interpolate(err.errorMessage)
  {
    var message :=
      if err.errorCode == TestModeErrorCode then TestModeMessage
      else FlowFailedPrefix + Interpolate(err.errorMessage);
    assert TestModeMessage[0] == 'T' && FlowFailedPrefix[0] == 'O';
    assert err.errorCode != TestModeErrorCode ==> message[0] != TestModeMessage[0];
    ClearOAuthState(UpdateAuthState(c, Error(message)))
  }

  /** `onVerificationRequired`: the error object and its message may both be null. */
  function OnVerificationRequired(c: Coordinator, err: Option<OAuthError>): (r: Coordinator)
    ensures r.currentState.None? && r.currentCodeVerifier.None?
    ensures r.authState.Error?
    ensures err.Some? && err.value.errorMessage.Some? ==>
      r.authState.message == VerificationPrefix + err.value.errorMessage.value
    ensures err.None? || err.value.errorMessage.None? ==>
      r.authState.message == VerificationPrefix + "Unknown error"
  {
    var detail :=
      match err
      case Some(e) => e.errorMessage.GetOr("Unknown error")
      case None => "Unknown error";
    ClearOAuthState(UpdateAuthState(c, Error(VerificationPrefix + detail)))
  }

  /** A callback result that reached the coordinator cannot be replayed with a non-null `state`. */
  lemma ReplayRejected(c: Coordinator, data: OAuthData)
    requires data.state.Some?
    ensures OnSuccess(OnSuccess(c, data), data).authState == Error(StateMismatch)
  {
  }

  /** Before the `state` matches, the payload is ignored: two callbacks echoing the same `state` are alike. */
  lemma PayloadIgnoredOnMismatch(c: Coordinator, d1: OAuthData, d2: OAuthData)
    requires d1.state == d2.state && c.currentState != d1.state
    ensures OnSuccess(c, d1) == OnSuccess(c, d2)
  {
  }

  // ---------------------------------------------------------------------
  // Whole sessions: the UI starts only from Initial and resets only from a
  // terminal state; the SDK may deliver any callback at any time.

  datatype Event =
    | Start(sdk: Option<SdkInstance>, seed: Radix.StateSeed, verifier: Option<string>, challenge: Option<string>)
    | Succeeded(data: OAuthData)
    | Failed(err: OAuthError)
    | VerificationNeeded(verr: Option<OAuthError>)
    | Reset

  function Step(c: Coordinator, e: Event): Coordinator {
    match e
    case Start(sdk, seed, v, ch) => StartLogin(c, sdk, seed, v, ch).coordinator
    case Succeeded(d) => OnSuccess(c, d)
    case Failed(err) => OnFailure(c, err)
    case VerificationNeeded(err) => OnVerificationRequired(c, err)
    case Reset => UpdateAuthState(c, Initial)
  }

  /** The edges the login screen offers: start from Initial, reset from Success/Error. */
  predicate UiAllows(c: Coordinator, e: Event) {
    match e
    case Start(_, _, _, _) => c.authState.Initial?
    case Reset => c.authState.IsTerminal()
    case _ => true
  }

  function Run(c: Coordinator, events: seq<Event>): Coordinator
    decreases |events|
  {
    if |events| == 0 then c else Run(Step(c, events[0]), events[1..])
  }

  predicate Admissible(c: Coordinator, events: seq<Event>)
    decreases |events|
  {
    |events| == 0 || (UiAllows(c, events[0]) && Admissible(Step(c, events[0]), events[1..]))
  }

  /** At most one issued `state`, live exactly while Loading, always paired with a verifier. */
  predicate WellFormed(c: Coordinator) {
    && (c.authState.Loading? <==> c.currentState.Some?)
    && (c.currentState.Some? <==> c.currentCodeVerifier.Some?)
  }

  lemma StepPreservesWellFormed(c: Coordinator, e: Event)
    requires WellFormed(c) && UiAllows(c, e)
    ensures WellFormed(Step(c, e))
  {
  }

  lemma {:induction false} RunPreservesWellFormed(c: Coordinator, events: seq<Event>)
    requires WellFormed(c) && Admissible(c, events)
    ensures WellFormed(Run(c, events))
    decreases |events|
  {
    if |events| > 0 {
      StepPreservesWellFormed(c, events[0]);
      RunPreservesWellFormed(Step(c, events[0]), events[1..]);
    }
  }

  // ---------------------------------------------------------------------
  // Finding: with nothing issued, a callback echoing a null `state` matches.

  /** As written: a fresh activity accepts a success callback whose `state` is null. */
  lemma NullStateAccepted()
    ensures OnSuccess(Launched, OAuthData(None, Some("abc"))).authState == Success("abc")
  {
  }

  /** As evidently intended: a missing stored `state` never matches, as on the web. */
  function OnSuccessIntended(c: Coordinator, data: OAuthData): (r: Coordinator)
    ensures r.currentState.None? && r.currentCodeVerifier.None?
    ensures r.authState.Success? <==>
      c.currentState.Some? && c.currentState == data.state && data.authorizationCode.Some?
    ensures c.currentState.None? || c.currentState != data.state ==> r.authState == Error(StateMismatch)
  {
    if c.currentState.None? then ClearOAuthState(UpdateAuthState(c, Error(StateMismatch)))
    else OnSuccess(c, data)
  }

  /**
   * As written: a completed start followed by a success callback logs in
   * exactly when the callback echoes this start's `state` and carries a code.
   */
  lemma SuccessEchoesStateOfStartAsWritten(c: Coordinator, seed: Radix.StateSeed, v: string, ch: string,
                                           data: OAuthData)
    ensures
      var started := StartLogin(c, Some(SdkInstance(true)), seed, Some(v), Some(ch)).coordinator;
      OnSuccess(started, data).authState.Success? <==>
        data.state == Some(GenerateState(seed)) && data.authorizationCode.Some?
  {
  }

  /**
   * With the intended check, a completed start followed by a success callback
   * logs in exactly when the callback echoes this start's `state` and carries a code.
   */
  lemma SuccessEchoesStateOfStart(c: Coordinator, seed: Radix.StateSeed, v: string, ch: string,
                                  data: OAuthData)
    ensures
      var started := StartLogin(c, Some(SdkInstance(true)), seed, Some(v), Some(ch)).coordinator;
      OnSuccessIntended(started, data).authState.Success? <==>
        data.state == Some(GenerateState(seed)) && data.authorizationCode.Some?
  {
  }

  /** With the intended check, a well-formed coordinator only succeeds from Loading, and never twice. */
  lemma IntendedSuccessOnlyWhileLoading(c: Coordinator, data: OAuthData)
    requires WellFormed(c)
    ensures OnSuccessIntended(c, data).authState.Success? ==> c.authState.Loading?
    ensures OnSuccessIntended(OnSuccessIntended(c, data), data).authState == Error(StateMismatch)
  {
  }
}
