# Flattr login handshake, modelled in Dafny

Flattr logs a user in through Truecaller's phone-verification provider. Each
platform has a coordinator that sits between the login screen and the provider
and publishes one `AuthState` (`Initial`, `Loading`, `Success(authCode)`,
`Error(message)`):

- **Android** (`MainActivity`). It issues an OAuth `state` (the CSRF guard of
  section 10.12 of RFC 6749) and a PKCE code verifier and challenge (RFC 7636).
  It hands them to the Truecaller SDK with the scopes `profile`, `phone` and
  `email`. The SDK's three callbacks (`onSuccess`, `onFailure`,
  `onVerificationRequired`) are then mapped onto `AuthState`, and each one
  clears the stored `state` and verifier.
- **Web** (`WebAuthTrigger` and `TruecallerJsCallbackHandler`). It issues a
  16-character alphanumeric nonce and builds the options record for the
  Truecaller script. A JavaScript callback is checked against the handler's
  copy of the nonce and then classified by its `status`.

Each coordinator is an immutable record, and each operation or callback is a
pure transition function. The SDK results, the readiness checks, the thrown
exception and the random draws are all parameters:

- the Android `state` comes from a 130-bit seed;
- the web nonce comes from a function that gives the alphabet index of each pick.

Files:
- `wrappers.dfy`: Kotlin nullables and how they print in a template.
- `auth_state.dfy`: `AuthState`.
- `radix.dfy`: `BigInteger(130, rnd).toString(32)`.
- `nonce.dfy`: `generateNonce`.
- `android.dfy`: `MainActivity`.
- `web.dfy`: `WebAuthTrigger`, `TruecallerJsCallbackHandler`, options.

Behaviour worth noting, as the code has it:
- On the web, an empty access token counts as a success; only a null one is rejected.
- A second start while `Loading` is not refused. The stored `state` (Android) or nonce (web) is replaced only on the path that issues a new one: a usable SDK on Android, a loaded script on the web. On the other start paths the old token stays live under an `Error` (Android: no SDK instance or an unusable flow; web: the handler's copy when the script is not loaded), and a later callback echoing it is still accepted. On Android the screen's rules (start only from `Initial`, reset only from Success/Error; `Android.UiAllows`) close this gap: `Android.RunPreservesWellFormed`. On the web they do not: the handler's copy survives a script error, a failed external call and a start with the script not loaded, and only the next callback clears it (`Web.StaleNonceAcceptedAfterScriptError`).
- When the external web trigger throws, the handler's nonce stays live (see Findings).

## Model

| member | source | states |
|---|---|---|
| Auth.ExactlyOneVariant | composeApp/src/commonMain/kotlin/com/flattr/app/auth/AuthState.kt:3-8 | every auth state is exactly one of the four variants; the terminal ones are exactly Success and Error |
| Auth.StructuralEquality | composeApp/src/commonMain/kotlin/com/flattr/app/auth/AuthState.kt:6-7 | Success and Error each carry one string and are equal exactly when their strings are; a Success never equals an Error |
| Radix.ToBase32 | composeApp/src/androidMain/kotlin/com/flattr/app/MainActivity.kt:190 | the radix-32 rendering is non-empty, uses only the digits 0-9 and a-v, has no leading zero, and starts with '0' only for zero |
| Radix.DigitThenValue | composeApp/src/androidMain/kotlin/com/flattr/app/MainActivity.kt:190 | the radix-32 digit for a value below 32 is a digit character and reads back to that value |
| Radix.ValueThenDigit | composeApp/src/androidMain/kotlin/com/flattr/app/MainActivity.kt:190 | every digit character has a value below 32 and is the digit printed for it |
| Radix.FromToBase32 | composeApp/src/androidMain/kotlin/com/flattr/app/MainActivity.kt:190 | reading the printed `state` back in radix 32 gives the drawn value |
| Radix.ToFromBase32 | composeApp/src/androidMain/kotlin/com/flattr/app/MainActivity.kt:190 | every canonical radix-32 string is the printing of the value it denotes, so the rendering is a bijection |
| Radix.ToBase32Length | composeApp/src/androidMain/kotlin/com/flattr/app/MainActivity.kt:190 | a value below 32^k prints in at most k digits |
| Radix.SeedBoundIsPow32 | composeApp/src/androidMain/kotlin/com/flattr/app/MainActivity.kt:190 | 130 random bits are exactly 26 radix-32 digits (32^26 = 2^130) |
| Radix.StateLength | composeApp/src/androidMain/kotlin/com/flattr/app/MainActivity.kt:189-191 | a generated `state` is at most 26 characters long |
| Android.GenerateState | composeApp/src/androidMain/kotlin/com/flattr/app/MainActivity.kt:189-191 | the `state` is a canonical radix-32 string of 1 to 26 characters that decodes to the random seed |
| Android.ClearOAuthState | composeApp/src/androidMain/kotlin/com/flattr/app/MainActivity.kt:193-198 | both stored values become null and the published state is kept |
| Android.ClearIsIdempotent | composeApp/src/androidMain/kotlin/com/flattr/app/MainActivity.kt:193-198 | clearing twice is the same as clearing once |
| Android.UpdateAuthState | composeApp/src/androidMain/kotlin/com/flattr/app/MainActivity.kt:200-202 | only the published state is replaced; the stored `state` and verifier are untouched |
| Android.StartLogin | composeApp/src/androidMain/kotlin/com/flattr/app/MainActivity.kt:80-124 | the published states start with Loading and end in the final state. No SDK instance gives "Failed to initialize Truecaller SDK", and a flow that is not usable gives "Truecaller app is not installed or not ready"; both leave the stored values alone and make no SDK call. When usable, the fresh `state` goes to the SDK first. A null verifier or null challenge clears both stored values and publishes Loading then its own message. Otherwise the attempt stays Loading with `state` and verifier stored, and the scopes are exactly profile, phone, email. The authorization flow is launched exactly when the result is Loading |
| Android.OnSuccess | composeApp/src/androidMain/kotlin/com/flattr/app/MainActivity.kt:127-149 | the result is Success exactly when the echoed `state` equals the stored one (as nullable strings) and a code is present, and then it carries that code. A mismatch gives the state-mismatch error whatever the code; a match with a null code gives "Received null authorization code". Both stored values end null |
| Android.OnFailure | composeApp/src/androidMain/kotlin/com/flattr/app/MainActivity.kt:151-159 | there is no `state` check. The message is the test-mode text exactly when the code is 40306, and otherwise "OAuth flow failed: " followed by the message (null printed as "null"). Both stored values end null |
| Android.OnVerificationRequired | composeApp/src/androidMain/kotlin/com/flattr/app/MainActivity.kt:162-167 | the error is "Verification required: " followed by the message, or "Unknown error" when the error or its message is null. Both stored values end null |
| Android.ReplayRejected | composeApp/src/androidMain/kotlin/com/flattr/app/MainActivity.kt:132-148 | a success callback with a non-null `state`, delivered a second time, gives the state-mismatch error |
| Android.PayloadIgnoredOnMismatch | composeApp/src/androidMain/kotlin/com/flattr/app/MainActivity.kt:132-147 | on a mismatch, two callbacks that echo the same `state` give the same result whatever their codes |
| Android.StepPreservesWellFormed | composeApp/src/androidMain/kotlin/com/flattr/app/MainActivity.kt:80-202 | given the screen's edges (start from Initial, reset from Success/Error) and callbacks at any time, each step keeps this invariant: the stored `state` is live exactly while Loading, and it is always paired with a verifier |
| Android.RunPreservesWellFormed | composeApp/src/androidMain/kotlin/com/flattr/app/MainActivity.kt:80-202 | the same invariant holds over every admissible sequence of events |
| Android.NullStateAccepted | composeApp/src/androidMain/kotlin/com/flattr/app/MainActivity.kt:132 | as written, a fresh activity accepts a success callback whose `state` is null |
| Android.SuccessEchoesStateOfStart | composeApp/src/androidMain/kotlin/com/flattr/app/MainActivity.kt:89-138 | with the corrected check, after a start that launched the flow, a success callback logs in exactly when it echoes the `state` this start generated and carries a code |
| Android.SuccessEchoesStateOfStartAsWritten | composeApp/src/androidMain/kotlin/com/flattr/app/MainActivity.kt:89-138 | as written, after a start that launched the flow, a success callback logs in exactly when it echoes the `state` this start generated and carries a code |
| Android.OnSuccessIntended | composeApp/src/androidMain/kotlin/com/flattr/app/MainActivity.kt:132-149 | corrected check: Success exactly when a stored `state` exists, the callback echoes it and a code is present; a missing stored `state` is a mismatch |
| Android.IntendedSuccessOnlyWhileLoading | composeApp/src/androidMain/kotlin/com/flattr/app/MainActivity.kt:132-149 | with the corrected check, a well-formed coordinator succeeds only from Loading, and any replay is rejected |
| Nonce.AlphabetIsAlphanumerics | composeApp/src/wasmJsMain/kotlin/com/flattr/app/main.kt:126 | the 62-character alphabet (A-Z, then a-z, then 0-9) holds every letter and digit exactly once and nothing else |
| Nonce.GenerateNonce | composeApp/src/wasmJsMain/kotlin/com/flattr/app/main.kt:125-130 | the nonce has exactly `length` characters (none for a negative length); the k-th is the alphabet character of the k-th pick, so each one is alphanumeric |
| Nonce.NonceDeterminesPicks | composeApp/src/wasmJsMain/kotlin/com/flattr/app/main.kt:125-130 | each pick can be read back from the nonce, so different picks give different nonces |
| Web.BuildOptions | composeApp/src/wasmJsMain/kotlin/com/flattr/app/main.kt:34-61 | the options record carries the given nonce as `requestNonce` |
| Web.OptionsDependOnlyOnNonce | composeApp/src/wasmJsMain/kotlin/com/flattr/app/main.kt:34-61 | every field except `requestNonce` is fixed: lang "en", loginHint "", and the callback is the exported handler. Two records are equal exactly when their nonces are |
| Web.UpdateAuthState | composeApp/src/wasmJsMain/kotlin/com/flattr/app/main.kt:72-78 | the state is always set. The trigger's nonce is cleared exactly when the new state is Success or Error (or it was already absent); otherwise it is kept |
| Web.Initialize | composeApp/src/wasmJsMain/kotlin/com/flattr/app/TruecallerJsInterop.kt:44-48 | registering the trigger leaves the handler's nonce alone |
| Web.SetCurrentNonce | composeApp/src/wasmJsMain/kotlin/com/flattr/app/TruecallerJsInterop.kt:51-55 | the handler stores the given nonce |
| Web.ClearNonce | composeApp/src/wasmJsMain/kotlin/com/flattr/app/TruecallerJsInterop.kt:109-113 | the handler's nonce becomes absent and the registration is kept |
| Web.SetRequestNonce | composeApp/src/wasmJsMain/kotlin/com/flattr/app/main.kt:80-86 | the trigger's copy is always set. It is forwarded to the handler only when non-null, so a null leaves the handler's nonce unchanged |
| Web.StartLogin | composeApp/src/wasmJsMain/kotlin/com/flattr/app/main.kt:89-123 | Loading is published first. If the script is not loaded, the result is "Truecaller SDK not available.", no nonce is generated and the handler is untouched. If it is loaded, the external call receives the options built from the nonce generated from this call's random picks (16 alphanumeric characters), and the handler holds that nonce whether or not the call threw. On a throw, the error is "Failed to initiate Truecaller login: " followed by the message, and the trigger's copy is cleared |
| Web.VerifiedOutcome | composeApp/src/wasmJsMain/kotlin/com/flattr/app/TruecallerJsInterop.kt:74-97 | the result is Success exactly for status "success" with a non-null token (an empty one included), carrying that token. Otherwise: the missing-token error, the message for "failure" (a default when it is null), the cancellation error, or "Unknown callback status: " followed by the status |
| Web.HandleCallback | composeApp/src/wasmJsMain/kotlin/com/flattr/app/TruecallerJsInterop.kt:57-99 | with no trigger registered nothing changes. Otherwise both nonce copies end absent and the state is terminal. An absent or differing nonce gives "Security check failed (Nonce mismatch)." whatever the payload; a verified one gives the status classification |
| Web.HandleScriptError | composeApp/src/wasmJsMain/kotlin/com/flattr/app/TruecallerJsInterop.kt:101-107 | with a registered trigger it publishes "Failed to load Truecaller SDK script."; otherwise it does nothing. The handler's nonce is never touched |
| Web.SuccessNeedsIssuedNonce | composeApp/src/wasmJsMain/kotlin/com/flattr/app/TruecallerJsInterop.kt:64-85 | a callback logs in exactly when the handler holds a nonce, the callback echoes it, the status is "success" and a token is present |
| Web.SuccessEchoesNonceOfStart | composeApp/src/wasmJsMain/kotlin/com/flattr/app/main.kt:100-112 | after a start whose external call went through, a callback logs in exactly when it echoes the nonce this start generated from its picks, with status "success" and a token |
| Web.PayloadIgnoredOnMismatch | composeApp/src/wasmJsMain/kotlin/com/flattr/app/TruecallerJsInterop.kt:64-71 | before the nonce matches, callbacks that echo the same nonce give the same result whatever their status, message or token |
| Web.ReplayRejected | composeApp/src/wasmJsMain/kotlin/com/flattr/app/TruecallerJsInterop.kt:57-99 | any callback handled a second time gives the nonce-mismatch error |
| Web.StepPreservesCoherence | composeApp/src/wasmJsMain/kotlin/com/flattr/app/main.kt:72-86 | every page event (registration, start, callback, script error, state update) keeps this invariant: the trigger's nonce, when present, equals the handler's |
| Web.RunPreservesCoherence | composeApp/src/wasmJsMain/kotlin/com/flattr/app/main.kt:72-86 | the two nonce copies never disagree over any sequence of events |
| Web.StaleNonceAcceptedAfterFailedStart | composeApp/src/wasmJsMain/kotlin/com/flattr/app/main.kt:111-121 | as written, after a start whose external call threw and a reset to Initial, a callback that echoes the issued nonce logs in |
| Web.StaleNonceAcceptedAfterScriptError | composeApp/src/wasmJsMain/kotlin/com/flattr/app/TruecallerJsInterop.kt:101-107 | following the screen's rules (register, start, script error, reset, start with the script not loaded), a callback that echoes the first start's nonce still logs in, because the script error and the unloaded start leave the handler's nonce alone |
| Web.StartLoginIntended | composeApp/src/wasmJsMain/kotlin/com/flattr/app/main.kt:111-121 | corrected start: when the external call throws, both nonce copies are cleared; in every other case it is the start as written |
| Web.IntendedFailedStartRejectsCallbacks | composeApp/src/wasmJsMain/kotlin/com/flattr/app/main.kt:111-121 | with the corrected start, every callback after a failed start gives the nonce-mismatch error, whatever state the UI set in between |

## Left out

- The Truecaller SDK itself is left out: `TcSdk`, `CodeVerifierUtil` (the S256 derivation of section 4.2 of RFC 7636), and what `setOAuthState`, `setCodeChallenge`, `setOAuthScopes` and `getAuthorizationCode` do inside the SDK. They are foreign code. The verifier and challenge are opaque nullable inputs, and the SDK calls are recorded as a call log.
- `onActivityResult` forwarding is left out. It compares against `TcSdk.SHARE_PROFILE_REQUEST_CODE`, whose value is not visible, and then calls into the SDK.
- The distribution of `SecureRandom` and `Random` is not modelled. The seed and the picks are parameters, and the model proves properties for every choice of them.
- `Dispatchers.Main` launches are modelled as immediate updates in program order. The handler's nonce and the published state are separate fields, so launch order does not change the final state.
- The JavaScript side is not modelled: `triggerTruecallerLogin`, `isTruecallerScriptLoaded`, the script tag and the exported wrappers. It appears only as the `scriptLoaded` flag, the thrown value and the callback data.
- Screens, navigation, the splash delay, `onCreate`/`setContent`, `FlattrApplication` SDK initialisation, the desktop, iOS and preview no-op triggers, and all logging are not modelled: they do no login logic.
- The screen's edges (start from Initial, reset from Success/Error) are stated only as the environment assumption `Android.UiAllows`. The coordinators themselves do not enforce them.

## Findings

| source | as written | input that shows it | evidently intended | confidence | as-written member | corrected member |
|---|---|---|---|---|---|---|
| composeApp/src/wasmJsMain/kotlin/com/flattr/app/main.kt:120 | `setRequestNonce(null)` after a failed external call clears only the trigger's copy; the handler keeps the issued nonce | script loaded; external call throws; user taps "Try Again"; the script later calls back with status "success", the issued nonce and token "tok" | the nonce is cleared on failure, so no callback is accepted for that attempt | medium, not executed | Web.StaleNonceAcceptedAfterFailedStart | Web.StartLoginIntended |
| composeApp/src/androidMain/kotlin/com/flattr/app/MainActivity.kt:132 | the `state` check compares nullable strings, so a null stored `state` matches a null echoed one | no login started (stored `state` null); the SDK delivers `onSuccess` with a null `state` and code "abc", giving Success("abc") | a missing stored `state` is a mismatch, as the web handler treats a missing nonce | low, not executed | Android.NullStateAccepted | Android.OnSuccessIntended |
