# BMS client Cordova plugin core, in Dafny

This project models the bookkeeping in the two plugin classes of the IBM
Bluemix Mobile Services (BMS) client Cordova plugin.

- **CDVBMSClient** is the Android plugin. It keeps a map from each
  authentication realm to the JavaScript callback that receives that
  realm's challenge events (`challengeHandlersMap`). `execute` dispatches
  seven action names to their handlers. `InternalAuthenticationListener`,
  one per realm, forwards the SDK's challenge, success and failure events
  to whichever callback the realm has when the event arrives.
- **CDVMFPLogger** is the iOS logger plugin. It checks the arguments of
  `setLevel`, `setMaxLogStoreSize` and the five log methods, then sets the
  Logger's level filter or store size, or logs one message.

Files:

| file | module | what it holds |
|---|---|---|
| `wrappers.dfy` | `Wrappers` | `Option` and `Result` |
| `json.dfy` | `JsonValues` | JSON arguments and payloads, and org.json's `getString` / `getJSONObject` |
| `cordova.dfy` | `Cordova` | plugin results, and `CallbackContext`, a class that logs every result sent through it |
| `client_actions.dfy` | `ClientActions` | the pure part of CDVBMSClient: action dispatch and argument reading |
| `realm_registry.dfy` | `RealmRegistry` | the realm registry as a state machine (`Step`, `Run`) and what any run guarantees |
| `bms_client.dfy` | `BMSClient` | the classes `CDVBMSClient` and `InternalAuthenticationListener` |
| `client_scenarios.dfy` | `ClientScenarios` | three runs of the plugin, proved from the methods' contracts |
| `log_levels.dfy` | `LogLevels` | the log levels and the plugin's name-to-level table |
| `bms_logger.dfy` | `BMSLogger` | argument checks and the class `CDVMFPLogger` |

How the client is modelled:

- Each handler is one atomic step.
- `CDVBMSClient` holds `challengeHandlersMap` as a `map<string, CallbackContext>`.
  It has no threads. It records every call made into the BMS SDK, in order, in `sdkCalls`.
- A ghost log, `delivered`, records every result sent to a realm's callback.
  With it, the plugin's state reads as a `RealmRegistry.State`.
- Every method that touches the map or sends an event is proved to move
  that state exactly as `RealmRegistry.Step` does. The lemmas about `Run`
  then apply to any sequence of calls.
- Cordova gives every call its own callback, with an id no earlier call had.
  The ghost set `usedIds` records the ids handed out so far. `FreshCallback`
  requires the new callback's id to be outside it, and every call adds that id.
  `Valid` keeps each registered callback's id in `usedIds`. A callback that has
  been replaced or closed can therefore never come back as a caller's callback.
  `Execute` states this directly: a callback of an earlier call that no realm
  maps to is sent nothing.
- The `RealmRegistry` lemmas that say a callback "receives nothing" are about
  the results sent through the registry (`delivered`). On the class side, the
  clause above carries the same fact over to `CallbackContext.sent`.

Where the code and the design description of the system differ, the model
follows the code:

- Unregistering a realm that has no callback does not report an error.
  `challengeHandlersMap.get(realm)` yields null, and `sendPluginResult` throws
  a NullPointerException. That happens after the SDK has already been asked
  to unregister, and before the entry is removed or the caller hears
  anything. The model returns `Completion.NullPointer` with that state.
- A listener event for a realm with no callback also throws instead of being
  dropped quietly. The model returns `NullPointer` and changes nothing.
- The submit handlers check no pending challenge and no realm. They report
  success to the caller as soon as their arguments parse. The rule "exactly
  one resolution per challenge" belongs to the SDK's challenge handler, which
  is not part of this model.
- `registerAuthenticationListener` does not touch the map. Only
  `addCallbackReceiver` puts a realm's callback.
- A JSONException in `initialize` is not caught inside the plugin. It
  escapes `execute`; the model reports this as `ExecOutcome.ThrewJsonException`.

## Model

| member | source | states |
|---|---|---|
| `ClientActions.ActionOf` | src/android/CDVBMSClient.java:42-62 | an action name selects a handler exactly when it is one of the seven names, and then the handler it names |
| `ClientActions.ActionOfName` | src/android/CDVBMSClient.java:42-62 | dispatch inverts naming: each action is selected by its own name and by no other |
| `ClientActions.RealmArg` | src/android/CDVBMSClient.java:141-153 | the realm is accepted exactly when argument 0 is a non-empty string; an empty string yields `errorEmptyArg`; a missing or non-string argument yields the JSONException message |
| `ClientActions.InitializeArgs` | src/android/CDVBMSClient.java:71-74 | `initialize` reads its route and GUID exactly when arguments 0 and 1 are both strings |
| `ClientActions.SubmissionOf` | src/android/CDVBMSClient.java:159-210 | answer and failure take an object at 0 and the realm at 1; success takes the realm at 0; the submission is built from exactly those positions, and the realm may be empty |
| `RealmRegistry.Step` | src/android/CDVBMSClient.java:120-146 | an operation sends at most one result and never takes back a sent one; a put sends nothing; an event never changes the map; unregister or an event for an absent realm changes nothing |
| `RealmRegistry.RunLookup` | src/android/CDVBMSClient.java:122-146 | after any run, a realm's entry is determined by that realm's own operations alone; other realms never interfere |
| `RealmRegistry.UnregisterThenLookup` | src/android/CDVBMSClient.java:122-123 | after unregistering a realm, it stays absent until it is put again, whatever happens to other realms |
| `RealmRegistry.LatestRegistrationWins` | src/android/CDVBMSClient.java:143-146 | after putting a callback for a realm, that realm maps to it until the realm is put again or unregistered |
| `RealmRegistry.DetachedChannelIsSilent` | src/android/CDVBMSClient.java:232-234 | a callback that no realm maps to, and that is never put again, receives nothing more, because each event looks its realm up afresh |
| `RealmRegistry.ReplacedChannelIsOrphaned` | src/android/CDVBMSClient.java:143-146 | re-registering a realm is a silent replacement: the previous callback is not told, and receives nothing afterwards |
| `RealmRegistry.UnregisterIsTerminal` | src/android/CDVBMSClient.java:120-123 | unregistering sends the realm's callback exactly one OK result with an empty object and keepCallback false, then nothing more |
| `RealmRegistry.EventsInRaiseOrder` | src/android/CDVBMSClient.java:248-260 | while a realm keeps its callback, that callback receives the results of exactly that realm's events, in the order they were raised |
| `RealmRegistry.EventsKeepCallback` | src/android/CDVBMSClient.java:258-260 | without an unregister, every result sent keeps its callback open; challenge, success and failure events are all repeatable |
| `BMSClient.CDVBMSClient.constructor` | src/android/CDVBMSClient.java:39 | the plugin starts with an empty realm map |
| `BMSClient.CDVBMSClient.SendToRealm` | src/android/CDVBMSClient.java:232-234 | the result goes to the realm's current callback and to no other; with no callback the send fails on null and nothing changes |
| `BMSClient.CDVBMSClient.Initialize` | src/android/CDVBMSClient.java:71-86 | two non-empty strings initialise the SDK and send `success()`; an empty one sends `errorEmptyArg`; a non-string escapes as a JSONException |
| `BMSClient.CDVBMSClient.RegisterAuthenticationListener` | src/android/CDVBMSClient.java:89-109 | a valid realm hands the SDK a new listener bound to that realm and sends `success(realm)`, leaving the map alone; otherwise it sends the error |
| `BMSClient.CDVBMSClient.UnregisterAuthenticationListener` | src/android/CDVBMSClient.java:111-135 | for a registered realm: one terminal result to its callback, the entry removed, other callbacks untouched, then `success(realm)`; for an unregistered realm: the SDK is told, then the null callback stops everything; an empty realm sends `errorEmptyArg` and changes nothing |
| `BMSClient.CDVBMSClient.DoAddCallbackReceiver` | src/android/CDVBMSClient.java:137-157 | a valid realm maps to the caller's callback, replacing any previous one, which is sent nothing; an invalid realm sends the error and leaves the map unchanged |
| `BMSClient.CDVBMSClient.Submit` | src/android/CDVBMSClient.java:159-210 | once the arguments parse, report success to the caller and forward the submission to the SDK, with no check of the realm; otherwise send the JSONException message |
| `BMSClient.CDVBMSClient.SubmitAuthenticationChallengeAnswer` | src/android/CDVBMSClient.java:159-175 | reports "submitAuthenticationChallengeAnswer called" and forwards the answer for the realm at argument 1 |
| `BMSClient.CDVBMSClient.SubmitAuthenticationSuccess` | src/android/CDVBMSClient.java:177-192 | reports "submitAuthenticationSuccess called" and forwards a success for the realm at argument 0 |
| `BMSClient.CDVBMSClient.SubmitAuthenticationFailure` | src/android/CDVBMSClient.java:194-210 | reports "submitAuthenticationFailure called" and forwards the failure info for the realm at argument 1 |
| `BMSClient.CDVBMSClient.Dispatch` | src/android/CDVBMSClient.java:44-57 | each of the seven branches has exactly the effect of the handler it names; the callback id becomes used; only the unregister branch sends to a registered callback |
| `BMSClient.CDVBMSClient.Execute` | src/android/CDVBMSClient.java:41-62 | returns false, changing nothing, exactly for names outside the seven; otherwise has exactly the effect of the named handler; in every case the call's callback id becomes used, and callbacks of earlier calls that no realm maps to are sent nothing |
| `BMSClient.InternalAuthenticationListener.constructor` | src/android/CDVBMSClient.java:216-220 | a listener's realm is fixed at construction and cannot be rebound |
| `BMSClient.InternalAuthenticationListener.OnAuthenticationChallengeReceived` | src/android/CDVBMSClient.java:222-236 | one OK keep-callback result `{action: "onAuthenticationChallengeReceived", challenge}` goes to the realm's current callback; the map is unchanged |
| `BMSClient.InternalAuthenticationListener.OnAuthenticationSuccess` | src/android/CDVBMSClient.java:238-241 | one OK keep-callback result `{action: "onAuthenticationSuccess", info}` goes to the realm's current callback; the realm stays registered |
| `BMSClient.InternalAuthenticationListener.OnAuthenticationFailure` | src/android/CDVBMSClient.java:243-246 | one OK keep-callback result `{action: "onAuthenticationFailure", info}` goes to the realm's current callback; the realm stays registered |
| `BMSClient.InternalAuthenticationListener.OnAuthenticationSuccessOrFailure` | src/android/CDVBMSClient.java:248-262 | the shared body of success and failure: send the event to the current callback, keep the map |
| `ClientScenarios.ReRegistrationScenario` | src/android/CDVBMSClient.java:111-146 | a realm registered with callbacks C1 and then C2, then a challenge, then an unregister through `execute`: C2 gets the challenge and the terminal result, the caller gets the realm, and C1 receives nothing at all |
| `ClientScenarios.LifeCycleScenario` | src/android/CDVBMSClient.java:111-135 | register, challenge, success, unregister: the callback sees both events and then one terminal result; the caller gets the realm; a later event finds no callback |
| `ClientScenarios.UnregisterUnknownScenario` | src/android/CDVBMSClient.java:122-124 | unregistering a realm never registered stops on the null callback; the caller hears nothing and the map stays empty |
| `LogLevels.LevelOf` | src/android/CDVBMSLogger.java:18-26 | a name finds a level exactly when it is some level's key, and then finds that level |
| `LogLevels.DictionaryIsOneToOne` | src/android/CDVBMSLogger.java:18-26 | every level is listed under its own key, and no two names map to the same level |
| `LogLevels.LevelOfIsCaseSensitive` | src/android/CDVBMSLogger.java:127 | a name with any character outside 'A'..'Z', a lower-case spelling for one, finds no level |
| `BMSLogger.LevelArg` | src/android/CDVBMSLogger.java:117-134 | `setLevel` accepts exactly a string that is a key of the table, and yields the level with that key; anything else yields "LogLevel Parameter is Invalid." |
| `BMSLogger.StoreSizeArg` | src/android/CDVBMSLogger.java:71-89 | `setMaxLogStoreSize` accepts exactly an Int and yields it as a value below 2^64; anything else yields "MaxLogStoreSize is Invalid." |
| `BMSLogger.LogArgs` | src/android/CDVBMSLogger.java:193-209 | a non-string name yields "Name  Parameter is Invalid." without reading the message; a string name and non-string message yield "message  Parameter is Invalid."; otherwise both strings |
| `BMSLogger.CDVMFPLogger.SetMaxLogStoreSize` | src/android/CDVBMSLogger.java:68-91 | an Int argument becomes the store size and nothing is sent; otherwise the error is sent and the size is unchanged |
| `BMSLogger.CDVMFPLogger.SetLevel` | src/android/CDVBMSLogger.java:114-157 | a valid name sets the filter to its level and nothing is sent; otherwise the error is sent and the filter is unchanged |
| `BMSLogger.CDVMFPLogger.Log` | src/android/CDVBMSLogger.java:190-232 | valid arguments log exactly one message at the given level and send nothing; otherwise the first bad argument's error is sent and nothing is logged; filter and size unchanged |
| `BMSLogger.CDVMFPLogger.LogDebug` | src/android/CDVBMSLogger.java:190-232 | `debug`: `Log` at the debug level |
| `BMSLogger.CDVMFPLogger.LogInfo` | src/android/CDVBMSLogger.java:234-275 | `info`: `Log` at the info level |
| `BMSLogger.CDVMFPLogger.LogWarn` | src/android/CDVBMSLogger.java:277-316 | `warn`: `Log` at the warn level |
| `BMSLogger.CDVMFPLogger.LogError` | src/android/CDVBMSLogger.java:318-357 | `error`: `Log` at the error level |
| `BMSLogger.CDVMFPLogger.LogFatal` | src/android/CDVBMSLogger.java:359-399 | `fatal`: `Log` at the fatal level |

## Left out

- Cordova's thread pool and `run(inBackground:)`. Each handler is one atomic, sequential step, so races between handlers are not modelled.
- The BMS SDK. Calls into it are recorded in `sdkCalls` and do nothing else. This covers `BMSClient.initialize`, listener registration and unregistration, and `getChallengeHandler(realm).submit*`. The SDK's own rule of one resolution per pending challenge is not modelled.
- `MalformedURLException` in `initialize`, thrown by the SDK's URL check. The error-then-success pair it would send is not modelled.
- A null challenge handler from `getChallengeHandler`, which would throw after the caller has already been told of success.
- ClientActions.RealmArg: does not model org.json coercion. `getString` turns every non-null value into its text, including a number, a boolean, a nested object or an array; `addCallbackReceiver` with `[{}]` registers the realm `"{}"`. The model accepts only a JSON string as a string. The same holds for `InitializeArgs` and `SubmissionOf`. The text of a caught exception is one opaque `ExceptionMessage`.
- A null `challenge` or `info` object from the SDK. A null challenge throws a NullPointerException at `challenge.toString()` in the debug line (CDVBMSClient.java:224), before any object is built, so nothing is sent. A null info reaches `putOpt` (line 254), which leaves the `info` key out of the object sent. The model's events always carry a JSON value and always include the key.
- Swift traps, modelled as preconditions: reading `command.arguments[0]`, or `[1]` in the log methods, when it is absent; and `UInt64(maxStoreSize)` of a negative Int.
- BMSLogger.StoreSizeArg: reads `as? Int` as an integral JSON number in Swift's 64-bit Int range. A boolean bridged to a number is not treated as an Int.
- BMSLogger.CDVMFPLogger.Log: records the message handed to `Logger.logger(name:)` at its level. The Logger's own filtering and storage are not modelled.
- `storeLogs`, `getMaxLogStoreSize`, `getLevel` and `isUncaughtExceptionDetected`. They only read Logger statics and send them back.
- The `swift(>=3.0)` and older-Swift branches. They behave the same; one is modelled.
- Cordova dropping a result sent to a callback that has already received a terminal (keepCallback false) result. `sent` records everything the plugin hands to `sendPluginResult`.
- The debug and error lines written to the platform log.
