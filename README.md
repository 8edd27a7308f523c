# Widget call and bootstrap coordinators, modelled in Dafny

This project models the three state coordinators of the customer-support widget:

- **The call-session machine** (`vapiMachine`). It is a hierarchical state machine, `initializing → idle → connecting → connected{listening|speaking} → error`. Its context holds the voice handle, the transcript, the last error and the table of six stored listener closures. `VapiMachine.Step` is the transition table. A targeted transition runs the source state's exit action first and then the transition's actions in their listed order. `VapiMachine.CallSession` is the running actor. Its methods are proved equal to `Step`. Every call made on the voice handle (`on`, `off`, `start`, `stop`) is recorded in a ghost call log. The listeners attached to the handle are derived from that log (`VoiceSdk.Attached`).
- **The flag-based hook** (`useVapi`). This is the earlier version of the same logic: `isConnected`, `isConnecting`, `isSpeaking` and a transcript, set by six SDK listeners and by `startCall` / `stopCall`. `UseVapi.VapiHook` holds the cells. `UseVapi.HookStep` is the same behaviour as a function, used for lemmas over event sequences.
- **The router store** (`routerStore`). It reduces over `{screen, errorMessage, organizationId, contactSessionId}`. The contact session is persisted in browser storage under a key derived from the organization. Storage is a `map<string, string>`. The key derivation `getContactSessionKey` is not part of this model. It is the store's `key` parameter, and it is required to be injective only where a lemma needs that.
- **The bootstrap sequencer** (the loading screen's effects). It drives `organization → session → done`, sets the `sessionValid` flag and appends loading messages. It sends triggers to the router store. Each effect body and each validator continuation is one atomic step. The validator's outcome is an input: `Valid`, `Invalid(reason?)` or `Rejected(isError, message)`.

Facts the proofs bring out about the code as written:

- `idle` has `cleanupVapi` as its exit action. So the first accepted `START_CALL` detaches every SDK listener before `start` is called. From then on, the SDK's `call-start` and every other event no longer reach the machine (`VapiMachine.ConnectingIsDetached`). Only `STOP_CALL` still moves it on from `connecting`.
- The hook never detaches a listener (`UseVapi.ListenersStayAttached`).
- The hook's flags are independent cells. A `speech-start` before `call-start` gives `isSpeaking` without `isConnected` (`UseVapi.SpeakingWithoutConnection`).
- The validator continuations have no staleness guard. A late valid organization result moves the step from `done` back to `session` (`LoadingScreen.StaleOrganizationContinuation`).
- A rejection falls back to "Organization validation failed" / "Contact session validation failed" only when the thrown value is not an `Error`. A thrown `Error` with an empty message shows the empty message (`LoadingScreen.FailureMessage`).
- The machine keeps the transcript after `CALL_ENDED` and after an error. It clears the transcript only on `CALL_STARTED`.
- An organization identifier of `""` is stored by `setOrganizationId`, but `setContactSessionId` treats it as absent. The persistence round trip therefore needs a non-empty identifier (`WidgetAtoms.EmptyOrganizationNotPersisted`).

JavaScript truthiness of an optional string (`!organizationId`, `!contactSessionId`, `!context.organizationId`) is `WidgetAtoms.Present`: absent and `""` are both false.

## Model

| member | source | states |
|---|---|---|
| VoiceSdk.ToTranscriptMessage | apps/widget/modules/widget/machines/vapi-machine.ts:137-151 | a message becomes a transcript entry exactly when its type is "transcript" and its transcriptType is "final"; the role is user exactly when the incoming role is "user", otherwise assistant; the text is the payload's transcript |
| VoiceSdk.RegisterAttachesAll | apps/widget/modules/widget/machines/vapi-machine.ts:153-159 | the six `on` calls attach exactly the six event names, one call per name |
| VoiceSdk.ReplayAppend | apps/widget/modules/widget/machines/vapi-machine.ts:153-159 | composition law of the listener fold that the `on` / `off` calls of the machine and the hook are read through: the listeners attached after two batches of calls are those of the second batch applied to the first's result |
| VoiceSdk.ReplayLifecycle | apps/widget/modules/widget/machines/vapi-machine.ts:175-181 | `start` and `stop` calls never attach or detach a listener |
| VapiMachine.StartedIsIdle | apps/widget/modules/widget/machines/vapi-machine.ts:127-172 | after start-up the machine is idle with a non-null handle, an empty transcript, no error, all six closures stored and exactly the six listeners attached; the reachability invariant holds |
| VapiMachine.Initialized | apps/widget/modules/widget/machines/vapi-machine.ts:127-172 | `initializeVapi` sets the handle and stores all six closures, changes nothing else, and adds exactly the six event names to the attached listeners |
| VapiMachine.Always | apps/widget/modules/widget/machines/vapi-machine.ts:52-55 | the eventless transition changes only the state; it changes it exactly from `initializing` with a non-null handle, and then to `idle` |
| VapiMachine.AlwaysNeedsHandle | apps/widget/modules/widget/machines/vapi-machine.ts:48-55 | `initializing` is left for `idle` exactly when the handle is non-null, with no call and no context change: the snapshot is the old one with only the state replaced |
| VapiMachine.CleanupCalls | apps/widget/modules/widget/machines/vapi-machine.ts:209-236 | nothing on a null handle; otherwise the calls end with `stop`, and every call before it is an `off` of a stored listener |
| VapiMachine.Exit | apps/widget/modules/widget/machines/vapi-machine.ts:57-58 | the exit action only extends the call log, and does nothing on a null handle |
| VapiMachine.Step | apps/widget/modules/widget/machines/vapi-machine.ts:47-122 | the transition table: `initializing` handles no event; no transition changes the handle or the stored closures; the call log only grows, and only on a transition that leaves a state with the cleanup exit; only `connecting` and `connected` change the transcript; the error changes only when entering or leaving `error` |
| VapiMachine.Handle | apps/widget/modules/widget/machines/vapi-machine.ts:131-151 | the six closures keep the handle and the stored closures; a message never changes the state or makes a call, and one that is not a final transcript changes nothing |
| VapiMachine.Deliver | apps/widget/modules/widget/machines/vapi-machine.ts:153-159 | an SDK event whose listener is not attached changes nothing; on a reachable snapshot only an idle machine reacts to SDK events at all |
| VapiMachine.InitializingIgnoresEvents | apps/widget/modules/widget/machines/vapi-machine.ts:48-56 | `initializing` handles no event |
| VapiMachine.CleanupDetaches | apps/widget/modules/widget/machines/vapi-machine.ts:209-236 | on a non-null handle, `cleanupVapi` detaches exactly the stored listeners, whatever was attached before |
| VapiMachine.AttachedAfterExit | apps/widget/modules/widget/machines/vapi-machine.ts:57-58 | after the exit action, the attached listeners are the previous ones minus every stored closure |
| VapiMachine.StartCallAccepted | apps/widget/modules/widget/machines/vapi-machine.ts:59-64 | `START_CALL` in idle or error leads to connecting; the calls made are the exit cleanup followed by `start`; from error the stored error is cleared; the transcript is kept |
| VapiMachine.StartCallOrder | apps/widget/modules/widget/machines/vapi-machine.ts:114-121 | on a reachable snapshot, `START_CALL` issues the six `off` calls in source order, then `stop`, then `start("")` |
| VapiMachine.StartCallIgnoredDuringCall | apps/widget/modules/widget/machines/vapi-machine.ts:66-100 | `START_CALL` in connecting or connected changes nothing and is not queued |
| VapiMachine.CallStartedClearsTranscript | apps/widget/modules/widget/machines/vapi-machine.ts:69-72 | `CALL_STARTED` in connecting leads to connected.listening with an empty transcript, after the exit cleanup |
| VapiMachine.TranscriptAppends | apps/widget/modules/widget/machines/vapi-machine.ts:97-99 | `TRANSCRIPT_RECEIVED` in connected keeps the state and substate, the calls and the error, and appends the message at the end of the transcript |
| VapiMachine.TranscriptIgnoredOutsideCall | apps/widget/modules/widget/machines/vapi-machine.ts:57-83 | outside connected, a transcript message changes nothing |
| VapiMachine.SpeechToggles | apps/widget/modules/widget/machines/vapi-machine.ts:101-112 | within connected, `SPEECH_STARTED` moves listening to speaking and `SPEECH_ENDED` moves speaking to listening; nothing else changes, no cleanup runs; otherwise they are ignored |
| VapiMachine.ErrorOccurredStores | apps/widget/modules/widget/machines/vapi-machine.ts:74-77 | `ERROR_OCCURRED` in connecting or connected leads to error with that error stored, after the exit cleanup, keeping the transcript |
| VapiMachine.ExitCleansUp | apps/widget/modules/widget/machines/vapi-machine.ts:209-236 | every transition out of idle, connecting, connected or error first makes the cleanup calls; a null handle gets no call; on a reachable snapshot no listener remains attached afterwards |
| VapiMachine.CallEndedEndsCall | apps/widget/modules/widget/machines/vapi-machine.ts:73-88 | `CALL_ENDED` in connecting or connected ends in idle after the exit cleanup, with the transcript and the error kept; on a reachable snapshot no listener is attached afterwards |
| VapiMachine.StopCallEndsCall | apps/widget/modules/widget/machines/vapi-machine.ts:78-81 | `STOP_CALL` during a call ends in idle with no listener attached, after the cleanup and one more `stop`; a second `STOP_CALL` does nothing |
| VapiMachine.StepPreservesInv | apps/widget/modules/widget/machines/vapi-machine.ts:47-122 | every transition keeps the invariant: once started, the handle is set and all closures stored; an error is stored exactly in the error state; no listener is attached while connecting, connected or in error |
| VapiMachine.RunPreservesInv | apps/widget/modules/widget/machines/vapi-machine.ts:47-122 | the invariant holds after any sequence of events |
| VapiMachine.ReachableInv | apps/widget/modules/widget/machines/vapi-machine.ts:40-122 | every snapshot reachable from start-up satisfies the invariant |
| VapiMachine.ConnectingIsDetached | apps/widget/modules/widget/machines/vapi-machine.ts:57-64 | in any reachable connecting snapshot no listener is attached, so any SDK event is lost |
| VapiMachine.CallScenario | apps/widget/modules/widget/machines/vapi-machine.ts:84-113 | events sent to the actor directly (the SDK cannot deliver them once connecting, see `ConnectingIsDetached`): call-started, speech-started, a user "hi", speech-ended, call-ended end in idle with transcript [user "hi"] and no error |
| VapiMachine.CallSession.constructor | apps/widget/modules/widget/machines/vapi-machine.ts:40-56 | creating and starting the actor gives the started snapshot |
| VapiMachine.CallSession.InitializeVapi | apps/widget/modules/widget/machines/vapi-machine.ts:127-173 | the handle is set, the six `on` calls are logged and the six closures stored |
| VapiMachine.CallSession.OffIfStored | apps/widget/modules/widget/machines/vapi-machine.ts:214-231 | an `off` is logged only for a stored closure |
| VapiMachine.CallSession.CleanupVapi | apps/widget/modules/widget/machines/vapi-machine.ts:209-236 | the log grows by exactly the cleanup calls, and by nothing when the handle is null |
| VapiMachine.CallSession.StartCallAction | apps/widget/modules/widget/machines/vapi-machine.ts:175-177 | `start("")` is logged when the handle is set |
| VapiMachine.CallSession.StopCallAction | apps/widget/modules/widget/machines/vapi-machine.ts:179-181 | `stop` is logged when the handle is set |
| VapiMachine.CallSession.Send | apps/widget/modules/widget/machines/vapi-machine.ts:47-122 | the new state, context and log are those of `Step` |
| VapiMachine.CallSession.HandleEvent | apps/widget/modules/widget/machines/vapi-machine.ts:131-151 | each listener closure sends its event; a message sends `TRANSCRIPT_RECEIVED` only for a final transcript |
| UseVapi.TranscriptWithoutCallStart | apps/widget/modules/widget/hooks/use-vapi.ts:46-57 | without a call-start, the transcript grows by exactly the final segments received, in order; nothing else appends |
| UseVapi.TranscriptSinceLastCallStart | apps/widget/modules/widget/hooks/use-vapi.ts:22-26 | after any history, the transcript is exactly the final segments received since the last call-start |
| UseVapi.ListenersStayAttached | apps/widget/modules/widget/hooks/use-vapi.ts:17-60 | no event or call changes the listeners attached to the hook's handle |
| UseVapi.MountedListenersStay | apps/widget/modules/widget/hooks/use-vapi.ts:22-57 | after mounting, all six listeners stay attached |
| UseVapi.Callback | apps/widget/modules/widget/hooks/use-vapi.ts:22-57 | the listeners make no SDK call; only call-start and call-end change isConnected and isConnecting; only the speech events and call-end change isSpeaking; only call-start and a message change the transcript, and a message appends at most one entry |
| UseVapi.HookStep | apps/widget/modules/widget/hooks/use-vapi.ts:62-70 | `startCall` and `stopCall` only add `start` / `stop` calls (never `on` or `off`), leave the transcript, isConnected and isSpeaking, and `startCall` sets isConnecting |
| UseVapi.SpeakingWithoutConnection | apps/widget/modules/widget/hooks/use-vapi.ts:34-36 | on a freshly mounted hook, a speech-start before any call-start or startCall sets isSpeaking while isConnected and isConnecting stay false |
| UseVapi.CallEndClearsFlags | apps/widget/modules/widget/hooks/use-vapi.ts:28-32 | after any history, call-end clears all three flags and keeps the transcript |
| UseVapi.VapiHook.constructor | apps/widget/modules/widget/hooks/use-vapi.ts:11-15 | all three flags false, empty transcript, no handle |
| UseVapi.VapiHook.Mount | apps/widget/modules/widget/hooks/use-vapi.ts:17-57 | the handle is set and the six `on` calls are logged |
| UseVapi.VapiHook.OnCallStart | apps/widget/modules/widget/hooks/use-vapi.ts:22-26 | connected true, connecting false, transcript empty; isSpeaking, handle and log unchanged |
| UseVapi.VapiHook.OnCallEnd | apps/widget/modules/widget/hooks/use-vapi.ts:28-32 | all three flags false; transcript, handle and log unchanged |
| UseVapi.VapiHook.OnSpeechStart | apps/widget/modules/widget/hooks/use-vapi.ts:34-36 | isSpeaking true; nothing else may change |
| UseVapi.VapiHook.OnSpeechEnd | apps/widget/modules/widget/hooks/use-vapi.ts:38-40 | isSpeaking false; nothing else may change |
| UseVapi.VapiHook.OnError | apps/widget/modules/widget/hooks/use-vapi.ts:42-44 | an error event changes no state |
| UseVapi.VapiHook.OnMessage | apps/widget/modules/widget/hooks/use-vapi.ts:46-57 | the transcript gains exactly the entry of a final transcript segment, otherwise is unchanged |
| UseVapi.VapiHook.StartCall | apps/widget/modules/widget/hooks/use-vapi.ts:62-66 | isConnecting true and `start("")` logged when the handle is set; no other flag changes |
| UseVapi.VapiHook.StopCall | apps/widget/modules/widget/hooks/use-vapi.ts:68-70 | `stop` logged when the handle is set; no flag changes |
| UseVapi.VapiHook.Unmount | apps/widget/modules/widget/hooks/use-vapi.ts:59 | the clean-up calls `stop` and leaves the listeners attached |
| WidgetAtoms.GetItem | apps/widget/modules/widget/atoms/widget-atoms.ts:42-43 | the stored value under the key, or absent exactly when no value is stored |
| WidgetAtoms.OnNavigate | apps/widget/modules/widget/atoms/widget-atoms.ts:26-29 | only the screen changes, to the target |
| WidgetAtoms.OnSetError | apps/widget/modules/widget/atoms/widget-atoms.ts:30-33 | only the error message changes, to the given one |
| WidgetAtoms.OnClearError | apps/widget/modules/widget/atoms/widget-atoms.ts:34-37 | the error message becomes absent, nothing else changes |
| WidgetAtoms.OnSetOrganizationId | apps/widget/modules/widget/atoms/widget-atoms.ts:38-44 | the organization becomes X; the contact session is the value stored under key(X), or absent when there is none; screen and error message are kept |
| WidgetAtoms.UpdateContactSessionId | apps/widget/modules/widget/atoms/widget-atoms.ts:15-23 | the storage gains or overwrites key(organization) with the session; every other key keeps its value |
| WidgetAtoms.OnSetContactSessionId | apps/widget/modules/widget/atoms/widget-atoms.ts:45-57 | without a truthy organization, context and storage are unchanged; otherwise the session is written under key(organization) and stored in the context, with no other field changed |
| WidgetAtoms.Apply | apps/widget/modules/widget/atoms/widget-atoms.ts:26-44 | which trigger may change which part of the store: storage only setContactSessionId, the screen only navigate, the error only setError and clearError, the organization only setOrganizationId, the contact session only setOrganizationId and setContactSessionId |
| WidgetAtoms.FireKeepsStorage | apps/widget/modules/widget/atoms/widget-atoms.ts:26-44 | the triggers other than setContactSessionId never change the storage |
| WidgetAtoms.FireAppend | apps/widget/modules/widget/atoms/widget-atoms.ts:25-58 | handling two batches of triggers is handling the first, then the second |
| WidgetAtoms.PersistenceRoundTrip | apps/widget/modules/widget/atoms/widget-atoms.ts:38-57 | setOrganizationId(X), setContactSessionId(Y), setOrganizationId(X) restores contact session Y, for any non-empty X |
| WidgetAtoms.EmptyOrganizationNotPersisted | apps/widget/modules/widget/atoms/widget-atoms.ts:46 | after setOrganizationId(""), setContactSessionId changes nothing |
| WidgetAtoms.OtherOrganizationsUnaffected | apps/widget/modules/widget/atoms/widget-atoms.ts:15-23 | with an injective key derivation, persisting a session leaves every other organization's stored session as it was |
| WidgetAtoms.NavigateLastWins | apps/widget/modules/widget/atoms/widget-atoms.ts:26-29 | two navigations equal the last one |
| WidgetAtoms.ClearErrorUndoesSetError | apps/widget/modules/widget/atoms/widget-atoms.ts:30-37 | clearError after setError equals clearError alone, and clearError is idempotent |
| WidgetAtoms.RouterStore.constructor | apps/widget/modules/widget/atoms/widget-atoms.ts:8-13 | the screen is loading; error message, organization and contact session are absent |
| WidgetAtoms.RouterStore.EmitUpdateContactSessionId | apps/widget/modules/widget/atoms/widget-atoms.ts:15-23 | the storage becomes the written map |
| WidgetAtoms.RouterStore.Trigger | apps/widget/modules/widget/atoms/widget-atoms.ts:25-58 | the new context and storage are those of the handler; only setContactSessionId may change the storage |
| LoadingScreen.OrganizationEffect | apps/widget/modules/widget/ui/screens/widget-loading-screen.tsx:49-58 | the validator is called exactly in step organization with a truthy id, and with that id; outside step organization nothing happens; with a truthy id no trigger fires and the only change is that exactly "Finding organization..." is appended and displayed; sessionValid is never touched; the step is kept and messages are only appended |
| LoadingScreen.OrganizationSettled | apps/widget/modules/widget/ui/screens/widget-loading-screen.tsx:59-78 | the step can only become session; from organization or session the atoms only advance; messages and sessionValid unchanged; no validator call |
| LoadingScreen.SessionEffect | apps/widget/modules/widget/ui/screens/widget-loading-screen.tsx:82-96 | no trigger; the step can only go from session to done; the validator is called exactly in step session with a truthy organization, storage available and a truthy contact session, and with that session; when it is called, exactly "Validating session..." is appended and displayed and nothing else changes |
| LoadingScreen.SessionSettled | apps/widget/modules/widget/ui/screens/widget-loading-screen.tsx:97-119 | the atoms only advance, messages unchanged, the step can only become done; no validator call |
| LoadingScreen.DoneEffect | apps/widget/modules/widget/ui/screens/widget-loading-screen.tsx:122-129 | the atoms are kept; a trigger is fired exactly in step done |
| LoadingScreen.AdvancesKeepsStartup | apps/widget/modules/widget/ui/screens/widget-loading-screen.tsx:19 | an append-only step keeps "Starting up..." as the first message and the list non-empty |
| LoadingScreen.MissingOrganization | apps/widget/modules/widget/ui/screens/widget-loading-screen.tsx:51-55 | without a truthy organization id: screen error, message "Organization ID is required", atoms and storage unchanged, validator not called |
| LoadingScreen.OrganizationAccepted | apps/widget/modules/widget/ui/screens/widget-loading-screen.tsx:60-62 | a valid organization is stored in the router with its persisted contact session restored, and the step becomes session; screen and storage unchanged |
| LoadingScreen.StaleOrganizationContinuation | apps/widget/modules/widget/ui/screens/widget-loading-screen.tsx:59-62 | a valid result arriving after the step reached done sets it back to session |
| LoadingScreen.ValidationFailed | apps/widget/modules/widget/ui/screens/widget-loading-screen.tsx:63-78 | a failed organization or session validation navigates to error with its failure message and keeps the atoms |
| LoadingScreen.ErrorTriggers | apps/widget/modules/widget/ui/screens/widget-loading-screen.tsx:51-54 | the error path sets the message and ends on the error screen, and fires no trigger other than setError and navigate |
| LoadingScreen.FailureMessage | apps/widget/modules/widget/ui/screens/widget-loading-screen.tsx:64-76 | the shown error is empty only when the validator's reason is `""`, a thrown `Error` has an empty message, or the fallback itself is empty |
| LoadingScreen.FailureMessages | apps/widget/modules/widget/ui/screens/widget-loading-screen.tsx:64-76 | invalid gives the reason or "Something went wrong"; a rejection gives the Error's message, or the fallback when the thrown value is not an Error |
| LoadingScreen.SessionEffectGuard | apps/widget/modules/widget/ui/screens/widget-loading-screen.tsx:83-85 | outside step session, without a truthy organization id or without storage, the session effect does nothing |
| LoadingScreen.NoStoredSession | apps/widget/modules/widget/ui/screens/widget-loading-screen.tsx:87-91 | without a truthy contact session (absent or a stored `""`) the step becomes done with sessionValid false, no trigger fires and the validator is not called |
| LoadingScreen.SessionAccepted | apps/widget/modules/widget/ui/screens/widget-loading-screen.tsx:98-103 | a valid session: step done, sessionValid true, the session stored in the router and persisted under the organization's key |
| LoadingScreen.DoneRoutes | apps/widget/modules/widget/ui/screens/widget-loading-screen.tsx:122-129 | in step done the screen becomes selection when the session is valid and auth when not |
| LoadingScreen.ScenarioNoStoredSession | apps/widget/modules/widget/ui/screens/widget-loading-screen.tsx:49-129 | valid organization, nothing stored: the organization validator is called, the session validator is not; the run ends in step done, not valid, on the auth screen |
| LoadingScreen.ScenarioStoredSession | apps/widget/modules/widget/ui/screens/widget-loading-screen.tsx:49-129 | valid organization and valid stored session: the session validator gets the stored id; the run ends in step done, valid, on the selection screen, with the session re-persisted |
| LoadingScreen.ScenarioOrganizationRejected | apps/widget/modules/widget/ui/screens/widget-loading-screen.tsx:70-78 | a rejection with a non-Error value ends on the error screen with "Organization validation failed" |
| LoadingScreen.Bootstrap.constructor | apps/widget/modules/widget/ui/screens/widget-loading-screen.tsx:17-19 | step organization, sessionValid false, messages ["Starting up..."] |
| LoadingScreen.Bootstrap.SetStep | apps/widget/modules/widget/ui/screens/widget-loading-screen.tsx:31-33 | the step becomes the given one |
| LoadingScreen.Bootstrap.SetSessionValid | apps/widget/modules/widget/ui/screens/widget-loading-screen.tsx:35-37 | the flag becomes the given one |
| LoadingScreen.Bootstrap.SetLoadingMessage | apps/widget/modules/widget/ui/screens/widget-loading-screen.tsx:39-41 | the message is appended at the end and becomes the displayed line |
| LoadingScreen.Bootstrap.CurrentMessage | apps/widget/modules/widget/ui/screens/widget-loading-screen.tsx:141 | the displayed line is the last message |
| LoadingScreen.Bootstrap.ShowError | apps/widget/modules/widget/ui/screens/widget-loading-screen.tsx:52-53 | the router handles setError then navigate to error |
| LoadingScreen.Bootstrap.RunOrganizationEffect | apps/widget/modules/widget/ui/screens/widget-loading-screen.tsx:49-58 | atoms, validator request and router state are those of the organization effect |
| LoadingScreen.Bootstrap.ResolveOrganization | apps/widget/modules/widget/ui/screens/widget-loading-screen.tsx:59-78 | atoms and router state are those of the organization continuation |
| LoadingScreen.Bootstrap.RunSessionEffect | apps/widget/modules/widget/ui/screens/widget-loading-screen.tsx:82-96 | atoms and validator request are those of the session effect, reading the router's contact session |
| LoadingScreen.Bootstrap.ResolveSession | apps/widget/modules/widget/ui/screens/widget-loading-screen.tsx:97-119 | atoms and router state are those of the session continuation |
| LoadingScreen.Bootstrap.RunDoneEffect | apps/widget/modules/widget/ui/screens/widget-loading-screen.tsx:122-129 | the router state is that of the done effect |

## Left out

- The voice SDK itself: audio, network and event delivery timing. The handle is a flag. Its calls are a ghost log. An SDK event reaches a closure only while that closure's listener is attached (`VapiMachine.Deliver`).
- The assistant identifier and the public key passed to the SDK are the placeholder `""`.
- The error value of `ERROR_OCCURRED` is its message string. `console.error` in the hook's error listener is output only and is left out.
- Promise scheduling and React's effect re-run rules (dependency arrays, batching of state updates). Each effect body and each promise continuation is a separate atomic step, and the scenarios fix one order of these steps. There is no staleness guard, because the code has none.
- The validators, the organization lookup and the contact-session lookup are backend calls. Their outcome is an input to the continuations.
- `getContactSessionKey` is not part of this model. It is a parameter.
- Browser storage availability: the router store's handlers assume storage exists, as they do in a browser. Only the session effect's `typeof localStorage` test is modelled, as a boolean input.
- The `settings` and `vapi` steps are declared but never entered. They appear only in the step order.
- `WidgetScreen` is defined in a file that is not part of this model. The screen names are the eight the widget uses.
- Screens, components, layouts, providers, the auth form, the middleware, the backend functions and the test files.
