# Verification of the web sign-in backend

A Dafny 4.11 model of the D-Bus backend that runs one interactive web sign-in per
`Start` call, with proofs of what it promises. `dafny verify dfyconfig.toml` checks all of it.

## What is modelled

**The life of a sign-in.** `Lifecycle.dfy` describes the state that `src/transaction.c`,
`src/webkit-session.c`, `src/webauthentication-impl.c` and `src/request-impl.c` share, and what each
main-loop event does to it: reference counts, the timer, the Close handler, the teardown and finished
hooks, the list, the export registry, the owner cache, the PIN buffer and a log of everything that
can be observed. Many flows run at once. A misuse of memory - following a freed pointer, freeing
twice, removing a timer that is not armed, answering a call twice - sets a `fault` flag, so memory
safety is the statement that no run sets it. The environment is adversarial: every name-owner lookup
may answer anything, frontend notifications come at any time, and every event may come in any order.

`SignInObjects.dfy` and `Backend.dfy` are the same program in the form the C code has: classes whose
methods update fields in place, in the order of the source, down to the bytes of the PIN buffer. Each
method is proved to move the object's `View()` as the lifecycle's function says, and its ghost result
`moments` to be the states it passed through on the way, up to the main loop (`BackendRuns.Serve`); so every
theorem about reached states, and about moments inside an event, is a theorem about that object.
`LifecycleStages` cuts the handlers at the points where the methods are.

The invariants are in `LifecycleSafety`, `LifecycleEvents`, `LifecycleStart`, `LifecycleDispatch`,
`LifecycleClose` and `LifecycleEngine` (one event at a time, each with the closed form of its result),
`LifecycleRuns` (every moment of every run), `LifecycleHistory` and `LifecycleStory` (what the log
justifies). The promises are collected in `LifecycleTheorems`. `LifecycleOutcome` says, for every event in every
run, exactly which entries it adds to the log, told on the log before it and on the reports of the bus
(`LifecycleOwner`) with every reason, mode and timeout written out; `LifecycleOrder` says in which order `finish`
takes a flow apart. `LifecycleIsolation` says what one event does
to each of many flows: a flow's fate is a function of its own events and of what flows share, the owner cache,
the PIN buffer and the clock. `LifecycleWitness` shows exactly when a window opens and gives one concrete run.

**Completion matching.** `Completion.dfy` has the checks of `src/completion.c` over a parser,
`UriGrammar.dfy`, that stands in for GLib's `g_uri_parse`. The parser is the modelled dependency: section 3
of RFC 3986 with the dot-segment removal of section 5.2.4 and the percent-escape and scheme
normalisation of section 6.2.2. The matcher is the repository's. `CompletionCases.dfy` says which texts are accepted
and which match in terms of what is written in them: lengths, characters, schemes and ports.

**Redaction.** `Redact.dfy` has `sanitise`, field redaction, log lines and error texts over byte strings,
with UTF-8 as in section 4 of RFC 3629. Which characters are format characters is a parameter; only
`?`, `_` and `-`, the marks sanitising itself writes, are assumed not to be. `RedactCases.dfy` says what is written
for each character and each kind of value.

**Configuration flattening.** `PortalConf.dfy` has the awk program of `xdp_flatten_preferred` with its global
arrays, `xdp_conf_set` and `xdp_experimental_portals`; `PortalConfChain` tells the flattened file on the lines of the
files alone, `PortalConfTheorems` has what flattening preserves, `PortalConfEdits` what the two editors do.

**Storage names and the PIN buffer.** `Storage.dfy`, and `PinCache.dfy` with the buffer as an array of bytes that
holds a C string.

Strings are sequences of `char`, one per byte. GLib signal emission is modelled as the connected handler
first, then the class default handler.

## Where the code and its own words differ

The model follows the code; each difference is proved.

- `src/tls/client_cert_pkcs11.c:47` says that the PIN is cached for the transaction. The buffer is wiped
  when any flow that uses the pkcs11 provider ends: `LifecycleIsolation.PinSurvivesExactly` gives the exact
  condition for every event and `LifecycleWitness.PinLossHappens` a concrete run in which a live flow loses its PIN.
- `src/tls/client_cert_pkcs11.c:79` overwrites a released buffer only up to its first NUL. A PIN file with a NUL in
  it yields the text before that, and what follows is freed as it was: `PinCache.ReleaseIsCompleteExactly` gives
  the exact condition for a complete overwrite and `PinCache.TailOfOneFileIsLeft` one file that is not.
- `src/request-impl.c:38` says that resolving the owner can cancel the transaction. Resolving only writes the
  cache; no run cancels a flow there (`LifecycleClose.CloseRefused`).
- Flattening does not keep everything. A stopped key loses the candidates before `none`, and a key with no
  candidates under a stopped default becomes stopped: `PortalConfTheorems.FlatteningPreserves` gives the exact
  condition and `PortalConfTheorems.EmptyKeyIsStopped` a concrete chain.
- A printed normal form does not always parse back: a hostless path that normalises to one starting with
  two slashes is then read as an authority (`UriRoundTrip.ReprintExactly`, `UriRoundTrip.ReprintCanFail`).
- The query and fragment never decide a match, but a malformed escape in them makes the URI unparsable
  (`CompletionTheorems.SuffixNeverDecides`).

## Model

| member | source | states |
|---|---|---|
| LifecycleRuns.EveryRunIsSafe | src/transaction.c:80-186 | at every moment of every run, also inside `finish` while its hooks run, counts equal holders and nothing reachable is freed |
| LifecycleRuns.EveryMomentIsSafe | src/transaction.c:133-186 | the same from any state between events |
| LifecycleRuns.DispatchSafe | src/webauthentication-impl.c:109-246 | one event, whatever it is, leads from a state between events to another, safely throughout |
| LifecycleRuns.InsideEnds | src/webauthentication-impl.c:109-246 | the states listed inside an event end in the state after it |
| LifecycleOutcome.StartOutcome | src/webauthentication-impl.c:167-246 | every Start in every run: exactly which senders are denied, which arguments and paths are `invalid_request`, which stores `no_storage`, and the window, mode, timer, provider and URIs of the rest |
| LifecycleOutcome.CloseOutcome | src/request-impl.c:35-61 | every Close for a live flow: exactly when it is refused, and otherwise the commit, the reply `request_closed` and the answer, in that order |
| LifecycleOutcome.CloseOfNothing | src/request-impl.c:35-61 | a Close for a path that no live flow owns reaches nothing |
| LifecycleOutcome.SessionOutcome | src/webkit-session.c:153-421 | every event of a live session in every run: exactly what is replied, let through, blocked, asked of the provider or declined, with its reason, from the flow's own log |
| LifecycleOutcome.SessionGone | src/webkit-session.c:111-142 | an event of a session that is not up changes nothing |
| LifecycleOutcome.ProviderIsKept | src/webkit-session.c:503-580 | a session keeps the provider its Start selected |
| LifecycleOutcome.LossOutcome | src/webauthentication-impl.c:109-135 | frontend loss and shutdown answer every live flow once with `session_terminated`, and no other call |
| LifecycleOutcome.DeadlineOutcome | src/transaction.c:101-109 | a deadline ends its flow with `timeout` exactly when the time since its window went up has reached its timeout |
| LifecycleOutcome.ClockOutcome | src/transaction.c:111-117 | time goes on exactly when no window's time is up |
| LifecycleOutcome.TimeoutIsKept | src/options.c:9-20 | a requested timeout is kept up to 900 seconds; an absent or zero one is 300 |
| LifecycleOwner.CacheFollowsReports | src/webauthentication-impl.c:38-88 | in every reached state the owner cache is the latest appearance, loss or lookup, and a first lookup is made exactly once |
| LifecycleOwner.CheckFollows | src/webauthentication-impl.c:51-88 | the sender check asks the bus what the reports call for, and accepts exactly a sender that is the owner by what is known and by a fresh lookup |
| LifecycleOutcome.NewOwnerIsAccepted | src/webauthentication-impl.c:123-127 | from every reached state, whoever the bus has just announced and confirms when asked is accepted: its Start opens a window, its Close ends its flow |
| LifecycleOrder.FinishIsInOrder | src/transaction.c:133-186 | at every moment inside `finish`: commit before all, timer, handler, window, PIN, strings, Request, answer, list entry, slot, transaction go in that order, no other flow is touched, and `finish` holds its own reference |
| LifecycleOrder.LateFinishIsIgnored | src/transaction.c:140-142 | a second call of `finish` changes nothing, whatever it was to answer |
| LifecycleOrder.TeardownRunsOnce | src/webkit-session.c:111-121 | a session marked as torn down is not torn down again |
| LifecycleOrder.UnexportsOnce | src/request-impl.c:119-127 | a Request that is off the bus is not taken off again |
| LifecycleOrder.TimerIsArmedOnce | src/transaction.c:111-117 | a timer is armed once, and not on a finished transaction |
| LifecycleOrder.CloseStopsRequest | src/request-impl.c:35-61 | before it answers yes, the default Close handler has cancelled its Request and taken it off the bus |
| LifecycleOrder.CloseStopsBeforeUnexport | src/request-impl.c:35-61 | at no moment is its Request off the bus without having been cancelled |
| LifecycleOrder.DefaultCloseHolds | src/request-impl.c:35-61 | until its last moment the default Close handler holds the Request |
| LifecycleSafety.FinishSafe | src/transaction.c:133-186 | every state inside `finish` is safe, although teardown and the finished hook drop references under it; its result has one closed form |
| LifecycleSafety.FinishSteady | src/transaction.c:133-186 | finishing one flow leaves every other flow exactly as it was, and the finished one without list entry, slot, session, timer or export |
| LifecycleSafety.TeardownSafe | src/webkit-session.c:111-142 | every state inside teardown is safe: the session returns its reference, a pkcs11 PIN is wiped, and the session is freed |
| LifecycleSafety.UnexportSafe | src/request-impl.c:119-127 | unexporting gives back the export's reference and removes exactly that path |
| LifecycleSafety.LeaveListSafe | src/webauthentication-impl.c:145-151 | the swap-removal takes exactly this flow's entry and reference |
| LifecycleSafety.RemoveFastCounts | src/webauthentication-impl.c:149 | swap-removal changes order but removes exactly one occurrence |
| LifecycleSafety.AllOrNothing | src/transaction.c:74-75 | between events: not done, listed, session up, exported, handler connected, timer armed, path registered - all or none, and an ended flow is fully freed |
| LifecycleTheorems.PartsTogether | src/webauthentication-impl.c:216-243 | the same for every flow in every reached state |
| LifecycleTheorems.LivePathsAreDistinct | src/request-impl.c:102-127 | exported handles belong to one live transaction each |
| LifecycleTheorems.RepliesComeAfterUnexport | src/transaction.c:152-178 | whatever ends a flow, at every moment at which its reply is out, the Request has left the bus and window, timer and handler are gone |
| LifecycleTheorems.OneAnswerPerStart | src/webauthentication-impl.c:153-246 | every Start call that arrived has exactly one answer, unless its flow is live, and then none |
| LifecycleTheorems.OneCommitPerFlow | src/transaction.c:140-144 | `finish` succeeds at most once per flow, exactly once for each window that is gone, and is never called late |
| LifecycleTheorems.AnswersAreFinal | src/transaction.c:176-178 | no continuation of a run adds a second answer or takes one back |
| LifecycleTheorems.EndedStaysEnded | src/transaction.c:133-186 | a flow that ended stays freed in every continuation |
| LifecycleTheorems.RepliesAreJustified | src/transaction.c:158-178 | response 0 carries verbatim a URI the engine presented to that flow and that matches; 1 only `user_cancelled` or `request_closed`; 2 a reason and no URI |
| LifecycleTheorems.MatchesNeverLoad | src/webkit-session.c:153-228 | no navigation or response that matches the completion URI is let through, in any run |
| LifecycleTheorems.ClosedMeansFinished | src/request-impl.c:35-61 | a Close answered with success comes after its flow was finished, whatever the bus said at each lookup |
| LifecycleTheorems.StoresAreNamed | src/webkit-session.c:436-463 | a persistent store is opened only in effective shared mode and under a safe directory name |
| LifecycleTheorems.ProviderSeesRelatedHosts | src/webkit-session.c:320-398 | a certificate is asked for only if the challenge's host is that of the latest unmatched navigation or the latest load of that flow |
| LifecycleTheorems.LoadFailureOutcome | src/webkit-session.c:267-289 | the outcome of a failed load is a function of the flow's history: nothing for a cancelled load without a declined challenge, else the latest decline's reason or `load_failed` |
| LifecycleTheorems.LossEndsEverything | src/webauthentication-impl.c:129-135 | after frontend loss or shutdown no flow, export or PIN remains, and every call is answered |
| LifecycleTheorems.DeadlineBoundsLife | src/transaction.c:101-117 | no flow is live more than its timeout, 1 to 900 seconds, after its window went up |
| LifecycleTheorems.DeadlineAnswers | src/transaction.c:101-109 | a due deadline ends its flow with `timeout` before the clock goes on |
| LifecycleDispatch.ClampedTimeout | src/options.c:9-20 | whatever the option says, the timeout is 1 to 900 seconds |
| LifecycleTheorems.PinOutlivesNoSession | src/tls/client_cert_pkcs11.c:48-81 | the PIN buffer is filled only while a flow of the pkcs11 provider is live |
| LifecycleIsolation.FlowsAreIsolated | src/webauthentication-impl.c:109-246 | for every event and every flow at once: what becomes of a flow is a function of that flow, the owner cache, the PIN buffer and the clock; a filled buffer is kept unless a pkcs11 flow ends |
| LifecycleIsolation.EndsExactly | src/transaction.c:133-186 | a window that is up goes down in an event exactly when the guard of that event's terminal branch holds of its flow |
| LifecycleIsolation.FlowRunsAlone | src/webauthentication-impl.c:109-246 | over a whole run beside any other flows, a flow becomes what its own events alone make of it, given what was shared at each of them |
| LifecycleIsolation.PinSurvivesExactly | src/tls/client_cert_pkcs11.c:74-81 | over every event, a cached PIN survives exactly when no live pkcs11 flow ends in it, and is otherwise gone |
| LifecycleOutcome.PinFillsExactly | src/tls/client_cert_pkcs11.c:48-72 | over every event, an empty buffer is filled exactly when a live pkcs11 session is asked for its PIN and the file can be read, with what the file says |
| LifecycleIsolation.PinIsLostToAnotherFlow | src/tls/client_cert_pkcs11.c:47-81 | of two live pkcs11 flows, one whose PIN was answered loses it to any event that ends only the other |
| LifecycleWitness.PinLossHappens | src/tls/client_cert_pkcs11.c:47-81 | a concrete run in which that happens |
| LifecycleWitness.WindowOpensExactly | src/webauthentication-impl.c:167-246 | a Start opens a window exactly when the bus's reports vouch for its sender, both URIs and the mode are fit, its path is free and its store exists - each written out - and earlier flows are untouched |
| LifecycleWitness.RootIsValid | src/completion.c:105-160 | the root page of any plain host is a valid start URI and a valid completion URI |
| LifecycleEvents.SenderCheckLeavesItsAnswer | src/webauthentication-impl.c:74-88 | the sender check accepts exactly when the cache it leaves behind equals the sender, whatever the bus answers |
| LifecycleEvents.RefusalRepeats | src/webauthentication-impl.c:74-88 | once refused, a sender is refused again without a lookup, so both Close handlers agree on a refusal |
| LifecycleClose.CloseRefused | src/transaction.c:40-53 | a refused Close changes no flow: the default handler never unexports a live transaction's Request |
| LifecycleClose.CloseAccepted | src/request-impl.c:35-61 | an accepted Close ends its flow with `request_closed`, and answers even if the owner changed in between |
| LifecycleClose.FinishIdle | src/transaction.c:133-186 | any terminal event of a live flow: one commit, one reply, nothing of the flow left |
| LifecycleEvents.CancelAllEmpties | src/webauthentication-impl.c:109-121 | cancelling all ends with an empty list, although each `finish` removes from it |
| LifecycleEvents.CancelAllFinishes | src/webauthentication-impl.c:109-121 | every snapshotted transaction is finished, every other untouched |
| LifecycleEvents.CancelAllTraceSafe | src/webauthentication-impl.c:109-121 | every state while the list is drained is safe |
| LifecycleDispatch.AcceptRefused | src/webauthentication-impl.c:216-222 | a failed export leaves nothing but one `invalid_request` reply |
| LifecycleDispatch.AcceptFailed | src/webauthentication-impl.c:234-241 | without a store the half-built flow is torn down, committed once and answered `no_storage` |
| LifecycleDispatch.AcceptOpened | src/webauthentication-impl.c:216-243 | an accepted Start leaves one flow held by list and session, exported, armed and connected |
| LifecycleEngine.NavigationEffect | src/webkit-session.c:166-196 | a matching navigation ends the flow and is blocked; any other only becomes the pending host |
| LifecycleEngine.ResponseEffect | src/webkit-session.c:203-223 | a matching response ends the flow and is blocked; any other changes no session state |
| LifecycleEngine.AuthenticateIdle | src/webkit-session.c:331-421 | no challenge, answered or declined, breaks the invariants between events |
| LifecycleEngine.DeadlineEffect | src/transaction.c:101-109 | a fired timer is not removed again, and ends its flow |
| LifecycleHistory.EndStep | src/transaction.c:144-178 | one commit and one reply keep the log's story for every flow and every call |
| LifecycleStory.RunStory | src/webkit-session.c:189-265 | after every run each live session's hosts and pending reason are the functions of its own history that the log defines |
| LifecycleStory.DispatchStory | src/webauthentication-impl.c:109-246 | each event keeps that |
| BackendRuns.Serve | src/webauthentication-impl.c:249-285 | the object in its main loop reaches the states the theorems are about, through exactly the listed moments, and at each of them counts equal holders and nothing freed is reached |
| Backend.WebAuthBackend.Dispatch | src/webauthentication-impl.c:123-135 | one iteration of the main loop on the object: the state after it and every state inside it; what that state is, event by event, is in `LifecycleOutcome` and `LifecycleOwner` |
| Backend.WebAuthBackend.Finish | src/transaction.c:133-186 | `finish`, stage by stage in place, through exactly the states of the finish trace; true exactly for the first call |
| Backend.WebAuthBackend.RunTeardown | src/webkit-session.c:111-142 | teardown in place: torn down first, then release, references, free |
| Backend.WebAuthBackend.Unexport | src/request-impl.c:119-127 | the exported flag, the bus's table and the reference that goes with them |
| Backend.WebAuthBackend.ForgetTransaction | src/webauthentication-impl.c:145-151 | list entry and slot given up, in that order |
| Backend.WebAuthBackend.ReleaseAdapter | src/tls/client_cert_pkcs11.c:74-81 | releasing a pkcs11 session overwrites the buffer's string and gives the buffer up; any other keeps it |
| Backend.WebAuthBackend.CancelAll | src/webauthentication-impl.c:109-121 | the three loops over the copied list, and every state they pass through |
| Backend.WebAuthBackend.SenderIsFrontend | src/webauthentication-impl.c:51-88 | the cache and up to two lookups |
| Backend.WebAuthBackend.HandleStart | src/webauthentication-impl.c:167-246 | the whole handler, with every early return |
| Backend.WebAuthBackend.HandleClose | src/request-impl.c:35-61 | the connected handler, then the class default handler |
| Backend.WebAuthBackend.OnNavigation | src/webkit-session.c:166-196 | the navigation callback |
| Backend.WebAuthBackend.OnResponse | src/webkit-session.c:203-223 | the response callback |
| Backend.WebAuthBackend.OnLoadChanged | src/webkit-session.c:239-265 | the current host after each phase of a load |
| Backend.WebAuthBackend.OnLoadFailed | src/webkit-session.c:267-289 | the load-failure callback |
| Backend.WebAuthBackend.OnAuthenticate | src/webkit-session.c:331-421 | the certificate and PIN callback, on the process-wide buffer of bytes; what it answers is in `LifecycleOutcome.SessionOutcome` |
| Backend.WebAuthBackend.OnDeadline | src/transaction.c:101-109 | the timer callback |
| Backend.WebAuthBackend.OpenSession | src/webkit-session.c:503-580 | session construction, its error path, and presentation |
| Backend.Validate | src/webauthentication-impl.c:194-214 | the argument checks, in order |
| SignInObjects.SignIn.Unref | src/transaction.c:86-99 | the last reference disarms, disconnects, drops the Request and frees |
| SignInObjects.SignIn.NewTransaction | src/transaction.c:55-78 | a new transaction holds its Request and is connected to Close |
| SignInObjects.SignIn.StartDeadline | src/transaction.c:111-117 | a timer is armed only once, and never on a finished transaction |
| SignInObjects.SignIn.UnrefRequest | src/request-impl.c:119-127 | dropping the last reference of an exported or connected Request is a fault |
| Completion.ParseUri | src/completion.c:53-103 | the first error in the code's order, found by its loop |
| Completion.CheckStartUri | src/completion.c:105-127 | the check of a start URI; which are accepted is `CompletionCases.StartAcceptedExactly` |
| Completion.CheckCompletionUri | src/completion.c:129-160 | the check of a completion URI; which are accepted is `CompletionCases.CompletionAcceptedExactly` |
| Completion.CheckMatch | src/completion.c:162-196 | the match, first difference first; which texts match is `CompletionCases.MatchesExactly` |
| CompletionCases.StartAcceptedExactly | src/completion.c:53-127 | a start URI is accepted exactly when it has at most 4096 bytes, no control character or backslash, parses without userinfo, its scheme is https in any case and its host is not empty |
| CompletionCases.CompletionAcceptedExactly | src/completion.c:53-160 | a completion URI exactly when it reads as well and has a host, or, unless its scheme is http or https, a path, and no `*` in its host |
| CompletionCases.RefusalReason | src/completion.c:53-103 | which reason `parse_uri` gives, for every text: length before characters, the first bad character, then syntax and userinfo |
| CompletionCases.StartRefusalReason | src/completion.c:112-124 | which reason a readable start URI is refused for |
| CompletionCases.CompletionRefusalReason | src/completion.c:136-157 | which reason a readable completion URI is refused for |
| CompletionCases.MatchesExactly | src/completion.c:162-196 | two texts match exactly when both read well and agree in scheme and host but for ASCII case, in port but for 443 and 80 of the web schemes, and in path |
| CompletionCases.WrittenPortMatchesExactly | src/completion.c:20-38 | of two URIs alike but for a written port, they match exactly for https and 443 or http and 80 |
| CompletionCases.HostOfPrinted | src/webkit-session.c:95-109 | the host a session remembers is the one written in the URI |
| Text.CaseIsAscii | src/completion.c:23-25 | comparing without case identifies the 26 ASCII letters with their capitals and nothing else |
| CompletionTheorems.MatchIsCanonicalEquality | src/completion.c:162-196 | two texts match exactly when both are accepted and have one canonical form |
| CompletionTheorems.MatchIsEquivalence | src/completion.c:162-196 | matching is reflexive exactly on accepted texts, symmetric and transitive |
| CompletionTheorems.MatchKeepsValidity | src/completion.c:129-196 | what matches a valid completion URI would itself be valid |
| CompletionTheorems.SuffixNeverDecides | docs/PUBLIC-INTERFACE.md:98 | query and fragment never decide: exactly the length, character and escape conditions under which appending them keeps the answer |
| CompletionTheorems.NormalFormMatchesExactly | docs/PUBLIC-INTERFACE.md:93-96 | a candidate and its printed normal form match the same requests, exactly unless it is hostless with a path normalised to two leading slashes |
| UriRoundTrip.ParsePrinted | src/completion.c:86-87 | printing well-formed components and parsing them gives the normalised components |
| UriRoundTrip.ParsedIsNormal | src/completion.c:86-87 | what the parser returns is already normal, without dot segments |
| UriRoundTrip.ReprintExactly | docs/PUBLIC-INTERFACE.md:93-96 | the printed normal form parses back, exactly unless that path problem occurs |
| UriRoundTrip.ReprintCanFail | docs/PUBLIC-INTERFACE.md:93-96 | a family of URIs for which it occurs |
| UriRoundTrip.EscapesSpellTheSame | tests/test-completion.c:136-137 | an unreserved character and its escape, in either hex case, spell the same path anywhere |
| UriRoundTrip.ParentVanishes | tests/test-completion.c:174-175 | a segment and the parent reference after it vanish together |
| UriTheorems.UnescapeIdempotent | docs/PUBLIC-INTERFACE.md:93-96 | percent normalisation is idempotent |
| UriTheorems.RemoveDotsClean | docs/PUBLIC-INTERFACE.md:93-96 | dot-segment removal terminates and leaves no dot segment |
| UriTheorems.RemoveDotsIdempotent | docs/PUBLIC-INTERFACE.md:93-96 | dot-segment removal is idempotent |
| UriTheorems.NormalPathStable | docs/PUBLIC-INTERFACE.md:93-96 | the whole path normalisation is idempotent, and neither step reintroduces what the other removed |
| Storage.BuildDirectoryName | src/storage.c:47-72 | the two loops compute the name |
| Storage.NameIsExactly | src/storage.c:47-72 | the name, character by character: the first 128 characters behind the leading dots, each kept if a letter, digit, dot, dash or underscore and otherwise an underscore |
| Storage.ModeIsExactly | src/storage.c:17-45 | `shared` and an absent mode share, `ephemeral` does not, any other word is refused, and without an application id nothing is shared |
| Storage.NameIsFixedPoint | src/storage.c:47-72 | every name is one visible path component of 1 to 128 safe characters, and exactly those ids are kept as they are |
| Storage.NameIsIdempotent | src/storage.c:47-72 | naming a name gives the name |
| Storage.NoNameExactly | src/storage.c:64-69 | an id has no name exactly when only dots remain within the bound |
| Storage.SharedStoreExactly | src/storage.c:47-72 | exactly which ids share the store of any id that has one |
| PinCache.PinBuffer.Pin | src/tls/client_cert_pkcs11.c:48-72 | a cached PIN wins over the file; otherwise the buffer holds the file's bytes and a terminator, with the space at the end of its first string cleared, and the PIN is that string |
| PinCache.ChompedExactly | src/tls/client_cert_pkcs11.c:68 | exactly the space at the end of the text is cut |
| PinCache.PinBuffer.Release | src/tls/client_cert_pkcs11.c:74-81 | the bytes of the string, and only they, are overwritten before the buffer is given up |
| PinCache.ReleaseIsCompleteExactly | src/tls/client_cert_pkcs11.c:48-81 | the buffer of a file is blank after release exactly when nothing but NULs follows the file's first NUL |
| PinCache.PlainFilesAreWiped | src/tls/client_cert_pkcs11.c:48-81 | a file without NUL yields its whole chomped text and leaves a blank buffer |
| PinCache.TextAfterNulIsLeft | src/tls/client_cert_pkcs11.c:48-81 | for any text, a NUL and any text after it: the PIN is the first text, and the second is freed as it was |
| PinCache.TailOfOneFileIsLeft | src/tls/client_cert_pkcs11.c:48-81 | one such file |
| Redact.SanitiseLoop | src/redact.c:29-57 | the loop, which makes progress on every malformed byte |
| RedactCases.SanitisesExactly | src/redact.c:29-57 | behind any printable text: nothing from 128 bytes on, `?` for a malformed byte, `_` for a control, space or format character, and any other character itself |
| RedactCases.NothingIsADash | src/redact.c:53-54 | an empty or missing value is a dash |
| RedactTheorems.PlainMessageIsSanitised | src/redact.c:152-153 | a message with neither marker is shown as sanitising leaves it |
| RedactTheorems.ErrorTextHasNoUri | src/redact.c:136-168 | for every message, at most 143 bytes, no `://`, no `pkcs11:`, no space |
| RedactTheorems.UriLeavesNoTrace | src/redact.c:153-167 | the rendering depends only on the text before the token with the first marker |
| RedactTheorems.UrisAreIndistinguishable | src/redact.c:153-167 | two messages with the same text before such tokens render identically |
| Redact.SanitiseIsClean | src/redact.c:29-57 | any bytes become 1 to 131 bytes of valid UTF-8 without space, control or format character |
| Redact.SanitiseIsIdempotent | src/redact.c:29-57 | sanitising twice is sanitising once |
| Redact.PrintableIsKept | src/redact.c:45-48 | short printable text is logged unchanged |
| Utf8.DecodesScalars | src/redact.c:36 | decoding yields scalar values in shortest form only |
| RedactCases.DecodesEncoded | src/redact.c:36 | every scalar value is decoded from its encoding, whatever follows |
| RedactCases.OnlyEncodedDecodes | src/redact.c:36 | and nothing else is decoded |
| Redact.RedactErrorText | src/redact.c:136-168 | the search for both markers and the walk back to the token's start |
| RedactTheorems.ShapeHidesSuffix | src/redact.c:60-78 | a URI's logged shape is the same whatever its query and fragment |
| RedactTheorems.ShapeShowsExactly | src/redact.c:73-77 | two logged shapes are equal exactly when scheme, sanitised host, port and path length are: nothing else of a URI shows |
| RedactTheorems.ValuesAreHidden | src/redact.c:87-98 | URIs, queries and certificate URIs show exactly their length, secrets nothing |
| RedactCases.HiddenFieldShowsLength | src/redact.c:80-98 | the text a hidden value leaves: its kind and its length in decimal, a secret only `<secret>` |
| RedactCases.PrintableFieldIsShown | src/redact.c:100-109 | a short printable value of any other kind is shown as it is |
| RedactCases.ShapeIsExactly | src/redact.c:60-78 | the shape of a URI, with its port and the length of its path in decimal |
| RedactCases.OtherShapes | src/redact.c:66-71 | what has no host shows its length, a missing value a dash |
| Redact.LogEvent | src/redact.c:112-133 | the line that is written, if one is |
| RedactTheorems.LineReadsBack | src/redact.c:112-133 | every line splits back into its event and exactly its fields: no value can add or forge one |
| RedactCases.LineIsWritten | src/redact.c:112-133 | a line is held back exactly at debug level without the verbose switch |
| PortalConf.FlattenPreferred | tools/lib.sh:219-280 | the awk program prints the flattened file; what that is, told on the files, is `PortalConfChain.FlattenedFromFiles` |
| PortalConfChain.FlattenedFromFiles | tools/lib.sh:218-280 | the whole flattened file, told on the files alone: a header, a line for each key in the order the files first assign to it, the default last |
| PortalConfChain.ResolutionIsChosen | tools/lib.sh:239-255 | the candidates of a key are the first occurrences of what the files offer in order, each its own list and then its default, up to the first file that stops it |
| PortalConfChain.ChainIsReadApart | tools/lib.sh:256-268 | every file with a line counts, and says of a key what its own last assignment says, whatever the others say |
| PortalConfChain.LastAssignedIs | tools/lib.sh:258-268 | what a file says of a key is the last assignment to it in a `[preferred]` section |
| PortalConfChain.AssignmentSetsKey | tools/lib.sh:258-268 | a line with an equals sign assigns what is behind the first one to what is before it, both without surrounding blanks |
| PortalConfChain.HeaderNamesSection | tools/lib.sh:261 | a line in brackets names a section |
| PortalConfChain.CommentIsIgnored | tools/lib.sh:260 | a line that starts with a hash or a semicolon is ignored |
| PortalConfChain.BlankLineIsIgnored | tools/lib.sh:260 | so is a blank one |
| PortalConfChain.NoAssignmentIsIgnored | tools/lib.sh:263-264 | and one without an equals sign assigns nothing |
| PortalConfChain.TrimExactly | tools/lib.sh:223 | trimming removes exactly the spaces and tabs at both ends |
| PortalConfChain.ListOffersExactly | tools/lib.sh:229-237 | a list offers its trimmed entries, but neither empty ones nor `none` |
| PortalConfChain.NoneStops | tools/lib.sh:224-228 | `none` stops a key wherever it stands and with whatever blanks around it |
| PortalConf.Flattener.ReadLine | tools/lib.sh:258-268 | one line of one file |
| PortalConf.Flattener.Flatten | tools/lib.sh:239-255 | the candidates of one key across the chain, duplicate-free, up to a stop |
| PortalConf.Flattener.Add | tools/lib.sh:229-233 | `used` and `out` hold the same entries, in order |
| PortalConfTheorems.FlatteningPreserves | tools/lib.sh:218-280 | read back as a chain of one: an unstopped key keeps its candidates in order, a stopped one stays stopped; the exact condition for the whole resolution to be kept |
| PortalConfTheorems.ResolveIsFirstOccurrences | tools/lib.sh:239-255 | the candidates are the first occurrences of what the files before the stopping one list |
| PortalConfTheorems.FirstOccurrences | tools/lib.sh:229-233 | de-duplication keeps every item once, in order of first occurrence |
| PortalConfTheorems.DefaultsAreIncluded | tools/lib.sh:245-252 | an unstopped key gets every candidate of the default |
| PortalConfTheorems.PrintedReadsBack | tools/lib.sh:269-278 | the printed file reads back as exactly the printed keys |
| PortalConfTheorems.ShownReadsBack | tools/lib.sh:238-254 | a printed list says exactly its candidates and whether it is stopped |
| PortalConfTheorems.EmptyKeyIsStopped | tools/lib.sh:270-277 | a concrete chain whose resolution is not kept |
| PortalConf.ConfFile.Set | tools/lib.sh:283-289 | the file rewritten in place |
| PortalConfEdits.SetOnFlattened | tools/lib.sh:282-289 | what a flattened file says after any setting, for every key: the new line decides for the key it is read as, a key whose line started with `key=` is gone, every other is as it was |
| PortalConfEdits.SetTakesEffectExactly | tools/lib.sh:282-289 | a setting is read back exactly when its key is plain, its line does not read as a section header and its value is not the sentinel |
| PortalConfEdits.OthersAreKept | tools/lib.sh:282-289 | setting a plain key leaves every other key of a flattened file as it was |
| PortalConfEdits.SetTwice | tools/lib.sh:283-289 | in any file, setting a key again leaves nothing of the first setting |
| PortalConf.ExperimentalPortals | tools/lib.sh:333-343 | the loop over names |
| PortalConfEdits.NamesAreAdded | tools/lib.sh:333-343 | whatever the names hold: the variable's pieces are kept in order, the pieces of each missing name are appended once, and an empty variable is replaced |
| PortalConfEdits.NamesAreEnabled | tools/lib.sh:333-343 | every non-empty name that was enabled or is asked for is enabled afterwards |
| PortalConfEdits.NamesAreKept | tools/lib.sh:333-343 | what the variable held stays its beginning |
| PortalConfEdits.EnabledMeansListed | tools/lib.sh:337-340 | the shell pattern finds a name exactly when its pieces stand together between the variable's commas |
| PortalConfEdits.PlainNameIsOnePiece | tools/lib.sh:337-340 | a name without comma exactly when it is one of those between the commas |

## Left out

- GTK, libadwaita and WebKit widgets, window parenting and chrome text: user interface; the window is a resource that is created and destroyed with its session.
- D-Bus transport, GVariant encoding and GObject machinery: only invocations answered, objects exported per path, name-owner lookups, reference counts and handler order.
- TLS, GnuTLS, PKCS#11 modules, the Certificate portal, file and directory creation: their success or failure is part of the event.
- Main loops nested inside a provider's `acquire`: every event is dispatched to its end before the next.
- New-window decisions, permission requests and downloads beyond being refused: they change no state.
- Internationalised hosts, IPv6 literals and percent escapes in hosts: hosts are registered names of section 3.2.2 of RFC 3986 in ASCII.
- GLib's acceptance of some texts outside RFC 3986 (spaces, raw non-ASCII bytes in components are passed through as they are) is not claimed to agree in every case; the parser is a stand-in.
- The Unicode table of format characters: a parameter.
- Sub-second parts of the clock: time passes in whole seconds and does not pass a due timer.
- Handles whose Request was released but whose path another process re-exports: the bus holds one object per path and refuses a second export.
- SignInObjects.SignIn.Unref: objects keep their place in the heap after they are freed, with a flag that says so, and list and registry hold ids instead of pointers.
- PortalConf.FlattenPreferred: finding the chain of files (`xdp_config_chain`) and reading lines are the shell's; a file is its sequence of lines.
- PortalConf.ConfFile.Set: a key or value that holds a line break would be written as two lines, and a backslash in a key would be read as an escape by awk's `-v`; neither is modelled.
- `src/harden.c`, `derive_key_uri`, provider selection, `src/external-window.c`, `src/chrome.c`, `src/main.c`: small or user interface.
