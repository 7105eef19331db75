# Verification of the call logic of GNOME Calls

This project models the parts of GNOME Calls that are state machines with asynchronous completions,
and proves what they keep over every run. Each module follows one component:

| file | component |
|---|---|
| `CallStates.dfy` | the call states of providers and user interface |
| `Ringer.dfy` | the ringer chasing its target state through overlapping feedback operations |
| `SdpCrypto.dfy` | offer and answer of SDES keys (sections 5.1.1 to 5.1.3 of RFC 4568) |
| `MediaPipeline.dfy` | the SIP media pipeline: three 32-bit element maps and the pipeline's life cycle |
| `SipCall.dfy` | the SIP call: answering and activating media under the encryption mode |
| `CallLifeCycle.dfy` | a call across call object, dummy origin, manager and user interface data |
| `UiCallData.dfy` | the user interface data of one call: signals, timer, delayed activation |
| `ServiceProviders.dfy` | the streaming parser of the emergency numbers in the provider database |
| `EmergencyContacts.dfy` | the emergency number table and the list of emergency contacts |
| `RecordStore.dfy` | opening the record database and recording one call |
| `ToneQueue.dfy` | the DTMF queue of the oFono origin |
| `Plugins.dfy` | plugins, providers and origin lists, and the action that sets the loaded plugins |
| `SipAccounts.dfy` | saving and loading SIP accounts |
| `Ussd.dfy` | the test for supplementary service codes |
| `Decimal.dfy` | decimal numerals |

Every module has the same shape. A value type holds the state of the component together with what is
in flight (feedback operations, timers, database operations, modem batches) and a log of what observers
were told. Functions give the meaning of each callback on that value, `Run` the meaning of any
interleaving of callbacks and completions, and lemmas state what all runs keep. A class has the
component's own fields and one method for each callback, with the loops of the original; each method is
proved to do exactly what the function says, and `View()` is the value an object stands for. Completions
of other systems (libfeedback, GStreamer, gom, libsecret, the modem, the plugin engine) are inputs that
may come in any order with any outcome.

## What the proofs found

- A ringer that switches between ringing and soft ringing ends the old event first. If that end is
  reported with reason EXPLICIT or NOT_FOUND the ringer falls silent instead of restarting
  (`Ringer.RestartSurvivesIff`), although `tests/test-ringer.c` expects the switch to ring on.
- A feedback end that fails during such a switch puts the ringer into the error state without telling
  observers (`Ringer.FailedEndAnnouncedIff`). A change of the calls that arrives there is dropped, and a
  late completion can then make the ringer ring after all calls have gone: `Ringer.RingsWithoutCalls` is
  such a run.
- Those are the only two ways in which the ringer misses what the calls ask for: `Ringer.TargetFitsIff`
  says so for every run, and `Ringer.RestFitsIff` for the ring that results.
- Key negotiation never fails on the answering side, even if an offer repeats its tags
  (`SdpCrypto.AnsweredIff`), so the refusal that the code has for that case and comments as probably
  never reached is never sent (`SipCall.NeverRefused`). On the offering side another program's answer can
  make it fail: `SdpCrypto.ForeignAnswerIff` says exactly when, and that a failure without a common tag
  is not announced. A call that only prefers encryption then runs unencrypted
  (`SipCall.OutgoingCallEncryptedIff`).
- A call added while the record database is still opening is never recorded, although the code has a
  retry for calls that are not recorded yet (`RecordStore.RecordedIffRepository`). A retry after a failed
  save loses the change of state that prompted it: `RecordStore.RetryLosesAnswer` is such a run,
  `RecordStore.CarriesIff` says exactly which stamps a record carries. A call that comes back from the
  disconnected state can be answered after its end: `RecordStore.ComingBackBreaksOrder` is such a run,
  `RecordStore.StampsOrderedIff` gives the exact condition; calls of the dummy provider never do that
  (`RecordStore.DummyCallStamps`).
- An emergency number known only from the location is listed as a contact and refused when it is called
  (`EmergencyContacts.ListedButRefusedIff`).
- A country element inside a country element closes the outer one: the numbers after it are lost, and
  only those (`ServiceProviders.NestedCountryKeepsAllIff`).
- `calls_plugin_manager_get_plugin_names` is documented to return the loaded plugins and returns all
  known ones. The model follows the code; unloading a plugin that is not loaded does nothing, so
  `Plugins.ReconciledIff` holds all the same. An empty name in the list crashes the program: the plugin
  manager refuses it without setting an error, and the action reads the message of that error.
- A country whose code is not in lower case is read from the database but never found
  (`EmergencyContacts.EntryFoundIff`).
- A SIP account for direct connections does not survive saving and loading: the property that is saved
  is never set, so the account is saved as one that is not direct, without a password, and dropped when
  it is loaded, or it comes back with a password left in the keyring, to be used against a server
  (`SipAccounts.DirectAccountIsLost`). Accounts of one user on one host share one keyring entry.
  `SipAccounts.RoundTripIff` says exactly when accounts come back unchanged.

## Model

| member | source | states |
|---|---|---|
| Ringer.RunKeepsInv | src/calls-ringer.c:84-274 | over every run with overlapping completions: a wanted ring has its own event in flight, a ring that is not wanted (or is the other ring) has an end asked for whose signal is still owed, the target is never ERROR, and observers know the state unless a restart is under way |
| Ringer.InputAlwaysAccepted | src/calls-ringer.c:205-257 | after any run every completion that is outstanding can be taken: the branch of the event lookup that must not be reached never is |
| Ringer.QuiescentMeansSettled | src/calls-ringer.c:220-274 | with nothing in flight the ringer is in ERROR, or in the wanted state and announced as such |
| Ringer.QuietStepShrinks | src/calls-ringer.c:107-202 | once calls rest, each completion and each owed end with reason NOT_FOUND or EXPLICIT lowers 3 * triggers + ends + owed signal |
| Ringer.QuietRunIsBounded | src/calls-ringer.c:181-202 | a run of completions and of ends with reason NOT_FOUND or EXPLICIT does at most as much work as is in flight at its start |
| Ringer.QuietRunReachesRest | src/calls-ringer.c:181-257 | from every reachable state, with either of the two reasons, there is such a run to rest, and it is no longer than the measure |
| Ringer.RingLoopsIff | src/calls-ringer.c:181-202 | a ringer that wants to ring triggers, ends and triggers again any number of times exactly if the ends are NATURAL or EXPIRED; with NOT_FOUND or EXPLICIT the first end brings it to rest, and no second cycle is possible |
| Ringer.BreakingEndSilences | src/calls-ringer.c:190-202 | an end with NOT_FOUND or EXPLICIT silences a ring at once, for everybody to see, gives up the target, and triggers nothing |
| Ringer.WhereStepsLead | src/calls-ringer.c:107-202 | every completion leads to its own state, or to ERROR if it failed; an end leads to silence, and gives up the target for two of the reasons; a change of the calls only moves the target |
| Ringer.WhatStepsDo | src/calls-ringer.c:84-274 | what a step starts and announces depends only on the states it comes from and leads to: an event is triggered on entering silence, or wanting a ring in it, and ended on entering its ring, or not wanting it in it; observers are told of every state outside a switch of rings; every operation in flight leaves by its own completion |
| Ringer.DesiredIff | src/calls-ringer.c:288-348 | no ring is wanted exactly if no call is incoming, shown and not silenced; a soft one exactly if there is such a call and one that is active, calling or held |
| Ringer.CallsDecideTarget | src/calls-ringer.c:330-379 | a call is added at the end, taken out where it first occurs, or replaced; and outside ERROR the target is then what the calls ask for |
| Ringer.NothingWithoutFeedback | src/calls-ringer.c:330-409 | without libfeedback, whatever the calls do, nothing is started and the ringer stays in ERROR |
| Ringer.FirstCallRings | src/calls-ringer.c:107-366 | a new ringer triggers the ringing event for its first incoming call, and rings, announced, when it is triggered |
| Ringer.TargetFitsIff | src/calls-ringer.c:181-348 | on every run the target is what the calls ask for, exactly unless a change of the calls was dropped in ERROR with a target that does not fit, or an end that breaks the loop silenced a wanted ring, and nothing has repaired that since |
| Ringer.RestFitsIff | src/calls-ringer.c:107-348 | at rest outside ERROR the ringer does what the calls ask for under the same condition; in particular it rings without calls exactly after such a miss |
| Ringer.RingsWithoutCalls | src/calls-ringer.c:107-178 | a run that ends ringing with no calls, out of the ERROR state |
| Ringer.RestartSurvivesIff | src/calls-ringer.c:84-104 | a switch of ring state survives, unseen by observers, exactly if the end is not reported as EXPLICIT or NOT_FOUND |
| Ringer.FailedEndAnnouncedIff | src/calls-ringer.c:149-178 | a failed end is announced exactly if notifications are not frozen |
| Ringer.CallsRinger.TargetStateStep | src/calls-ringer.c:220-257 | starts the operation that leads towards the target |
| Ringer.CallsRinger.SetRingState | src/calls-ringer.c:84-104 | sets the state and notifies unless frozen |
| Ringer.CallsRinger.SetTargetState | src/calls-ringer.c:260-274 | sets the target and steps if it is new |
| Ringer.CallsRinger.OnEventTriggered | src/calls-ringer.c:107-146 | the completion of a trigger |
| Ringer.CallsRinger.OnEventFeedbackEnded | src/calls-ringer.c:149-178 | the completion of an end request |
| Ringer.CallsRinger.OnFeedbackEnded | src/calls-ringer.c:181-202 | the feedback-ended signal, which retargets for the loop-breaking reasons |
| Ringer.CallsRinger.HaveActiveCall | src/calls-ringer.c:298-310 | TRUE exactly if some call is active or held |
| Ringer.CallsRinger.HaveIncomingCall | src/calls-ringer.c:313-327 | TRUE exactly if some call is incoming, not silenced and shown |
| Ringer.CallsRinger.UpdateRing | src/calls-ringer.c:330-348 | sets the target the calls ask for, except in ERROR |
| SdpCrypto.OperationsKeepInv | plugins/provider/sip/calls-sdp-crypto-context.c:107-190 | every operation keeps which lists a state goes with, returns TRUE exactly if the state changed, moves one rank up at most, and leaves a final context alone |
| SdpCrypto.RunOfOperations | plugins/provider/sip/calls-sdp-crypto-context.c:258-455 | over every run a context changes state at most twice, and both getters return attributes of one tag and one suite exactly on success |
| SdpCrypto.SomeCodecIsLawful | plugins/provider/sip/calls-srtp-utils.c:549-634 | what is asked of the opaque parser and printer can be met: lines with one key in the printed format are told apart and read back |
| SdpCrypto.HeardInOrder | plugins/provider/sip/calls-sdp-crypto-context.c:33-348 | the two loops collect exactly the attributes that are named crypto and can be parsed, each once and in the order of the media description, whatever stands in between |
| SdpCrypto.SomewhereHeard | plugins/provider/sip/calls-sdp-crypto-context.c:33-53 | every media description has a list of the positions of these attributes |
| SdpCrypto.DescribedIsHeard | plugins/provider/sip/calls-sdp-crypto-context.c:33-348 | attributes printed into a media description, with others in between, are heard unchanged and in order |
| SdpCrypto.HearsInOrder | plugins/provider/sip/calls-sdp-crypto-context.c:304-348 | a context without remote attributes takes what it hears, in order, or says FALSE if there is nothing to hear |
| SdpCrypto.SpeaksInOrder | plugins/provider/sip/calls-sdp-crypto-context.c:258-301 | the same for local attributes |
| SdpCrypto.VerdictIff | plugins/provider/sip/calls-sdp-crypto-context.c:107-190 | whoever made the offer, the first tag of the offer that the answer has too decides: success exactly if the first attributes with it have one suite; without such a tag the negotiation fails unannounced |
| SdpCrypto.AnswerVerdict | plugins/provider/sip/calls-sdp-crypto-context.c:424-455 | for any offer: an answer is made exactly if some attribute has a known suite and no session parameters; it takes the first such, and succeeds exactly if the first attribute with its tag has its suite |
| SdpCrypto.AnsweringSucceeds | plugins/provider/sip/calls-sdp-crypto-context.c:424-455 | a context that heard an offer always answers with TRUE and success on the first attribute, repeated tags or not |
| SdpCrypto.AnsweredIff | plugins/provider/sip/calls-sdp-crypto-context.c:304-455 | a new context answers a media description exactly if some attribute named crypto can be parsed, and then with success, on the first such attribute of the description |
| SdpCrypto.PartiesAgree | plugins/provider/sip/calls-sdp-crypto-context.c:138-189 | whatever is offered, with repeated tags or not and with other attributes in between, is answered, and once the answer is heard both parties hold the same two lists and have succeeded on the first attribute, each one's local attribute being the other's remote one |
| SdpCrypto.ForeignAnswerIff | plugins/provider/sip/calls-sdp-crypto-context.c:304-348 | any answer settles the program's own offer: with success exactly if the lowest offered tag it names carries the suite offered under it; a failure is announced exactly if it names an offered tag |
| SdpCrypto.OwnOfferSucceeds | plugins/provider/sip/calls-sdp-crypto-context.c:377-421 | two copies of this program always agree on tag 1 and its suite |
| SdpCrypto.VerdictAnnouncedIff | plugins/provider/sip/calls-sdp-crypto-context.c:93-190 | the final state is announced exactly if the lists have a tag in common |
| SdpCrypto.CryptoContext.GetAllCryptoAttributes | plugins/provider/sip/calls-sdp-crypto-context.c:33-53 | the crypto lines of a media description, in order |
| SdpCrypto.CryptoContext.GetCryptoAttributeByTag | plugins/provider/sip/calls-sdp-crypto-context.c:74-90 | the first attribute with a tag, or none |
| SdpCrypto.CryptoContext.FindCommonTag | plugins/provider/sip/calls-sdp-crypto-context.c:138-165 | the first tag of one list that occurs in the other |
| SdpCrypto.CryptoContext.UpdateState | plugins/provider/sip/calls-sdp-crypto-context.c:107-190 | the next state, and whether it changed |
| SdpCrypto.CryptoContext.SetLocalMedia | plugins/provider/sip/calls-sdp-crypto-context.c:258-301 | takes the local attributes once, if any can be parsed |
| SdpCrypto.CryptoContext.SetRemoteMedia | plugins/provider/sip/calls-sdp-crypto-context.c:304-348 | takes the remote attributes once, if any can be parsed |
| SdpCrypto.CryptoContext.GenerateOffer | plugins/provider/sip/calls-sdp-crypto-context.c:377-421 | offers the four suites with tags 1 to 4 from the initial state only |
| SdpCrypto.CryptoContext.GenerateAnswer | plugins/provider/sip/calls-sdp-crypto-context.c:424-455 | answers a remote offer with the first supported attribute |
| MediaPipeline.RaiseAddsElement | plugins/provider/sip/calls-sip-media-pipeline.c:277-344 | or-ing an element's bit into a word adds that element and no other |
| MediaPipeline.ClearRemovesElement | plugins/provider/sip/calls-sip-media-pipeline.c:277-344 | and-ing with the complement removes that element and no other |
| MediaPipeline.FullMapIff | plugins/provider/sip/calls-sip-media-pipeline.c:49-79 | a word equals the all-elements mask exactly if it holds the required elements |
| MediaPipeline.SendingTestIff | plugins/provider/sip/calls-sip-media-pipeline.c:49-79 | the mask test for sending holds exactly if all sending elements are in the word |
| MediaPipeline.MapsRefineReports | plugins/provider/sip/calls-sip-media-pipeline.c:277-344 | over every run an element is in a map exactly if its last PLAYING, PAUSED or NULL report was that state |
| MediaPipeline.TestsExclude | plugins/provider/sip/calls-sip-media-pipeline.c:189-223 | the three maps are disjoint and at most one of the three all-elements tests holds |
| MediaPipeline.PlayingIff | plugins/provider/sip/calls-sip-media-pipeline.c:189-223 | a report makes the pipeline PLAYING exactly if the elements that last reported PLAYING are the required ones, no more and no fewer |
| MediaPipeline.ReportMeans | plugins/provider/sip/calls-sip-media-pipeline.c:156-344 | a report leads to the state that exactly the required elements last reported, if there is one; otherwise sending-started is emitted exactly if all six senders last reported PLAYING and it was not emitted since the state changed |
| MediaPipeline.PipelineArrives | plugins/provider/sip/calls-sip-media-pipeline.c:189-344 | in whatever order its elements report, and whatever they reported before, the pipeline is playing, paused or stopped once all the elements it consists of have reported so |
| MediaPipeline.GivingMeans | plugins/provider/sip/calls-sip-media-pipeline.c:1098-1193 | the first available codec makes the pipeline ready with the keys it has then, or puts it into ERROR if it cannot be set up or linked; the first keys of one suite and one tag are taken; nothing else is |
| MediaPipeline.CommandsMean | plugins/provider/sip/calls-sip-media-pipeline.c:1263-1356 | start acts on a ready pipeline, pause on one that plays or is about to, resume on one that is paused or about to be, stop on any; in every other state the command changes nothing |
| MediaPipeline.ConstructedIsSound | plugins/provider/sip/calls-sip-media-pipeline.c:842-870 | a new pipeline waits for a codec, or is in ERROR if it could not be set up, and has what the runs keep |
| MediaPipeline.LifeCycleOverRuns | plugins/provider/sip/calls-sip-media-pipeline.c:1098-1293 | over every run the codec is set at most once and stays, READY is entered at most once, start takes effect at most once |
| MediaPipeline.SendingSignal | plugins/provider/sip/calls-sip-media-pipeline.c:156-223 | between two state changes sending-started is emitted at most once, and only while every sending element plays |
| MediaPipeline.SipMediaPipeline.SetState | plugins/provider/sip/calls-sip-media-pipeline.c:156-186 | enters another state and re-arms the sending signal |
| MediaPipeline.SipMediaPipeline.CheckElementMaps | plugins/provider/sip/calls-sip-media-pipeline.c:189-223 | the tests on the three words do what the sets of elements say |
| MediaPipeline.SipMediaPipeline.OnStateChanged | plugins/provider/sip/calls-sip-media-pipeline.c:277-344 | moves the reporting element between the words and checks them |
| MediaPipeline.SipMediaPipeline.DoSetCodec | plugins/provider/sip/calls-sip-media-pipeline.c:1098-1139 | takes the first codec that can be set up and linked |
| MediaPipeline.SipMediaPipeline.DoSetCrypto | plugins/provider/sip/calls-sip-media-pipeline.c:1142-1193 | takes keys once, if both are given with one suite and one tag |
| MediaPipeline.SipMediaPipeline.DoStart | plugins/provider/sip/calls-sip-media-pipeline.c:1263-1293 | starts from READY only |
| MediaPipeline.SipMediaPipeline.DoPause | plugins/provider/sip/calls-sip-media-pipeline.c:1314-1356 | pauses or resumes only a pipeline that plays, pauses or is about to |
| SipCall.ModeHonoured | plugins/provider/sip/calls-sip-call.c:360-402 | over every run: under FORCED a started pipeline was negotiated, has SRTP on with the negotiated keys, and its codec was set up with SRTP on; every 200 carries crypto lines; under NONE no SRTP and no crypto lines |
| SipCall.NeverRefused | plugins/provider/sip/calls-sip-call.c:114-123 | over every run no answer is refused: the 488 branch is never taken |
| SipCall.OfferedCallEncrypted | plugins/provider/sip/calls-sip-call.c:86-153 | a call that was offered keys and may encrypt answers 200 with a key for the first attribute and always runs encrypted |
| SipCall.IncomingCallEncryptedIff | plugins/provider/sip/calls-sip-call.c:86-153 | an incoming call under NONE is answered 200 without keys and runs plain; under PREFERRED it is always answered, and runs encrypted exactly if it was offered keys; under FORCED it is answered exactly if it was, and otherwise left alone |
| SipCall.ActivationMeans | plugins/provider/sip/calls-sip-call.c:360-402 | under FORCED without negotiated keys activation changes nothing; otherwise the pipeline gets the keys, if any, and starts, unless its codec is missing (it waits) or cannot be set up (ERROR) |
| SipCall.IncomingCall | plugins/provider/sip/calls-sip-call.c:86-402 | from the first message to the media, for any description of the other side: the response, the state, and whether the call runs, with which two keys |
| SipCall.OutgoingCall | plugins/provider/sip/calls-sip-call.c:86-402 | from the offer to the media: an outgoing call runs encrypted exactly if encryption is not disabled and the answer is acceptable, otherwise plain unless encryption is forced |
| SipCall.StartedCallPlays | plugins/provider/sip/calls-sip-call.c:360-402 | the media of a started call play once all elements have reported, in any order, and stop when deactivated |
| SipCall.OutgoingCallEncryptedIff | plugins/provider/sip/calls-sip-call.c:360-402 | a call that offered keys runs encrypted exactly if the answer is acceptable; otherwise it runs plain under PREFERRED and not at all under FORCED |
| SipCall.SipCallObject.DoAnswer | plugins/provider/sip/calls-sip-call.c:86-153 | the response and state of an answered call in every mode |
| SipCall.SipCallObject.ActivateMedia | plugins/provider/sip/calls-sip-call.c:360-402 | gives keys, codec and start to the pipeline in that order, or stops it |
| CallLifeCycle.ExactlyOnce | src/calls-manager.c:246-322 | on every run the shown calls are the disjoint union of live calls and calls with one pending removal; each call is added once, removed at most once, and the removal that finds no call never happens |
| CallLifeCycle.RunKeepsInv | plugins/provider/dummy/calls-dummy-origin.c:70-141 | every run keeps: an origin lists once exactly its connected calls, each shown in its own state; an unanswered outbound call has exactly one timeout to move it on |
| CallLifeCycle.HangUpIsHungUp | plugins/provider/dummy/calls-dummy-origin.c:70-122 | hanging up one call, with its re-entrant removal, is the closed form for one call |
| CallLifeCycle.HangUpMore | plugins/provider/dummy/calls-dummy-call.c:57-63 | hanging up two disjoint groups one after the other is hanging up their union, so the order does not matter |
| CallLifeCycle.HangUpOriginsIsAll | src/calls-manager.c:749-774 | the nested loops, reading each list when its turn comes, hang up exactly the connected calls |
| CallLifeCycle.HangUpAllMeans | src/calls-manager.c:749-774 | every connected call is hung up exactly once, no other call is touched, every origin is left empty |
| CallLifeCycle.SweepIsHungUp | src/calls-manager.c:581-592 | in whatever order the hash table yields its calls, exactly those of detached origins are hung up |
| CallLifeCycle.NothingLeftToDispose | plugins/provider/dummy/calls-dummy-origin.c:86-101 | after the providers' change the lists of the origins that went are empty |
| CallLifeCycle.UnloadMeans | src/calls-manager.c:551-595 | unloading hangs up the calls of its origins, leaves the other calls and lists alone, and disposing of the origins announces nothing |
| CallLifeCycle.DisconnectedForGood | src/calls-call.c:446-469 | over every run a call keeps origin and direction, never goes back, and once disconnected stays so without a second removal |
| CallLifeCycle.NewlyShown | src/calls-manager.c:246-263 | only a call that is being added is newly shown |
| CallLifeCycle.CallsManager.AddCall | plugins/provider/dummy/calls-dummy-origin.c:125-141 | a new call is listed at the end, shown and announced |
| CallLifeCycle.AddedMeans | src/calls-manager.c:246-263 | a new call is unknown before; it is listed last by its origin, shown by its direction, announced for the first time, and has a timeout of its own exactly if it goes out; nothing else changes |
| CallLifeCycle.AnsweredMeans | plugins/provider/dummy/calls-dummy-call.c:48-55 | answering an incoming call makes it active and shown as active, still listed and with no pending removal; nothing else changes, and answering any other call changes nothing |
| CallLifeCycle.TimeoutMeans | plugins/provider/dummy/calls-dummy-call.c:72-97 | the timeout makes a dialed call alert and starts again, makes an alerting call active, and otherwise only runs out |
| CallLifeCycle.HangUpMeans | src/calls-call.c:446-520 | hanging up a connected call disconnects it, takes it out of its list, shows it as disconnected and starts its one removal; a disconnected one only counts the request |
| CallLifeCycle.RemovalMeans | src/calls-manager.c:272-292 | the delayed removal concerns a disconnected call that is still shown, and only ends that |
| CallLifeCycle.DisposedMeans | plugins/provider/dummy/calls-dummy-origin.c:86-101 | an origin disposed of while it lists calls starts one removal for each |
| CallLifeCycle.OutboundCallConnects | plugins/provider/dummy/calls-dummy-call.c:72-121 | left alone, an outbound call alerts at its first timeout and is active at its second, which is its last |
| CallLifeCycle.CallsManager.RemoveFromOrigin | plugins/provider/dummy/calls-dummy-origin.c:70-83 | the call leaves the list and its delayed removal starts |
| CallLifeCycle.CallsManager.SetCallState | src/calls-call.c:446-469 | a new state reaches the origin and the user interface data |
| CallLifeCycle.CallsManager.CallHangUp | src/calls-call.c:509-520 | marks the call as hung up by us and disconnects it |
| CallLifeCycle.CallsManager.Answer | plugins/provider/dummy/calls-dummy-call.c:48-55 | answers an incoming call only |
| CallLifeCycle.CallsManager.OutboundTimeout | plugins/provider/dummy/calls-dummy-call.c:72-97 | steps an outbound call from dialing to alerting to active |
| CallLifeCycle.CallsManager.OnRemoveDelayed | src/calls-manager.c:272-292 | announces and drops the call, or notes that it was not found |
| CallLifeCycle.CallsManager.HangUpOrigin | src/calls-manager.c:762-771 | the loop over a copy while the origin's own list shrinks |
| CallLifeCycle.CallsManager.HangUpAllCalls | src/calls-manager.c:749-774 | the loop over all attached origins |
| CallLifeCycle.CallsManager.OnProvidersChanged | src/calls-manager.c:551-595 | the loop over the shown calls after origins went |
| CallLifeCycle.CallsManager.DisposeOrigin | plugins/provider/dummy/calls-dummy-origin.c:86-101 | the destructive loop announces every call still listed |
| UiCallData.ChainOverRuns | src/calls-ui-call-data.c:260-302 | over every run the state-changed signals form a chain of real changes ending in the shown state; the timer exists exactly since the call last became active; an incoming call's interface becomes active exactly if its delay expires, and never once it was disconnected before |
| UiCallData.ConstructedMeans | src/calls-ui-call-data.c:427-443 | an incoming call waits for the delay, any other call is active in the interface at once; its state is announced, and its time runs exactly if it is active |
| UiCallData.ChangeMeans | src/calls-ui-call-data.c:260-302 | a change is announced with the state before, starts the time of an active call, and ends time and delay of a disconnected one |
| UiCallData.SilencedIff | src/calls-ui-call-data.c:685-696 | over every run a call is silenced exactly if somebody asked for it while the call came in |
| UiCallData.IncomingMayRingIff | src/calls-ui-call-data.c:412-443 | over every run an incoming call may ring exactly while it is incoming, once its delay has expired, and unless it was silenced |
| UiCallData.CallsUiCallData.SetUiState | src/calls-ui-call-data.c:260-302 | announces a change, keeps the timer, and drops the pending activation on disconnection |
| UiCallData.CallsUiCallData.constructor | src/calls-ui-call-data.c:427-443 | only an incoming call starts with a delay |
| UiCallData.CallsUiCallData.OnDelaySetActive | src/calls-ui-call-data.c:412-422 | the delay is over: the interface becomes active |
| UiCallData.CallsUiCallData.DoSilenceRing | src/calls-ui-call-data.c:685-696 | an incoming call can be silenced |
| ServiceProviders.ParserComputesMeaning | src/calls-service-providers.c:60-283 | parsing any well-formed document aborts nowhere and enters its countries in document order |
| ServiceProviders.TableOfDocument | src/calls-service-providers.c:236-251 | with distinct codes the table maps exactly the countries with a number to their numbers in order |
| ServiceProviders.FlagsAreCallees | src/calls-service-providers.c:128-211 | a number is for police, ambulance or fire brigade exactly if some callee inside it, at any depth, has "police", "ambulance" or "fire-brigade" as the value of its first type attribute; never for mountain rescue |
| ServiceProviders.LookupIff | src/calls-service-providers.c:75-162 | the attribute loops yield the value of the first attribute of the name, up to one without a name |
| ServiceProviders.SupportedIff | src/calls-service-providers.c:60-74 | the format is supported exactly if no format attribute, up to one without a name, asks for another than 2.0 |
| ServiceProviders.AssertionsHoldAlways | src/calls-service-providers.c:107-162 | on any events whatsoever the assertions that no number and no kinds are left over hold |
| ServiceProviders.WrongFormatYieldsNothing | src/calls-service-providers.c:60-74 | a root of another format yields an empty table whatever it contains |
| ServiceProviders.DocumentFailsIff | src/calls-service-providers.c:75-211 | over a whole document whose countries have well-formed content, the parser fails exactly if some country's code is missing or not of two letters, or some number lacks its own number, which counts as a failure here |
| ServiceProviders.NestedCountryKeepsAllIff | src/calls-service-providers.c:236-251 | a country whose content is well-formed but for one country nested in it, at any depth, enters its numbers up to the end of the nested one: all of them exactly if none follows |
| ServiceProviders.ParseContext.ToplevelStart | src/calls-service-providers.c:60-93 | the attribute loops for format and code |
| ServiceProviders.ParseContext.NumbersStart | src/calls-service-providers.c:107-126 | the attribute loop for the number |
| ServiceProviders.ParseContext.NumberStart | src/calls-service-providers.c:144-162 | the attribute loop for the callee's type |
| ServiceProviders.ParseContext.StartElement | src/calls-service-providers.c:165-199 | the dispatch of a start event |
| ServiceProviders.ParseContext.EndElement | src/calls-service-providers.c:202-283 | the dispatch of an end event |
| EmergencyContacts.DatabaseOverridesBuiltins | src/calls-emergency-call-types.c:283-321 | a country of the database keeps its entry, any other has that of the first built-in of its code |
| EmergencyContacts.UnsetSlotsNeverAppear | src/calls-emergency-call-types.c:303-313 | unset built-in slots never appear, and all set ones do exactly if none follows an unset one |
| EmergencyContacts.CountryOffersItsNumbers | src/calls-emergency-call-types.c:393-417 | a country of a well-formed document, its code in lower case, offers exactly its numbers in document order, however the code is written and whatever the built-ins say |
| EmergencyContacts.EntryFoundIff | src/calls-emergency-call-types.c:393-417 | an entry is found under some code exactly if its own code has no capital letter |
| EmergencyContacts.WrittenAsIff | src/calls-emergency-call-types.c:393-417 | a code is found however it is written: letter by letter the same, or its capital |
| EmergencyContacts.DedupKeepsFirsts | src/calls-emergency-calls-manager.c:127-193 | of the contacts of all origins exactly the first of each number is kept, in order |
| EmergencyContacts.ListedIff | src/calls-emergency-calls-manager.c:140-184 | the candidates are exactly the origins' own numbers and those of their locations |
| EmergencyContacts.ListedContactIs | src/calls-emergency-calls-manager.c:127-193 | the list has exactly one contact for every number some origin knows: that of the first such origin, from its location, named by the network's country, if the location has the number, else of unknown source and named by the country of the account |
| EmergencyContacts.ListedButRefusedIff | src/calls-emergency-calls-manager.c:69-103 | every number that can be called is listed, and a listed one is refused exactly if it is only known from the location |
| EmergencyContacts.InitTypes | src/calls-emergency-call-types.c:283-321 | the loop that adds the built-in fallbacks |
| EmergencyContacts.LabelsTellFlags | src/calls-emergency-call-types.c:330-355 | a name is missing exactly if no flag is set, and its parts tell which flags are |
| EmergencyContacts.NamesAreJoined | src/calls-emergency-call-types.c:330-355 | the parts of a name, in the order police, ambulance, fire brigade, mountain rescue, are joined by commas |
| EmergencyContacts.ContactMeans | src/calls-emergency-call-types.c:358-383 | a contact is named by the flags of the first slot with its number in the country asked, and by its number if the country is unknown, has no such slot, or sets no flag |
| EmergencyContacts.CountryNamesItsNumbers | src/calls-emergency-call-types.c:358-383 | a number of a well-formed document is named after whom the document says it reaches, whatever the built-ins say |
| EmergencyContacts.GetName | src/calls-emergency-call-types.c:358-383 | the name made of the flags of the first entry with the number |
| EmergencyContacts.AddContacts | src/calls-emergency-calls-manager.c:147-163 | one inner loop adds the contacts whose numbers are new, in order |
| EmergencyContacts.GetEmergencyContacts | src/calls-emergency-calls-manager.c:127-193 | the nested loops compute the first-occurrence list over location numbers, then own numbers, of each origin |
| EmergencyContacts.CallEmergencyContact | src/calls-emergency-calls-manager.c:69-103 | the first origin that lists the number dials it, or there is an error |
| RecordStore.BusyCountsOutstanding | src/calls-record-store.c:154-425 | after every callback busy is the number of outstanding operations and at most 1, no opening meets a repository, db-done was sent once for every opening that is over, and records are loaded at most once |
| RecordStore.RetryIff | src/calls-record-store.c:395-425 | at rest, asking for the repository opens it exactly if the last opening did not succeed |
| RecordStore.StoreStepMeans | src/calls-record-store.c:154-425 | each callback that succeeds starts the next operation: opening the migration, migration the search, search the loading if something was found; a failed opening or migration gives the adapter up; db-done is sent after the migration or a failed opening |
| RecordStore.LoadedIff | src/calls-record-store.c:154-208 | on every run the records are loaded exactly if a loading has succeeded |
| RecordStore.OpeningSucceeds | src/calls-record-store.c:154-425 | an opening in which everything succeeds can run through all four operations, and ends with the records loaded and success reported once |
| RecordStore.RecordedOnce | src/calls-record-store.c:434-505 | over every run a call has at most one record in the list and one save outstanding, and no stamp is overwritten |
| RecordStore.FailsIff | src/calls-record-store.c:511-632 | the handler fails exactly if it sees a change from or to the unknown state of a call that has a record; a state that is reported again does nothing |
| RecordStore.StampsInOrder | src/calls-record-store.c:530-674 | for a call that stays disconnected once it is, start <= answered <= end |
| RecordStore.StampsOrderedIff | src/calls-record-store.c:530-632 | on every run of any call, answered <= end in all its records exactly if no followed call was answered after its record had ended |
| RecordStore.StepBreaksOrderIff | src/calls-record-store.c:557-632 | one step breaks the order exactly if it goes from started to answered on a record without an answer and with an earlier end |
| RecordStore.ComingBackBreaksOrder | src/calls-record-store.c:557-632 | a run that meets that condition: a call comes back from disconnected and is answered |
| RecordStore.CarriesIff | src/calls-record-store.c:434-674 | on every run of any call, its record carries a stamp exactly if the change was seen while the call had a record and no save has failed since |
| RecordStore.ListedStampIff | src/calls-record-store.c:434-674 | the same for the one record that ends up in the list |
| RecordStore.StampsTellStageIff | src/calls-record-store.c:557-632 | for a call going forward, with any failures: no stamp comes early, and the record of an answered or ended call says so exactly under the condition of CarriesIff |
| RecordStore.StampsTellStage | src/calls-record-store.c:557-632 | in particular, as long as no save fails the record is answered and ended exactly as the call is |
| RecordStore.ProjectedRunGoesForward | plugins/provider/dummy/calls-dummy-call.c:48-97 | every run of the whole life cycle, with any saves and any time in between, is to the record of a dummy call a possible run that goes forward and never comes back from disconnected |
| RecordStore.DummyCallStamps | src/calls-record-store.c:434-674 | from its addition on, the record of a dummy call keeps start <= answered <= end on every run of the whole life cycle, tells the stage the call is shown in unless a save failed, and exists exactly if there was a repository |
| RecordStore.RetryLosesAnswer | src/calls-record-store.c:557-590 | a run on which the condition of CarriesIff fails: after a failed save an answered call is listed as never answered |
| RecordStore.RecordedIffRepository | src/calls-record-store.c:635-658 | a call is recorded exactly if there is a repository when it is added, on any run |
| RecordStore.CallsRecordStore.DoOpenRepo | src/calls-record-store.c:395-425 | starts an opening unless there is an adapter |
| RecordStore.CallsRecordStore.SetUpRepo | src/calls-record-store.c:310-338 | starts the migration unless there is a repository |
| RecordStore.CallsRecordStore.OpenCallback | src/calls-record-store.c:365-392 | the completion of opening |
| RecordStore.CallsRecordStore.MigrateCallback | src/calls-record-store.c:279-307 | the completion of migration |
| RecordStore.CallsRecordStore.FindCallback | src/calls-record-store.c:211-248 | the completion of the search |
| RecordStore.CallsRecordStore.FetchCallback | src/calls-record-store.c:154-208 | the completion of loading |
| RecordStore.RecordedCall.RecordCall | src/calls-record-store.c:469-505 | makes a record from the call's start and saves it |
| RecordStore.RecordedCall.SaveCallback | src/calls-record-store.c:434-466 | a saved record is listed, a failed one forgotten |
| RecordStore.RecordedCall.StampAsAnswered | src/calls-record-store.c:530-554 | stamps once |
| RecordStore.RecordedCall.StampAsEnded | src/calls-record-store.c:530-554 | stamps once |
| RecordStore.RecordedCall.OnStateChanged | src/calls-record-store.c:557-632 | retries, stamps, or does nothing, by old and new stage |
| RecordStore.RecordedCall.OnCallAdded | src/calls-record-store.c:635-658 | records the call if there is a repository, otherwise opens one |
| RecordStore.RecordedCall.OnCallRemoved | src/calls-record-store.c:661-674 | stamps the end and stops listening |
| ToneQueue.TonesConserved | plugins/provider/ofono/calls-ofono-origin.c:482-540 | over every interleaving the batches sent, then the queue, are exactly the keys pressed; at most one batch is outstanding, and keys wait only while one is |
| ToneQueue.FromIdle | plugins/provider/ofono/calls-ofono-origin.c:482-540 | from the start the first key is sent at once, and over every interleaving the keys sent and queued are the keys pressed, with one reply for every batch but the outstanding one |
| ToneQueue.QueueDrains | plugins/provider/ofono/calls-ofono-origin.c:482-514 | without further keys at most two replies empty the queue |
| ToneQueue.OfonoTones.OnTone | plugins/provider/ofono/calls-ofono-origin.c:517-540 | sends a key at once or queues it |
| ToneQueue.OfonoTones.OnTonesSent | plugins/provider/ofono/calls-ofono-origin.c:482-514 | sends the queue as one batch, or goes idle |
| Plugins.SpliceKeepsMirror | src/calls-manager.c:551-579 | any splice of the provider store, repeated on the origin lists, keeps them equal index by index |
| Plugins.SpliceAt | src/calls-manager.c:551-579 | which element is where after a change of the list: those before the position, those added, those that follow |
| Plugins.LoadKeepsInv | src/calls-plugin.c:262-310 | loading keeps the store equal to the providers of the loaded plugins, each once, and affects that plugin only |
| Plugins.UnloadKeepsInv | src/calls-plugin.c:313-337 | so does unloading, because the provider is cleared after the flag is announced |
| Plugins.LoadMeans | src/calls-plugin.c:262-310 | loading makes the engine's provider the last of the store and its origins the last of the manager's lists; a loaded plugin, or one without a provider, is left alone |
| Plugins.UnloadMeans | src/calls-plugin.c:313-337 | unloading takes out the plugin's provider and its origins, and leaves the others in their order |
| Plugins.ReconciledIff | src/calls-application.c:170-215 | an empty list changes nothing; with any other the action crashes exactly if an empty name is asked for, and otherwise a known plugin is loaded exactly if it was wanted and was loaded or some attempt succeeded, or was unwanted and loaded and could not be unloaded |
| Plugins.NoFailureMeansExact | src/calls-application.c:170-215 | if the engine never fails and the action does not crash, a known plugin is loaded exactly if its name was asked for |
| Plugins.PluginManager.FindPluginByName | src/calls-plugin-manager.c:63-88 | the first plugin of a name |
| Plugins.PluginManager.OnLoaded | src/calls-plugin-manager.c:91-115 | adds or removes the provider the plugin has at that moment |
| Plugins.PluginManager.OnProvidersChanged | src/calls-manager.c:551-579 | the splice of the origin lists |
| Plugins.PluginManager.LoadPlugin | src/calls-plugin-manager.c:286-305 | loads by name, and returns TRUE exactly if the plugin is loaded afterwards |
| Plugins.PluginManager.UnloadPlugin | src/calls-plugin-manager.c:308-327 | unloads by name |
| Plugins.PluginManager.SetPluginNames | src/calls-application.c:170-215 | the two loops of the action, up to the crash at an empty name |
| SipAccounts.GroupNamesDiffer | plugins/provider/sip/calls-sip-provider.c:835-851 | group names of different indices differ, for every index |
| SipAccounts.SaveWritesOneGroupEach | plugins/provider/sip/calls-sip-provider.c:834-851 | saving into an empty file writes one group for each account, in order, each with direct mode FALSE |
| SipAccounts.MadeIsSteady | plugins/provider/sip/calls-sip-origin.c:1135-1156 | every origin that is made has a host, a user, a valid protocol and allowed ports, and making it again changes nothing; one for direct connections has lost its password |
| SipAccounts.MadeMeans | plugins/provider/sip/calls-sip-origin.c:1332-1410 | an origin keeps each number that is in range and has 0 for each that is not; its protocol is one of three; one for direct connections has the machine's host, its user or else the machine's, no password, and UDP |
| SipAccounts.SavedMeans | plugins/provider/sip/calls-sip-provider.c:278-339 | the saved form of an account, key by key, and what goes to the keyring |
| SipAccounts.AccountComesBack | plugins/provider/sip/calls-sip-provider.c:96-339 | an account in range, not direct and with its credentials, comes back as it is; only an absent proxy or display name comes back empty |
| SipAccounts.GroupLoadsIff | plugins/provider/sip/calls-sip-provider.c:96-187 | a group is loaded exactly if its protocol is known and it connects directly or has host, user and password; and becomes one account with what it says |
| SipAccounts.BareGroupLoads | plugins/provider/sip/calls-sip-provider.c:96-187 | the defaults of all missing keys |
| SipAccounts.PutReplaces | plugins/provider/sip/calls-sip-provider.c:278-339 | saving into a file replaces a group of the same name where it stands, and no other |
| SipAccounts.RoundTripIff | plugins/provider/sip/calls-sip-provider.c:96-187 | saving the accounts of any origins, into any keyring, and loading them gives the same list, normalised, exactly if none connects directly, none lacks credentials, and accounts of one host and user have one password |
| SipAccounts.DirectAccountIsLost | plugins/provider/sip/calls-sip-origin.c:1385-1472 | an account for direct connections is lost by saving and loading it, or comes back as one that is not direct, with a password the keyring had |
| SipAccounts.DistinctAccountsRoundTrip | plugins/provider/sip/calls-sip-provider.c:813-851 | accounts of different hosts or users come back exactly if none connects directly and none lacks credentials |
| SipAccounts.LookupsInAnyOrder | plugins/provider/sip/calls-sip-provider.c:190-225 | in whatever order the pending lookups finish, the provider ends up with the same accounts, each as often; with the same list if they finish in order |
| SipAccounts.LookupsInOrder | plugins/provider/sip/calls-sip-provider.c:813-831 | lookups that finish in the order in which they were started load the accounts in file order and leave none pending |
| SipAccounts.SaveAfterLoadIff | plugins/provider/sip/calls-sip-provider.c:278-339 | saving what was loaded writes the same file again exactly if the keyring had a password for every account |
| SipAccounts.SaveAfterLoadKeepsKeyring | plugins/provider/sip/calls-sip-provider.c:329-338 | and it leaves the keyring as it is, whatever the file was |
| SipAccounts.SipProvider.AddOriginFull | plugins/provider/sip/calls-sip-provider.c:720-779 | makes an origin and adds it at the end, unless the protocol is not valid |
| SipAccounts.SipProvider.NewOrigin | plugins/provider/sip/calls-sip-origin.c:1332-1410 | sets the allowed properties, refuses a privileged local port, and sets up an account for direct connections |
| SipAccounts.SipProvider.OnPasswordLookedUp | plugins/provider/sip/calls-sip-provider.c:96-187 | one pending lookup finishes: its account is made, with defaults for missing keys, unless it lacks credentials |
| SipAccounts.SipProvider.LoadAccounts | plugins/provider/sip/calls-sip-provider.c:813-831 | starts one lookup for each group, in file order |
| SipAccounts.SipProvider.SaveAccounts | plugins/provider/sip/calls-sip-provider.c:834-851 | the loop over the accounts |
| Ussd.NumberIsUssd | src/calls-util.c:77-97 | the greedy scan accepts exactly a star or hash, a non-empty body of digits and stars, and a hash; or the same with a second hash and a body that may be empty |

## Left out

- GTK widgets, D-Bus objects, sofia-sip, GStreamer elements and links, libsecret, libfeedback and gom: their completions are inputs with any outcome.
- Memory management, reference counts, freed user data of timers, logging and translations.
- `CallLifeCycle.CallsManager` keeps the fields of calls, origins and user interface data in tables addressed by handle; aliasing between those objects is not modelled. The manager is there before any provider is loaded, so an origin has no calls when it is added. Only origins of the dummy kind are covered: providers with their own call lists can announce a call twice.
- `Plugins.PluginManager` keeps the plugins as rows of a list and identifies a provider's origin list with the provider; module names are distinct, as the plugin engine makes them and not empty.
- Parsing and printing of a crypto line and key generation (`calls-srtp-utils.c`) are opaque functions: a parsed attribute has a tag in range, one of four suites and no session parameters, a generated key fits its suite, and a printed attribute reads back.
- The pipeline of a SIP call may be missing before the media is set up; the model starts once it exists.
- `ServiceProviders.ParseContext`: the text buffer is dropped, since nothing reads it; a number element without its attribute counts as a failure where the original lists a null pointer; a set of kinds stands for the flag word.
- The rows of the built-in emergency number table: the table is a parameter.
- `on_origins_changed` of the emergency calls manager, which looks up `position - i`: which origins are watched for changes is not modelled.
- RecordStore covers each call on its own and the opening of the database; the order of records of different calls in the list, deletion of records and the later saves of stamps are not modelled.
- `SipAccounts.SipProvider`: storing in the keyring succeeds when host, user and password are given, and fails otherwise; a lookup reports what is stored, and nothing for a group without a host or a user (no saved account has such a group); a property value out of its range is not set; indices are those a list can have. Changing the credentials of an account and the network watch are not modelled.
- Whether `pause` ever reaches PAUSED: some elements are locked in their state, so the paused map need not fill.
- The ModemManager call table and the USSD state of the oFono origin.
- The network watch, audio playback, contact search, best matches, the MCC table and the codec table.
