# A verified model of the AppRTC call protocol

This project models one AppRTC command-line peer (its call controller, its peer connection client and its
signaling client), two such peers in one room, and the tone generator that feeds the audio track. It proves what
holds in every run, whatever the room server, the socket, the media stack, the clock and the other peer do, and in
whatever order their events arrive.

## How it is built

The three mutable components are classes whose fields and loops are those of the sources:

| class | file | source |
|---|---|---|
| `CallControl.CallController` | `call_controller.dfy` | `src/apprtc_call.cc` |
| `PeerConnection.PeerConnectionClient` | `peer_connection.dfy` | `src/apprtc_peer_connection.cc` |
| `SignalingClient.AppRtcSignalingClient` | `signaling_client.dfy` | `src/apprtc_signaling_client.cc` |
| `SineWaveCapturer.SineWaveAudioDevice` | `sine_wave_capturer.dfy` | `src/sine_wave_capturer.cc` |

Each class has a `View()`, its state as a value, and each method is proved to change that value exactly as a function
of the same name does (`ControllerSpec`, `PeerConnectionSpec`, `SignalingSpec`). An `Endpoint` puts the three values
and the signaling thread (clock, delayed callbacks, quit flag) together; `EndpointRuns.Run` applies a sequence of
events to it. `CallController.Run` executes the same events on the objects, and returns the exit code. The theorems
are about `Run(Started(config, verdicts), events)` for all configurations, all answers of the foreign libraries and all
event sequences, and about `RoomRun` for two peers.

The invariants are layered, one file each: `lifecycle` (flags, phases, exit code), `queues` (the two FIFO queues),
`effects` (what a handler may post), `wire_order` (tasks and frames), `flight` (one action at a time), `messages`
(inbox and candidate buffer), `watchdog` (timers, clock, establishment), `negotiation_script`, `progress` and
`relay_texts` (one peer fed by another), `outbox` and `descriptions` (what is posted, and by which way), `two_peers`
(the room). `guarantees`, `alarms`, `verdicts`, `stored_texts`, `phases`, `phase_history`, `after_end`,
`last_description`, `shutdown`, `hangups`, `room_guarantees`, `convergence`, `settling` and `completion` state what
follows. `scenarios` and `rehearsal` give the runs that show it is not about nothing.

Every handler of the three classes has its own contract, `View()` equal to the function of the same name; the table
below lists only the methods that hold a loop of the source, and `Run`.

History that the program does not keep (every request posted, every frame sent, every candidate and description handed
on, every reason to finish) is carried in extra fields, ghost ones in the classes, so that properties of whole runs are
properties of the final state.

## What is assumed of the environment

- A step of the network thread is atomic and its outcome arbitrary: a request succeeds, fails after the frame left, or
  fails without it; a socket send with the socket flag down always fails.
- libwebrtc's asynchronous operations complete later, in separate steps, successfully or not and in any order. Its
  synchronous answers (parsing a description, creating or adding a candidate, initialising) are an arbitrary function
  `verdicts` of how many were asked before.
- Connection states, frames, local candidates and the continuations above arrive as separate steps on the signaling
  thread, never inside a call into libwebrtc. Local candidates appear only once a local description is being set, and
  the connected state only once a local and a remote one have been.
- The socket is opened only when it is down; close and error may come at any time once it was started; frames are heard
  only while it is up.
- The clock does not pass the deadline of a delayed callback that has not run.
- Once the signaling thread has been told to quit nothing more runs on it: callbacks and delayed callbacks that were
  already posted are dropped. The network thread and the socket go on.
- For two peers, the relay makes the first peer the initiator and hands each peer the other's messages reliably, in the
  sender's order and at most once: some with the join response, the rest one by one on the socket. The room server is
  not in this repository.

## Where the code is subtler than it looks

- The phase is not monotone. Two things take it from connected back to negotiating: an offer or answer handled after
  establishment (`src/apprtc_call.cc:412-430`), and an initiator's own offer, still due when it has answered one it
  found in the room (`src/apprtc_call.cc:448-462`). `LateOfferStepsBack` and `OwnOfferStepsBack` give the runs,
  `WhenConnectedStepsBack` says exactly when, and `ConnectedIsFinalInRooms` that neither happens between two peers.
- Sending a local description does not test whether the call has finished (`src/apprtc_call.cc:467-496`). While the bye
  is outstanding, a description whose making had begun can still go out (`AnswerAfterTheEnd` gives a run).
  `DescriptionAfterEnd` says exactly when, `EndIsAbsorbing` that it is at most one and that nothing else is posted but
  the close.
- After `Close` the peer client's continuations never run (`src/apprtc_peer_connection.cc:504`), so the in-flight flag
  may stay up for ever (`FlagLeftUp` gives a run). `FlagAfterQuit` says exactly when: it was up when the event came that
  made the call quit, and that event was not the continuation that lowers it. `SingleFlight` is therefore stated until
  the call has quit.
- A flush that fails leaves the buffer as it was (`src/apprtc_peer_connection.cc:475-491`). `CandidateRefinement` shows
  that no candidate is applied twice all the same, because the failure ends the call.
- The configuration check only asks for a positive tone frequency and sample rate (`src/apprtc_common.cc:42-47`). The
  phase accumulator stays within one turn exactly when the frequency is at most the sample rate (`PhaseStaysInTurn`);
  above that it grows without bound (`PhaseEscapes`), though the ideal wave is still right (`WaveAtPhase`). Below a
  sample rate of 100 every block is empty, and a hundred blocks hold one second of samples exactly for the multiples
  of 100 (`BlockLength`). `ValidatedTone` says which validated configurations these are, `AcceptedThough` that there
  are some of each kind.

## Model

| member | source | states |
|---|---|---|
| `Convergence.QuietRoomIsNegotiated` | src/apprtc_call.cc:352-496 | No deadlock: in every run of two peers in which both calls go on with their sockets up, nothing is outstanding at either and the relay has handed everything over, each peer has made all the calls of its role, set exactly the one description that the other's libwebrtc created, word for word, and applied exactly the candidates the other's connection gathered, in that order |
| `Completion.RoomCompletes` | src/apprtc_call.cc:352-496 | Completion: from every room run in which both calls go on with their sockets open, libwebrtc refuses nothing from then on and no failure waits in a callback queue, some successful steps of the peers' threads and the relay, each possible when it is made and at most as many as are left to do, make the room quiet and both sides negotiated |
| `Completion.EveryOrderCompletes` | src/apprtc_call.cc:352-496 | From such a room every sequence of successful steps, in whatever order, that cannot be continued by another has completed the negotiation |
| `Completion.SmoothRun` | src/apprtc_call.cc:386-446 | From such a room no sequence of successful steps ends a call or brings a failure, and each step leaves less to do |
| `Rehearsal.SmoothRoomExists` | src/apprtc_call.cc:276-364 | For any two configurations a run is given that leads to such a room, with no call of the negotiation made yet |
| `Settling.RoomSettles` | src/apprtc_call.cc:352-496 | Without these assumptions: from every room run in which both calls go on with their sockets up, at most as many successful steps as are left to do lead to a quiet, hence negotiated, room or to the end of a call |
| `Settling.OwnStepsAreFew` | src/apprtc_call.cc:352-496 | Whatever the order, while both calls go on each such step (network task, callback, completed operation, message handed over) leaves less to do, so only that many can be made |
| `Rehearsal.QuietRoomExists` | src/apprtc_call.cc:308-338 | For any two configurations a run of two peers is given, with a candidate stored before the offer, that ends in a quiet room with the candidate applied |
| `Convergence.DescriptionsEndToEnd` | src/apprtc_peer_connection.cc:301-425 | In every interleaving the descriptions handed to a peer's connection are the first of those the other peer got to the relay, and these are, word for word and in order, what the other peer's libwebrtc created |
| `Descriptions.CreatedArePosted` | src/apprtc_peer_connection.cc:301-370 | In every run, the descriptions posted read as exactly those that libwebrtc created, type and text, in order and each at most once; none is missing but one that is being set, or was when the call ended |
| `Descriptions.CreatedIsSet` | src/apprtc_peer_connection.cc:305-361 | A description that was created is the next to be set locally, kept for posting in a text that reads as its type and its whole SDP |
| `RoomGuarantees.LegalNegotiation` | src/apprtc_call.cc:379-496 | In every interleaving of two peers over the relay, each peer's create and set-description calls are a beginning of its role's script and legal in the offer/answer state machine of section 3.2 of RFC 8829: the caller creates at most one offer and handles none, the callee creates none |
| `RoomGuarantees.DescriptionsByRole` | src/apprtc_call.cc:412-446 | The caller is never offered anything and answered at most once; the callee is never answered, offered at most once, and calls its connection only once it was handed that offer |
| `RoomGuarantees.AnswerAfterOffer` | src/apprtc_peer_connection.cc:301-425 | When the caller sets an answer, its one offer was set locally and posted, and the posting answered, before; the callee has set its one answer locally and posted it; and both peers' exchanges are back in the stable state |
| `RoomGuarantees.CandidatesEndToEnd` | src/apprtc_peer_connection.cc:427-493 | In both directions, the candidates one peer has applied are a prefix, in order, without loss or repetition, of those the other got to the relay, and come from those its connection gathered, in that order; they are all that were sent once the receiver has a remote description and nothing is in transit or waiting, and all that were gathered if the sender's queue drained without a failure |
| `RoomGuarantees.ScriptIsLegal` | src/apprtc_peer_connection.cc:301-425 | Every beginning of either role's script is allowed call by call by the offer/answer state machine, and a complete one ends in its stable state |
| `RoomGuarantees.AnswerWasPosted` | src/apprtc_call.cc:467-496 | In a room where the caller has made its third call, both peers have posted exactly one description and the callee has made all its calls |
| `RoomGuarantees.AppliedWereSent` | src/apprtc_peer_connection.cc:384-391 | What a peer applied is a prefix of what the other sent, and all of it when the peer has caught up, from the room invariant |
| `RoomGuarantees.ReceivedInOrder` | src/apprtc_call.cc:308-338 | Parsing, skipping, sorting and queueing keep the messages of any one priority in the order in which they were handed over, and lose none while the call goes on |
| `Hangups.ByeComesFromOther` | src/apprtc_call.cc:391-403 | In every room, a call that ended because of a bye means that the other peer's call had ended at its duration and had posted that bye; no peer receives a message of unknown type |
| `TwoPeers.RoomRunFits` | src/apprtc_call.cc:379-496 | Every state of a room satisfies both peers' invariants, and each peer was handed exactly the first messages the other got to the relay |
| `TwoPeers.RoomProjects` | src/apprtc_call.cc:174-179 | Each peer of a room run has made a run of its own, so every property of single runs holds of both peers |
| `TwoPeers.ReceivedAsExpected` | src/apprtc_call.cc:366-465 | What a peer receives is what its role expects: the caller no offer and at most one answer, that one only after it posted its offer; the callee no answer and at most one offer |
| `NegotiationScript.ApplyNegotiates` | src/apprtc_call.cc:386-496 | If what has been received is as the role expects, every event keeps the calls on the script, at most one operation outstanding, the offer started at most once and at most one description posted |
| `RelayTexts.ApplyRelayed` | src/apprtc_signaling_client.cc:426-487 | Every event keeps: each posted text is of the kind its purpose asks for, no description reaches the relay more often than it was posted, and until the end or a failed send no message is lost, repeated or reordered on its way out |
| `Progress.ApplyProgress` | src/apprtc_peer_connection.cc:301-425 | Every event keeps a call that goes on on track: with nothing outstanding the own description, once begun, has been set and posted; every description dispatched was handed to the connection, and is set once its operation is done |
| `Progress.PumpProgress` | src/apprtc_call.cc:379-465 | The pump keeps the negotiation on track over all its turns |
| `Common.ValidateConfig` | src/apprtc_common.cc:20-56 | A configuration is accepted if and only if all ten conditions hold; the last complaint is made only when the duration is not below a positive timeout |
| `JoinOrder.StableOrderIsStableSort` | src/apprtc_call.cc:329-334 | The order used for join messages is sorted by priority and keeps the messages of each priority in their order |
| `JoinOrder.StableSortIsUnique` | src/apprtc_call.cc:329-334 | There is only one such order, so it is what std::stable_sort returns |
| `JoinOrder.JoinQueueOrder` | src/apprtc_call.cc:308-338 | Of a join response the descriptions come out first, then the candidates, then a bye, then what is of another type; exactly the messages of the texts that are JSON are in the queue |
| `StoredTexts.ForeignTextsEndTheCall` | src/apprtc_call.cc:443-446 | A stored text of another type waits in the queue as long as the call goes on; the turn of the pump that dispatches it is the last and ends the call for a signaling error; once the pump of a call that goes on has emptied the queue, there was none |
| `StoredTexts.MalformedTextsDoNothing` | src/apprtc_call.cc:308-338 | Leaving the texts that are no JSON out of the join response makes no difference to any run: every state is the same except for those texts |
| `Common.TextsByType` | src/apprtc_common.cc:109-141 | Only a text that is no JSON fails to parse; its type alone decides whether it is an offer, an answer, a candidate, a bye or unknown, and its members are taken over unchanged |
| `Messages.MessageOrder` | src/apprtc_call.cc:366-411 | Dispatched messages followed by waiting ones are always the sorted join messages followed by the socket's messages in arrival order, and until the end none that was heard is missing except those still on the callback queue |
| `Messages.CandidateRefinement` | src/apprtc_peer_connection.cc:372-493 | Applied candidates are a prefix of those dispatched; before a failure applied and buffered ones together are all of them; nothing is applied before a remote description and nothing stays buffered after one; a failure has ended the call with no operation outstanding |
| `Messages.ApplyAllInOrder` | src/apprtc_peer_connection.cc:475-490 | A flush applies a prefix of the buffer, in order, and the whole of it exactly when no candidate failed |
| `Messages.FlushFits` | src/apprtc_peer_connection.cc:467-493 | A flush keeps applied followed by buffered equal to offered, unless it reports a failure |
| `Flight.SingleFlight` | src/apprtc_call.cc:386-496 | Until the call has quit, the in-flight flag is up exactly when one continuation of the negotiation is outstanding, as an operation of the peer client or a description being sent, and never more than one is |
| `Flight.NothingStranded` | src/apprtc_call.cc:352-465 | Between events, if the call goes on, registration is done and no action is in flight, the queue is empty and an initiator has started its offer |
| `Flight.PumpFlight` | src/apprtc_call.cc:379-465 | The pump keeps single flight, also when a description fails to parse and its continuation runs at once, and stops only when nothing more can be started |
| `Watchdog.BoundedTime` | src/apprtc_call.cc:204-251 | With a validated configuration every call has ended by the timeout plus the call duration, hence before twice the timeout, and by the timeout if it was never established |
| `Watchdog.TimersAreOnTime` | src/apprtc_call.cc:204-246 | With a validated configuration a call times out exactly at its timeout and hangs up exactly when it has lasted its duration, in the configuration's seconds; a timer that ends a call can run at that moment and no sooner |
| `Watchdog.TimesAreRecorded` | src/apprtc_call.cc:543-581 | The times of establishment and end are those of the clock at the first event that brought them about |
| `Watchdog.OneWatchdog` | src/apprtc_call.cc:204-251 | Until the end exactly one of the timers set is live, afterwards none; the live one ends the call when it fires, any other only leaves the list; the generation counters count establishment and end exactly, and never pass 3 and 2 |
| `Watchdog.EstablishedByHistory` | src/apprtc_call.cc:525-553 | Until the end, established means that at some past moment the connection was up with media seen, and both flags agree with the last report, although only edges and the first frame are passed on |
| `Verdicts.ExitCodeByTrace` | src/apprtc_call.cc:571-636 | The call has ended exactly when some event of the trace has a verdict; its exit code is the one of the first verdict, as a number 0, 0, 5, 7, 5, 6 or 4 by the reason; nothing but 8 is there before it quits |
| `Verdicts.ExitCodeByEstablishment` | src/apprtc_call.cc:126-142 | Success implies that the call had been established, the timeout code that it never was |
| `Verdicts.RunVerdict` | src/apprtc_call.cc:571-590 | The first reason recorded by the state machine is the first verdict read off the events |
| `Verdicts.PumpEnds` | src/apprtc_call.cc:386-446 | The pump, over all its turns, ends the call exactly when and for the reason that one reading of the queue from the front gives |
| `Verdicts.OperationReply` | src/apprtc_peer_connection.cc:372-425 | An operation's continuation reports failure exactly when the operation failed, its description could not be written, or one of the buffered candidates was refused |
| `Verdicts.EventEnds` | src/apprtc_call.cc:204-246 | For every event, the call ends exactly when the event's verdict says so, and for that reason; a startup timer counts only before establishment |
| `AfterEnd.EndIsAbsorbing` | src/apprtc_call.cc:571-636 | From any moment after the end: first reason, time and exit code stay, the phase goes only from stopping to finished and completion happens once; nothing is queued, dispatched, offered, established or timed any more, and only the close and at most one description under way are still posted |
| `LastDescription.DescriptionAfterEnd` | src/apprtc_call.cc:428-496 | After the end a description is still posted in some continuation if and only if the call has not quit, the making of one had begun and libwebrtc will not refuse what is left of it; the continuation in which everything outstanding succeeds then posts exactly one |
| `Scenarios.AnswerAfterTheEnd` | src/apprtc_call.cc:431-440 | For every validated configuration, a run in which the call ends and its answer goes out afterwards |
| `AfterEnd.OperationAbsorbed` | src/apprtc_call.cc:431-440 | A continuation that runs while the bye is outstanding hands on no candidate and posts at most the description it was making |
| `Outbox.RouteByRole` | src/apprtc_call.cc:467-523 | Every description, candidate and bye of an initiator is posted to the room server and every one of the other peer is sent on the socket; none is posted before the join |
| `Outbox.GatheredArePosted` | src/apprtc_peer_connection.cc:573-585 | The candidates posted read as exactly those gathered before the end, member by member, each once and in the order of gathering |
| `Outbox.FramesWerePosted` | src/apprtc_signaling_client.cc:386-487 | The frames on the wire are those of the requests run so far, in posting order, none made up or repeated, some possibly missing |
| `Guarantees.ExactlyOnceInOrder` | src/apprtc_signaling_client.cc:179-284 | Requests answered so far, those waiting for their callback and those waiting for the network are together all requests posted, each once and in posting order; when both queues are empty all have been answered |
| `Guarantees.NetworkAnswersHead` | src/apprtc_signaling_client.cc:199-487 | Whatever the outcome, running the head of the network queue posts exactly its own answer, last in the callback queue, and at most its own frame |
| `Guarantees.SendersAreTold` | src/apprtc_signaling_client.cc:386-487 | In every reachable state, a registration or socket send with the socket flag down fails with nothing put on the wire; any other send, and a room post always, puts its frame on the wire unless it is lost and reports success exactly when it arrived and that is known; the flag is up only while the socket is, and always then as long as no close was run |
| `Guarantees.JoinersAreTold` | src/apprtc_signaling_client.cc:199-284 | When the join is run nothing else is under way; of its five exits only the success hands over a response and the stored messages, the others are reported as failures |
| `Guarantees.ClosingByHistory` | src/apprtc_signaling_client.cc:313-328 | The closing flag is up exactly once the close, the last request of all, has been run; only from then on does a close of the socket raise no error |
| `Alarms.FailuresEndTheCall` | src/apprtc_signaling_client.cc:313-383 | Whatever else happens meanwhile: once the socket has closed unasked or failed, has brought something that is no message, or a request has failed, the call has ended by the time the callbacks waiting then have run |
| `Guarantees.WireStartsWithRegister` | src/apprtc_call.cc:340-364 | The register frame is the first that leaves and leaves at most once; join is the first request, connect the second, and register and bye are posted at most once |
| `Guarantees.ByeThenClose` | src/apprtc_call.cc:571-636 | A bye is posted exactly when the call ended because its duration elapsed, at that deadline and after establishment; the close is posted by exactly the joined calls that quit, as the last request ever, when a bye has been answered |
| `Shutdown.EndedCallQuits` | src/apprtc_call.cc:592-636 | Whatever else happens meanwhile, an ended call has quit once the network thread has made as many steps as requests were waiting for it, and then as many callbacks have run as were waiting |
| `Shutdown.FlagAfterQuit` | src/apprtc_call.cc:415-496 | Whatever event makes a call quit, and whatever happens later, the in-flight flag is up from then on, with no continuation outstanding, if and only if it was up before that event and the event was not the continuation of a negotiation operation or the answer to a posted description |
| `Scenarios.FlagLeftUp` | src/apprtc_peer_connection.cc:504 | A run, for any configuration, in which the call quits with the in-flight flag up |
| `Guarantees.DrainedCallHasQuit` | src/apprtc_call.cc:592-636 | An ended call has quit by the time both queues have drained, whatever became of the requests in them: the answer to the bye is never lost |
| `Guarantees.RegistersOnce` | src/apprtc_signaling_client.cc:295-340 | Register is posted at most once; a later open event finds the call ended and posts nothing; once the closing flag is set a close event raises no error |
| `Guarantees.OpenUntilQuit` | src/apprtc_peer_connection.cc:502-516 | The connection is open exactly from the join to the quit, and closing it resets the buffer, the flags and the outstanding continuations |
| `Phases.WhenConnectedStepsBack` | src/apprtc_call.cc:379-465 | In every run, an event without a verdict takes a connected call back to negotiating if and only if it lets the pump run and the queue then comes, past candidates, to a description or, with an offer still due, to its end; otherwise the call stays connected, and in both cases established |
| `Phases.ConnectedIsFinalInRooms` | src/apprtc_call.cc:386-462 | Between two peers the connected phase is left only by the end of the call |
| `PhaseHistory.PhaseByHistory` | src/apprtc_call.cc:182-465 | The phase of a call that goes on tells exactly how far it has come: joining until the join succeeded, connecting until the registration is posted, registering until the first negotiation call, then negotiating or connected |
| `PhaseHistory.ConnectedWhenEstablished` | src/apprtc_call.cc:543-553 | The connected phase is entered by exactly the event that establishes the call |
| `Scenarios.OwnOfferStepsBack` | src/apprtc_call.cc:448-462 | Fourteen events, for any configuration, by which an initiator that answered a stored offer goes from connected to negotiating with its own offer, no message having come in since it was connected |
| `Scenarios.LateOfferStepsBack` | src/apprtc_call.cc:428-442 | A run, for any configuration, in which a connected callee goes back to negotiating for a second offer |
| `Guarantees.ConnectedIsEstablished` | src/apprtc_call.cc:543-553 | The connected phase implies an established call that has not ended; stopping and finished are exactly the phases after the end |
| `WireOrder.RunOrdered` | src/apprtc_call.cc:340-364 | Every reachable state satisfies the invariant of flags, queues, link, wire, registrations and bye |
| `WireOrder.EffectOrdered` | src/apprtc_call.cc:498-523 | Any handler that posts at most one request under the stated conditions keeps that invariant |
| `Effects.PumpEffect` | src/apprtc_call.cc:379-465 | However many turns the pump takes, it posts at most one request, and only when it ends the call |
| `Lifecycle.ApplyAlive` | src/apprtc_call.cc:571-636 | Every event keeps: ended exactly when a reason is recorded and the phase says so, quit exactly when finished, exit code by the first reason, completion at most once |
| `Queues.NetworkFits` | src/apprtc_signaling_client.cc:386-487 | Running the head of the network queue, with any outcome, conserves and numbers the requests |
| `Queues.JoinAnswerIsFirst` | src/apprtc_signaling_client.cc:199-284 | The answer to the join is the first answer of all |
| `CallControl.CallController.Run` | src/apprtc_call.cc:174-179 | Executing any possible sequence of events on the objects yields the state of the value model, and returns the number of the first verdict once the call has quit |
| `CallControl.RunAppRtcCall` | src/apprtc_call.cc:661-714 | The process returns 2 for a refused configuration, 3 without SSL or a thread, 0 or 4 if it only looks at its inputs, and otherwise what the call returns |
| `CallControl.CallController.PumpSignalingMessages` | src/apprtc_call.cc:379-465 | The loop, with its early returns, ends in the state that repeated turns reach when nothing more can be started |
| `CallControl.CallController.QueueJoinMessages` | src/apprtc_call.cc:308-338 | The parse loop appends the parsable join messages in the stable order to the queue and changes nothing else |
| `PeerConnection.PeerConnectionClient.FlushPendingRemoteCandidates` | src/apprtc_peer_connection.cc:467-493 | The loop applies the buffer up to the first failure, and clears it only if there was none |
| `PeerConnectionSpec.FlushLeaves` | src/apprtc_peer_connection.cc:475-491 | A flush empties the buffer exactly when it succeeds, and otherwise leaves all of it |
| `Tone.PhaseCongruent` | src/sine_wave_capturer.cc:141-145 | After n samples the accumulator is congruent to n times the frequency modulo the sample rate, for all positive settings |
| `Tone.PhaseInClosedForm` | src/sine_wave_capturer.cc:142-145 | For frequencies up to the sample rate, the accumulator after n samples is (n * frequency - 1) mod rate + 1: a whole turn, never 0, once it has started |
| `Tone.PhaseStaysInTurn` | src/sine_wave_capturer.cc:142-145 | The accumulator stays within one turn for ever if and only if the frequency is at most the sample rate |
| `Tone.PhaseEscapes` | src/sine_wave_capturer.cc:142-145 | Above the sample rate the accumulator is exactly n times the excess, hence unbounded |
| `Tone.WaveAtPhase` | src/sine_wave_capturer.cc:141-145 | The sample taken at the accumulated phase is that of the closed-form periodic wave, at every n |
| `Tone.ToneRepeats` | src/sine_wave_capturer.cc:139-150 | The tone repeats after sample_rate samples |
| `Tone.SlotAt` | src/sine_wave_capturer.cc:146-149 | Slot k of an interleaved stretch holds sample k / channels, the same for all channels |
| `SineWaveCapturer.ValidatedTone` | src/apprtc_common.cc:42-50 | Of the configurations that pass validation, exactly those with a frequency up to the sample rate keep the phase within a turn, and exactly those with a sample rate of at least 100 produce samples: a hundredth of the rate, rounded down, for each channel in a block |
| `SineWaveCapturer.AcceptedThough` | src/apprtc_common.cc:42-50 | Any positive frequency and sample rate pass validation |
| `SineWaveCapturer.BlocksMakeTone` | src/sine_wave_capturer.cc:139-168 | Without a gap in the registration, the blocks delivered, laid end to end, are the tone from its start with no sample missing, repeated or out of place |
| `SineWaveCapturer.BlocksKeepTime` | src/sine_wave_capturer.cc:139-168 | Whatever the gaps, one block is handed over for each tick with a callback, and it holds the samples of its own tick: the tone goes on while nobody listens |
| `SineWaveCapturer.BlockLength` | src/sine_wave_capturer.cc:129-131 | The size of a block; when it is empty, and when a hundred blocks are one second |
| `SineWaveCapturer.SineWaveAudioDevice.CaptureLoop` | src/sine_wave_capturer.cc:128-169 | Over any pattern of registered callbacks, the blocks handed over are the closed-form ones of those ticks |
| `SineWaveCapturer.SineWaveAudioDevice.FillBlock` | src/sine_wave_capturer.cc:140-150 | The nested loops write every slot of the reused buffer in bounds with the interleaved tone, and leave the phase where the next block needs it |

## Left out

- PeerConnection.PeerConnectionClient.CompleteOperation: continuations are a returned reply that the controller acts on, not closures; the one step in which a continuation runs is the same.
- Common.SerializedTextsParse: JSON text is a record of the members that matter, so reading and writing JSON itself, and the exception for a label that is not a number, are not modelled.
- SineWaveCapturer.SineWaveAudioDevice.CaptureLoop: phase and wave are exact (units of 1/sample_rate of a turn, an arbitrary periodic table of 16-bit samples), so the value of the sine, its amplitude of 16000 and floating-point rounding are not modelled.
- curl, ixwebsocket, TLS, libwebrtc, SDP and ICE parsing: operations with arbitrary outcomes.
- Seconds are the unit of the clock; a 10 ms pace of the capture thread is not modelled.
- `FileVideoSource`, statistics, logging, tracing, flag parsing, `main.cc`, the string-name tables and ICE server parsing: easy members, and foreign code behind them.
- Object construction and destruction order, and thread start-up: the model runs from `Start` to the return of `Run`.
- Fairness: that the threads and the relay take the steps they can take is not claimed; how many there are and where they lead is.
- Data races inside one network request, between testing the socket flag and sending: the request is one step whose send may fail.
- Wrap-around of the generation counters, the request numbers and the sample counts: the counters are shown not to pass 3 and 2, the numbers exist only in the model.
