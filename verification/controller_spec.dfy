/** CallController (src/apprtc_call.cc) on values, with the two clients and the thread it runs on. */
module ControllerSpec {
  import opened Sequences
  import opened Common
  import opened PeerConnectionSpec
  import opened SignalingSpec

  datatype CallState =
    | Starting | JoiningRoom | ConnectingSocket | Registering | Negotiating | InCall | Stopping | Finished

  datatype TerminalReason =
    | LocalDurationReached | RemoteByeAfterEstablished | RemoteByeBeforeEstablished
    | StartupTimeout | SignalingError | PeerConnectionError | MediaError

  function ExitCodeForReason(reason: TerminalReason): ExitCode {
    match reason
    case LocalDurationReached => Success
    case RemoteByeAfterEstablished => Success
    case RemoteByeBeforeEstablished => SignalingFailed
    case SignalingError => SignalingFailed
    case StartupTimeout => Timeout
    case PeerConnectionError => PeerConnectionFailed
    case MediaError => MediaFailed
  }

  /** What the pump looks at: registration done, the single-flight flag, the offer made at most once. */
  datatype Negotiation = Negotiation(ready: bool, inFlight: bool, offerStarted: bool)

  /** Messages waiting; and, as history, those that came from the socket and those dispatched. */
  datatype Inbox = Inbox(pending: seq<Message>, inbound: seq<Message>, dispatched: seq<Message>)

  datatype CallMedia = CallMedia(connected: bool, mediaSeen: bool, established: bool, establishedAt: nat)

  /** The generation counters of the two timers. */
  datatype Generations = Generations(startup: nat, duration: nat)

  /** The end of the call; and, as history, every reason it was asked to finish for, and how often it completed. */
  datatype Ending = Ending(finished: bool, exitCode: ExitCode, attempts: seq<TerminalReason>, completions: nat, at: nat)

  datatype Controller = Controller(
    config: AppConfig, joinResponse: Option<JoinResponse>, state: CallState,
    negotiation: Negotiation, inbox: Inbox, media: CallMedia, generations: Generations, ending: Ending)

  datatype TimerKind = StartupTimer | DurationTimer

  datatype Timer = Timer(kind: TimerKind, generation: nat, deadline: nat)

  /** The signaling thread: its clock, its delayed tasks, and whether it was told to quit. */
  datatype SignalingThread = SignalingThread(now: nat, timers: seq<Timer>, quit: bool)

  datatype Endpoint = Endpoint(ctl: Controller, peer: Peer, sig: Signaling, thread: SignalingThread)

  function NewController(config: AppConfig): Controller {
    Controller(config, None, Starting, Negotiation(false, false, false), Inbox([], [], []),
               CallMedia(false, false, false, 0), Generations(0, 0), Ending(false, RuntimeFailed, [], 0, 0))
  }

  function NewEndpoint(config: AppConfig, verdicts: nat -> bool): Endpoint {
    Endpoint(NewController(config), NewPeer(verdicts), NewSignaling(), SignalingThread(0, [], false))
  }

  function Seconds(n: int): nat {
    if n < 0 then 0 else n
  }

  function PostDelayed(thread: SignalingThread, kind: TimerKind, generation: nat, delay: nat): SignalingThread {
    thread.(timers := thread.timers + [Timer(kind, generation, thread.now + delay)])
  }

  function ScheduleStartupTimeout(e: Endpoint): Endpoint {
    var generation := e.ctl.generations.startup + 1;
    e.(ctl := e.ctl.(generations := e.ctl.generations.(startup := generation)),
       thread := PostDelayed(e.thread, StartupTimer, generation, Seconds(e.ctl.config.timeoutSeconds)))
  }

  function ScheduleCallDurationTimer(e: Endpoint): Endpoint {
    var generation := e.ctl.generations.duration + 1;
    e.(ctl := e.ctl.(generations := e.ctl.generations.(duration := generation)),
       thread := PostDelayed(e.thread, DurationTimer, generation, Seconds(e.ctl.config.callDurationSeconds)))
  }

  function Start(e: Endpoint): Endpoint {
    var f := ScheduleStartupTimeout(e.(ctl := e.ctl.(state := JoiningRoom)));
    f.(sig := Submit(f.sig, JoinRoom, ForJoin, Malformed))
  }

  predicate Initiator(e: Endpoint) {
    e.ctl.joinResponse.Some? && e.ctl.joinResponse.value.isInitiator
  }

  /** An initiator posts to the room server, the other peer sends on the socket. */
  function Send(e: Endpoint, purpose: Purpose, text: Text): Endpoint {
    e.(sig := Submit(e.sig, if Initiator(e) then RoomPost else SocketSend, purpose, text))
  }

  /** A message may be handed to the peer client only while no earlier action is in flight. */
  function SetInFlight(c: Controller, inFlight: bool): Controller {
    c.(negotiation := c.negotiation.(inFlight := inFlight))
  }

  function CompleteFinish(e: Endpoint, reason: TerminalReason): Endpoint {
    e.(peer := Close(e.peer),
       sig := if e.ctl.joinResponse.Some? then Submit(e.sig, CloseSocket, NoReply, Malformed) else e.sig,
       ctl := e.ctl.(state := Finished,
                     ending := e.ctl.ending.(exitCode := ExitCodeForReason(reason),
                                             completions := e.ctl.ending.completions + 1)),
       thread := e.thread.(quit := true))
  }

  function Finish(e: Endpoint, reason: TerminalReason): Endpoint {
    var ending := e.ctl.ending.(attempts := e.ctl.ending.attempts + [reason]);
    if ending.finished then e.(ctl := e.ctl.(ending := ending))
    else
      var f := e.(ctl := e.ctl.(state := Stopping,
                                generations := Generations(e.ctl.generations.startup + 1,
                                                            e.ctl.generations.duration + 1),
                                ending := ending.(finished := true, at := e.thread.now)));
      if reason.LocalDurationReached? && e.ctl.joinResponse.Some?
      then Send(f, ForBye, ByeMessage())
      else CompleteFinish(f, reason)
  }

  function QueuedMessagePriority(kind: MessageType): nat {
    match kind
    case Offer => 0
    case Answer => 0
    case Candidate => 1
    case Bye => 2
    case Unknown => 3
  }

  function HasPriority(p: nat): Message -> bool {
    (m: Message) => QueuedMessagePriority(m.kind) == p
  }

  /** The messages of one priority, in their order. */
  function OfPriority(p: nat, ms: seq<Message>): seq<Message> {
    Filter(HasPriority(p), ms)
  }

  /** The stable order by priority. */
  function StableOrder(ms: seq<Message>): seq<Message> {
    OfPriority(0, ms) + OfPriority(1, ms) + OfPriority(2, ms) + OfPriority(3, ms)
  }

  /** What a join response puts into the pending queue: the texts that parse, stably ordered. */
  function JoinQueue(r: JoinResponse): seq<Message> {
    StableOrder(Collect(ParseSignalingMessage, r.messages))
  }

  function OnJoinComplete(e: Endpoint, response: Option<JoinResponse>): Endpoint {
    if e.ctl.ending.finished then e
    else if response.None? then Finish(e, SignalingError)
    else
      var f := e.(ctl := e.ctl.(joinResponse := response));
      var (p, initialized) := Initialize(f.peer);
      if !initialized then Finish(f.(peer := p), PeerConnectionError)
      else
        var (q, media) := StartMedia(p);
        if !media then Finish(f.(peer := q), MediaError)
        else
          f.(peer := q,
             ctl := f.ctl.(state := ConnectingSocket,
                           inbox := f.ctl.inbox.(pending := f.ctl.inbox.pending + JoinQueue(response.value))),
             sig := Submit(f.sig, ConnectWebSocket, NoReply, Malformed))
  }

  function OnWebSocketOpen(e: Endpoint): Endpoint {
    if e.ctl.ending.finished || e.ctl.joinResponse.None? then e
    else e.(ctl := e.ctl.(state := Registering), sig := Submit(e.sig, RegisterClient, ForRegister, Malformed))
  }

  function OnRegisterComplete(e: Endpoint, ok: bool): Endpoint {
    if e.ctl.ending.finished then e
    else if !ok then Finish(e, SignalingError)
    else Pump(e.(ctl := e.ctl.(negotiation := e.ctl.negotiation.(ready := true))))
  }

  function OnInbound(e: Endpoint, m: Message): Endpoint {
    if e.ctl.ending.finished then e
    else Pump(Enqueued(e, m))
  }

  /** A message from the socket joins the end of the queue. */
  function Enqueued(e: Endpoint, m: Message): Endpoint {
    var inbox := e.ctl.inbox;
    e.(ctl := e.ctl.(inbox := inbox.(pending := inbox.pending + [m], inbound := inbox.inbound + [m])))
  }

  /** The guard of the pump: something may be started now. */
  predicate CanPump(e: Endpoint) {
    && !e.ctl.ending.finished && e.ctl.negotiation.ready && !e.ctl.negotiation.inFlight
    && e.ctl.joinResponse.Some?
  }

  predicate MustOffer(e: Endpoint) {
    Initiator(e) && !e.ctl.negotiation.offerStarted
  }

  /** There is a message to dispatch, or an offer to start. */
  predicate HasWork(e: Endpoint) {
    CanPump(e) && (e.ctl.inbox.pending != [] || MustOffer(e))
  }

  /** One description handed to the peer client; the flag stays up until its continuation runs. */
  function StartRemote(e: Endpoint, t: SdpType, m: Message): Endpoint {
    var f := e.(ctl := SetInFlight(e.ctl.(state := Negotiating), true));
    var (p, parsed) := SetRemote(f.peer, t, m);
    if parsed then f.(peer := p) else ActionDone(f.(peer := p), PeerConnectionError)
  }

  /** The action in flight ended with an error. */
  function ActionDone(e: Endpoint, reason: TerminalReason): Endpoint {
    Finish(e.(ctl := SetInFlight(e.ctl, false)), reason)
  }

  /** The message at the front leaves the queue. */
  function Taken(e: Endpoint): Endpoint
    requires e.ctl.inbox.pending != []
  {
    var inbox := e.ctl.inbox;
    e.(ctl := e.ctl.(inbox := inbox.(pending := inbox.pending[1..],
                                     dispatched := inbox.dispatched + [inbox.pending[0]])))
  }

  function Dispatch(e: Endpoint, m: Message): Endpoint {
    match m.kind
    case Bye =>
      Finish(e, if e.ctl.media.established then RemoteByeAfterEstablished else RemoteByeBeforeEstablished)
    case Candidate =>
      var (p, ok) := AddRemoteCandidate(e.peer, m);
      if ok then e.(peer := p) else Finish(e.(peer := p), PeerConnectionError)
    case Answer => StartRemote(e, SdpAnswer, m)
    case Offer => StartRemote(e, SdpOffer, m)
    case Unknown => Finish(e, SignalingError)
  }

  function StartOffer(e: Endpoint): Endpoint {
    e.(ctl := e.ctl.(state := Negotiating,
                     negotiation := e.ctl.negotiation.(offerStarted := true, inFlight := true)),
       peer := Create(e.peer, SdpOffer))
  }

  /** One turn of the pump's loop. */
  function Act(e: Endpoint): Endpoint
    requires HasWork(e)
  {
    if e.ctl.inbox.pending != [] then Dispatch(Taken(e), e.ctl.inbox.pending[0]) else StartOffer(e)
  }

  function Work(e: Endpoint): nat {
    |e.ctl.inbox.pending| + Bit(!e.ctl.negotiation.offerStarted)
  }

  lemma DispatchKeepsWork(e: Endpoint, m: Message)
    ensures Work(Dispatch(e, m)) == Work(e)
  {
  }

  /** The pump takes turns until nothing can be started any more. */
  function Pump(e: Endpoint): Endpoint
    decreases Work(e)
  {
    if HasWork(e) then
      assert Work(Act(e)) == Work(e) - 1 by {
        hide Dispatch;
        if e.ctl.inbox.pending != [] {
          DispatchKeepsWork(Taken(e), e.ctl.inbox.pending[0]);
        }
      }
      Pump(Act(e))
    else e
  }

  function OnOperationDone(e: Endpoint, i: nat, ok: bool, sdp: string): Endpoint
    requires i < |e.peer.operations|
  {
    var (p, reply) := CompleteOperation(e.peer, i, ok, sdp);
    var f := e.(peer := p);
    match reply
    case Chained => f
    case ActionFailed => ActionDone(f, PeerConnectionError)
    case RemoteAnswerSet => Pump(f.(ctl := SetInFlight(f.ctl, false)))
    case LocalDescriptionReady(json) => Send(f, ForDescription, json)
  }

  function OnDescriptionSent(e: Endpoint, ok: bool): Endpoint {
    if ok then Pump(e.(ctl := SetInFlight(e.ctl, false))) else ActionDone(e, SignalingError)
  }

  function OnLocalCandidate(e: Endpoint, text: Text): Endpoint {
    if e.ctl.ending.finished || e.ctl.joinResponse.None? then e else Send(e, ForCandidate, text)
  }

  function OnCandidateSent(e: Endpoint, ok: bool): Endpoint {
    if ok then e else Finish(e, SignalingError)
  }

  function MaybeMarkCallEstablished(e: Endpoint): Endpoint {
    var media := e.ctl.media;
    if media.established || !media.connected || !media.mediaSeen then e
    else ScheduleCallDurationTimer(
           e.(ctl := e.ctl.(media := media.(established := true, establishedAt := e.thread.now), state := InCall,
                            generations := e.ctl.generations.(startup := e.ctl.generations.startup + 1))))
  }

  function OnPeerConnectionChanged(e: Endpoint, connected: bool): Endpoint {
    if e.ctl.ending.finished then e
    else MaybeMarkCallEstablished(e.(ctl := e.ctl.(media := e.ctl.media.(connected := connected))))
  }

  function OnRemoteMediaSeen(e: Endpoint): Endpoint {
    if e.ctl.ending.finished then e
    else MaybeMarkCallEstablished(e.(ctl := e.ctl.(media := e.ctl.media.(mediaSeen := true))))
  }

  /** Errors reported by either client. */
  function OnError(e: Endpoint, reason: TerminalReason): Endpoint {
    if e.ctl.ending.finished then e else Finish(e, reason)
  }

  function Reported(p: Peer, o: Observation): Reports {
    p.reports.(observed := p.reports.observed + [o])
  }

  /** A change of connection state reaches the controller only when it is an edge. */
  function OnConnectionEdge(e: Endpoint, st: ConnectionState): Endpoint {
    var reports := Reported(e.peer, StateSeen(st));
    if reports.connected == st.Connected? then e.(peer := e.peer.(reports := reports))
    else OnPeerConnectionChanged(e.(peer := e.peer.(reports := reports.(connected := st.Connected?))), st.Connected?)
  }

  function OnConnectionChange(e: Endpoint, st: ConnectionState): Endpoint {
    var f := OnConnectionEdge(e, st);
    if st.FailedState? then OnError(f, PeerConnectionError) else f
  }

  /** Only the first frame is reported. */
  function OnFrame(e: Endpoint): Endpoint {
    var reports := Reported(e.peer, FrameSeen);
    if reports.mediaSeen then e.(peer := e.peer.(reports := reports))
    else OnRemoteMediaSeen(e.(peer := e.peer.(reports := reports.(mediaSeen := true))))
  }

  function OnTimer(e: Endpoint, i: nat): Endpoint
    requires i < |e.thread.timers|
  {
    var timer := e.thread.timers[i];
    var f := e.(thread := e.thread.(timers := Without(e.thread.timers, i)));
    match timer.kind
    case StartupTimer =>
      if f.ctl.ending.finished || timer.generation != f.ctl.generations.startup || f.ctl.media.established then f
      else Finish(f, StartupTimeout)
    case DurationTimer =>
      if f.ctl.ending.finished || timer.generation != f.ctl.generations.duration || !f.ctl.media.established then f
      else Finish(f, LocalDurationReached)
  }

  /** The continuation of a request, by the purpose it was made for. */
  function OnDone(e: Endpoint, purpose: Purpose, ok: bool): Endpoint {
    match purpose
    case ForRegister => OnRegisterComplete(e, ok)
    case ForDescription => OnDescriptionSent(e, ok)
    case ForCandidate => OnCandidateSent(e, ok)
    case ForBye => CompleteFinish(e, LocalDurationReached)
    case ForJoin => e
    case NoReply => e
  }

  /** The callback thread runs the task at the head of its queue. */
  function RunCallback(e: Endpoint): Endpoint
    requires e.sig.callbacks != []
  {
    var f := e.(sig := TakeCallback(e.sig));
    match e.sig.callbacks[0]
    case Opened => OnWebSocketOpen(f)
    case Inbound(m) => OnInbound(f, m)
    case ErrorNotice => OnError(f, SignalingError)
    case JoinDone(_, response) => OnJoinComplete(f, response)
    case Done(task, ok) => OnDone(f, task.purpose, ok)
  }
}
