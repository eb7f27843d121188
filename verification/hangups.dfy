/** A call that ended because of the other peer's bye. */
module Hangups {
  import opened Sequences
  import opened Common
  import opened PeerConnectionSpec
  import opened SignalingSpec
  import opened ControllerSpec
  import opened EndpointRuns
  import opened Lifecycle
  import opened Queues
  import opened Effects
  import opened WireOrder
  import opened Flight
  import opened Messages
  import opened NegotiationScript
  import opened Progress
  import opened RelayTexts
  import opened TwoPeers

  predicate RemoteBye(reason: TerminalReason) {
    reason.RemoteByeAfterEstablished? || reason.RemoteByeBeforeEstablished?
  }

  function ByesDispatched(e: Endpoint): nat {
    Count(OfKind(Bye), e.ctl.inbox.dispatched)
  }

  /** A call that ended for the other peer's bye has dispatched one. */
  predicate ByeSeen(e: Endpoint) {
    e.ctl.ending.attempts != [] && RemoteBye(e.ctl.ending.attempts[0]) ==> ByesDispatched(e) > 0
  }

  lemma FinishSeen(e: Endpoint, reason: TerminalReason)
    requires ByeSeen(e) && (RemoteBye(reason) ==> ByesDispatched(e) > 0)
    ensures ByeSeen(Finish(e, reason))
  {
    hide Count, ByeMessage;
  }

  lemma DispatchSeen(e: Endpoint, m: Message)
    requires ByeSeen(e) && (m.kind.Bye? ==> ByesDispatched(e) > 0)
    ensures ByeSeen(Dispatch(e, m))
  {
    hide Finish, Count;
    if m.kind.Bye? {
      FinishSeen(e, RemoteByeAfterEstablished);
      FinishSeen(e, RemoteByeBeforeEstablished);
    }
    FinishSeen(e, SignalingError);
    FinishSeen(e.(peer := AddRemoteCandidate(e.peer, m).0), PeerConnectionError);
    var f := e.(ctl := SetInFlight(e.ctl.(state := Negotiating), false));
    FinishSeen(f.(peer := SetRemote(e.peer, SdpOffer, m).0), PeerConnectionError);
    FinishSeen(f.(peer := SetRemote(e.peer, SdpAnswer, m).0), PeerConnectionError);
  }

  lemma ActSeen(e: Endpoint)
    requires ByeSeen(e) && HasWork(e)
    ensures ByeSeen(Act(e))
  {
    hide Dispatch, Count;
    if e.ctl.inbox.pending != [] {
      CountMore(OfKind(Bye), e.ctl.inbox.dispatched, e.ctl.inbox.pending[0]);
      DispatchSeen(Taken(e), e.ctl.inbox.pending[0]);
    }
  }

  lemma {:induction false} PumpSeen(e: Endpoint)
    requires Alive(e) && ByeSeen(e)
    ensures ByeSeen(Pump(e))
    decreases Work(e)
  {
    hide Act, Alive, ByeSeen;
    if HasWork(e) {
      ActSeen(e);
      ActAlive(e);
      PumpSeen(Act(e));
    }
  }

  lemma OperationSeen(e: Endpoint, i: nat, ok: bool, sdp: string)
    requires Alive(e) && !e.thread.quit && i < |e.peer.operations| && ByeSeen(e)
    ensures ByeSeen(OnOperationDone(e, i, ok, sdp))
  {
    hide Pump, Finish, CompleteOperation, Count, EndingFits;
    var (p, reply) := CompleteOperation(e.peer, i, ok, sdp);
    OperationFrame(e.peer, i, ok, sdp);
    var f := e.(peer := p, ctl := SetInFlight(e.ctl, false));
    match reply
    case Chained =>
    case ActionFailed => FinishSeen(f, PeerConnectionError);
    case RemoteAnswerSet =>
      AliveIdle(e, p);
      PumpSeen(f);
    case LocalDescriptionReady(_) =>
  }

  lemma DoneSeen(e: Endpoint, purpose: Purpose, ok: bool)
    requires Alive(e) && ByeSeen(e)
    requires purpose.ForRegister? && ok && !e.ctl.ending.finished ==> e.ctl.negotiation.ready
    ensures ByeSeen(OnDone(e, purpose, ok))
  {
    hide Pump, Finish, Count;
    var f := e.(ctl := SetInFlight(e.ctl, false));
    match purpose
    case ForRegister =>
      PumpSeen(e);
      FinishSeen(e, SignalingError);
    case ForDescription =>
      PumpSeen(f);
      FinishSeen(f, SignalingError);
    case ForCandidate => FinishSeen(e, SignalingError);
    case _ =>
  }

  lemma JoinSeen(e: Endpoint, response: Option<JoinResponse>)
    requires ByeSeen(e)
    ensures ByeSeen(OnJoinComplete(e, response))
  {
    hide Finish, Count, JoinQueue;
    FinishSeen(e, SignalingError);
    var f := e.(ctl := e.ctl.(joinResponse := response));
    FinishSeen(f.(peer := Initialize(f.peer).0), PeerConnectionError);
    FinishSeen(f.(peer := StartMedia(Initialize(f.peer).0).0), MediaError);
  }

  lemma CallbackSeen(e: Endpoint)
    requires Ordered(e) && !e.thread.quit && e.sig.callbacks != [] && ByeSeen(e)
    ensures ByeSeen(RunCallback(e))
  {
    hide Ordered, Pump, Finish, OnDone, OnJoinComplete, Count;
    OrderedQueues(e);
    CallbackHead(e);
    TookRuns(e);
    var t := Took(e);
    match e.sig.callbacks[0]
    case Opened =>
    case Inbound(m) => PumpSeen(Enqueued(t, m));
    case ErrorNotice => FinishSeen(t, SignalingError);
    case JoinDone(_, response) => JoinSeen(t, response);
    case Done(task, ok) => DoneSeen(t, task.purpose, ok);
  }

  lemma ReportSeen(e: Endpoint, st: ConnectionState)
    requires ByeSeen(e)
    ensures ByeSeen(OnConnectionChange(e, st)) && ByeSeen(OnFrame(e))
  {
    hide Finish, Count;
    FinishSeen(OnConnectionEdge(e, st), PeerConnectionError);
  }

  lemma TimerSeen(e: Endpoint, i: nat)
    requires ByeSeen(e) && i < |e.thread.timers|
    ensures ByeSeen(OnTimer(e, i))
  {
    hide Finish, Count;
    var f := e.(thread := e.thread.(timers := Without(e.thread.timers, i)));
    FinishSeen(f, StartupTimeout);
    FinishSeen(f, LocalDurationReached);
  }

  lemma ApplySeen(e: Endpoint, ev: Event)
    requires Ordered(e) && Enabled(e, ev) && ByeSeen(e)
    ensures ByeSeen(Apply(e, ev))
  {
    hide Ordered, RunCallback, RunNetworkTask, OnOperationDone, OnConnectionChange, OnFrame, OnTimer,
      SerializeIceCandidate, ParseSignalingMessage, Count;
    OrderedQueues(e);
    match ev
    case Callback => CallbackSeen(e);
    case OperationDone(i, ok, sdp) => OperationSeen(e, i, ok, sdp);
    case ConnectionChange(st) => ReportSeen(e, st);
    case VideoFrame => ReportSeen(e, NewState);
    case TimerFires(i) => TimerSeen(e, i);
    case _ =>
  }

  lemma {:induction false} RunSeen(config: AppConfig, verdicts: nat -> bool, events: seq<Event>)
    ensures ByeSeen(Run(Started(config, verdicts), events))
  {
    hide Ordered, Apply;
    if events != [] {
      RunSeen(config, verdicts, events[..|events| - 1]);
      RunOrdered(config, verdicts, events[..|events| - 1]);
      var e := Run(Started(config, verdicts), events[..|events| - 1]);
      hide Started, ByeSeen;
      if Enabled(e, Last(events)) {
        ApplySeen(e, Last(events));
      }
    }
  }

  /** What a peer posts reads as a bye exactly where it is one, and never as something unknown. */
  lemma PostedByes(e: Endpoint, initiator: bool)
    requires TextsFit(e, initiator)
    ensures Count(TaskCarrying(Bye), e.sig.log) == Count(IsBye, e.sig.log)
    ensures Count(TaskCarrying(Unknown), e.sig.log) == 0
  {
    forall t <- e.sig.log
      ensures TaskCarrying(Bye)(t) == IsBye(t) && !TaskCarrying(Unknown)(t)
    {
      assert TextFits(t, initiator);
    }
    CountSame(TaskCarrying(Bye), IsBye, e.sig.log);
    CountNone(TaskCarrying(Unknown), e.sig.log);
  }

  /** Of any kind, at most as many messages were received as the other peer posted. */
  lemma ReceivedFromOther(r: Room, initiator: bool, kind: MessageType)
    requires RoomFits(r)
    ensures Count(OfKind(kind), Received(Own(r, initiator))) <= Count(TaskCarrying(kind), Other(r, initiator).sig.log)
  {
    var e := Own(r, initiator);
    hide Ordered, Quiescent, Negotiates, ProgressFits, ParseSignalingMessage, JoinPart, HandedBy, HandedFits,
      WireCounts, SentFits, TextsFit, CandidatesFit, OfferedFits, Count, Collect;
    assert WireCounts(Other(r, initiator).sig, kind);
    ReceivedWasPosted(e, Other(r, initiator), Given(r, initiator), initiator, e.ctl.inbox.inbound, kind);
  }

  /** Who hangs up: in every room, if one peer's call ended because of a bye, the other's had ended because its call
      duration was reached, and had posted that bye; and no peer is ever sent a message it does not know. */
  lemma ByeComesFromOther(c1: AppConfig, v1: nat -> bool, c2: AppConfig, v2: nat -> bool,
                          events: seq<RoomEvent>, initiator: bool)
    ensures var r := RoomRun(NewRoom(c1, v1, c2, v2), events);
      var e := Own(r, initiator); var other := Other(r, initiator);
      && (e.ctl.ending.attempts != [] && RemoteBye(e.ctl.ending.attempts[0]) ==>
            ByLocal(other) && Count(IsBye, other.sig.log) == 1)
      && Count(OfKind(Unknown), Received(e)) == 0
  {
    hide RoomStep, RoomFits, EventsAt, Started, Run, ByeSeen, Count, Received;
    var first := NewRoom(c1, v1, c2, v2);
    var r := RoomRun(first, events);
    RoomRunFits(c1, v1, c2, v2, events);
    RoomProjects(first, events, initiator);
    if initiator {
      RunSeen(c1, v1, EventsAt(first, events, true));
    } else {
      RunSeen(c2, v2, EventsAt(first, events, false));
    }
    HungUpBy(r, initiator);
  }

  lemma HungUpBy(r: Room, initiator: bool)
    requires RoomFits(r) && ByeSeen(Own(r, initiator))
    ensures var e := Own(r, initiator); var other := Other(r, initiator);
      && (e.ctl.ending.attempts != [] && RemoteBye(e.ctl.ending.attempts[0]) ==>
            ByLocal(other) && Count(IsBye, other.sig.log) == 1)
      && Count(OfKind(Unknown), Received(e)) == 0
  {
    hide Ordered, Quiescent, MessagesFit, Negotiates, ProgressFits, HandedBy, HandedFits, AllCounted, SentFits,
      TextsFit, Count;
    ReceivedFromOther(r, initiator, Bye);
    ReceivedFromOther(r, initiator, Unknown);
    PostedByes(Other(r, initiator), !initiator);
    CountPrefix(OfKind(Bye), Own(r, initiator).ctl.inbox.dispatched, Received(Own(r, initiator)));
    OrderedByes(Other(r, initiator));
  }

  lemma OrderedByes(e: Endpoint)
    requires Ordered(e)
    ensures Count(IsBye, e.sig.log) == Bit(ByLocal(e))
  {
    hide Alive, QueuesFit, LinkFits, WireFits, RegistersFit, ByeFits, Count;
  }
}
