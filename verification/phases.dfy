/** When a call shown as connected goes back to negotiating. */
module Phases {
  import opened Sequences
  import opened Common
  import opened PeerConnectionSpec
  import opened SignalingSpec
  import opened ControllerSpec
  import opened JoinOrder
  import opened EndpointRuns
  import opened Lifecycle
  import opened Queues
  import opened Effects
  import opened WireOrder
  import opened Flight
  import opened Messages
  import opened NegotiationScript
  import opened Progress
  import opened RelayTexts
  import opened TwoPeers
  import opened Verdicts
  import opened Watchdog

  /** The queue, read from the front: past candidates it comes to a description, or to its end with an offer due. */
  predicate MeetsDescription(ms: seq<Message>, offerDue: bool) {
    if ms == [] then offerDue
    else IsDescriptionMessage(ms[0]) || (ms[0].kind.Candidate? && MeetsDescription(ms[1..], offerDue))
  }

  /** The queue that an event lets the pump work on, if it lets it run. */
  function Unblocked(e: Endpoint, ev: Event): Option<seq<Message>>
    requires Enabled(e, ev)
  {
    var n := e.ctl.negotiation;
    var pending := e.ctl.inbox.pending;
    match ev
    case OperationDone(i, ok, _) =>
      if ok && e.peer.operations[i] == SettingRemote(SdpAnswer) then Some(pending) else None
    case Callback =>
      (match e.sig.callbacks[0]
       case Inbound(m) => if n.ready && !n.inFlight then Some(pending + [m]) else None
       case Done(task, ok) =>
         if ok && (task.purpose.ForDescription? || (task.purpose.ForRegister? && !n.inFlight)) then Some(pending)
         else None
       case _ => None)
    case _ => None
  }

  /** The event makes the pump start a negotiation action. */
  predicate StartsNegotiation(e: Endpoint, ev: Event)
    requires Enabled(e, ev)
  {
    Unblocked(e, ev).Some? && MeetsDescription(Unblocked(e, ev).value, MustOffer(e))
  }

  /** From `e` to `f` the phase and the calls show whether an action was started. */
  predicate PhaseTells(e: Endpoint, f: Endpoint, started: bool) {
    && f.ctl.state == (if started then Negotiating else e.ctl.state)
    && |f.peer.calls| >= |e.peer.calls| + Bit(started)
    && f.ctl.media.established == e.ctl.media.established
  }

  lemma DescriptionPhase(e: Endpoint)
    requires HasWork(e) && e.ctl.inbox.pending != [] && IsDescriptionMessage(e.ctl.inbox.pending[0])
    ensures var f := Act(e); !f.ctl.ending.finished ==> !HasWork(f) && PhaseTells(e, f, true)
  {
  }

  lemma OtherPhase(e: Endpoint)
    requires HasWork(e) && e.ctl.inbox.pending != [] && !IsDescriptionMessage(e.ctl.inbox.pending[0])
    ensures var f := Act(e);
      !f.ctl.ending.finished ==>
        && e.ctl.inbox.pending[0].kind.Candidate? && CanPump(f) && PhaseTells(e, f, false)
        && f.ctl.inbox.pending == e.ctl.inbox.pending[1..] && MustOffer(f) == MustOffer(e)
  {
    hide StartRemote, AddCandidate;
  }

  lemma OfferPhase(e: Endpoint)
    requires HasWork(e) && e.ctl.inbox.pending == []
    ensures !HasWork(Act(e)) && PhaseTells(e, Act(e), true)
  {
  }

  /** If the call goes on after the pump, the phase tells what the queue met. */
  lemma {:induction false} PumpPhase(e: Endpoint)
    requires Alive(e) && CanPump(e) && !Pump(e).ctl.ending.finished
    ensures PhaseTells(e, Pump(e), MeetsDescription(e.ctl.inbox.pending, MustOffer(e)))
    decreases Work(e)
  {
    hide Act, Alive;
    if HasWork(e) {
      var f := Act(e);
      ActAlive(e);
      if f.ctl.ending.finished {
        assert false;
      } else if e.ctl.inbox.pending == [] {
        OfferPhase(e);
      } else if IsDescriptionMessage(e.ctl.inbox.pending[0]) {
        DescriptionPhase(e);
      } else {
        OtherPhase(e);
        PumpPhase(f);
      }
    }
  }

  lemma BlockedPump(e: Endpoint)
    requires !CanPump(e)
    ensures Pump(e) == e
  {
  }

  lemma OperationPhase(e: Endpoint, i: nat, ok: bool, sdp: string)
    requires Alive(e) && !e.ctl.ending.finished && e.ctl.negotiation.ready && Enabled(e, OperationDone(i, ok, sdp))
    requires !OnOperationDone(e, i, ok, sdp).ctl.ending.finished
    ensures PhaseTells(e, OnOperationDone(e, i, ok, sdp), StartsNegotiation(e, OperationDone(i, ok, sdp)))
  {
    hide Pump, CompleteOperation, MeetsDescription, AllAccepted;
    OperationReply(e.peer, i, ok, sdp);
    OperationFrame(e.peer, i, ok, sdp);
    var (p, reply) := CompleteOperation(e.peer, i, ok, sdp);
    var f := e.(peer := p, ctl := SetInFlight(e.ctl, false));
    if reply.RemoteAnswerSet? {
      AliveIdle(e, p);
      PumpPhase(f);
    }
    OperationAnswer(e.peer, i, ok, sdp);
  }

  /** A remote answer that was set is the one success without a further call or a description made. */
  lemma OperationAnswer(p: Peer, i: nat, ok: bool, sdp: string)
    requires i < |p.operations|
    ensures var reply := CompleteOperation(p, i, ok, sdp).1;
      ok && p.operations[i] == SettingRemote(SdpAnswer) ==> reply.RemoteAnswerSet? || reply.ActionFailed?
  {
    hide Flush, Without;
  }

  lemma DonePhase(e: Endpoint, purpose: Purpose, ok: bool)
    requires Alive(e) && Joined(e) && e.ctl.negotiation.ready && !purpose.ForBye?
    requires !e.ctl.ending.finished && !OnDone(e, purpose, ok).ctl.ending.finished
    ensures PhaseTells(e, OnDone(e, purpose, ok),
                       && ok && (purpose.ForDescription? || (purpose.ForRegister? && !e.ctl.negotiation.inFlight))
                       && MeetsDescription(e.ctl.inbox.pending, MustOffer(e)))
  {
    hide Pump, MeetsDescription, PartsFit;
    var f := e.(ctl := SetInFlight(e.ctl, false));
    match purpose
    case ForRegister =>
      if ok {
        if e.ctl.negotiation.inFlight {
          BlockedPump(e);
        } else {
          PumpPhase(e);
        }
      }
    case ForDescription =>
      if ok {
        DownAlive(e);
        PumpPhase(f);
      }
    case _ =>
  }

  lemma InboundPhase(e: Endpoint, m: Message)
    requires Alive(e) && Joined(e) && !e.ctl.ending.finished && !Pump(Enqueued(e, m)).ctl.ending.finished
    ensures var n := e.ctl.negotiation;
      PhaseTells(e, Pump(Enqueued(e, m)),
                 n.ready && !n.inFlight && MeetsDescription(e.ctl.inbox.pending + [m], MustOffer(e)))
  {
    hide Pump, MeetsDescription;
    if CanPump(e) {
      PumpPhase(Enqueued(e, m));
    } else {
      BlockedPump(Enqueued(e, m));
    }
  }

  /** What an established call whose controller shows it as connected has behind it. */
  lemma InCallFacts(e: Endpoint)
    requires Ordered(e) && e.ctl.state.InCall?
    ensures !e.ctl.ending.finished && !e.thread.quit && e.ctl.media.established && Joined(e) && e.ctl.negotiation.ready
    ensures LocalDescriptionStarted(e.peer) && RemoteDescriptionStarted(e.peer)
    ensures e.sig.callbacks != [] ==> !e.sig.callbacks[0].Opened? && !ByeAnswered(e.sig.callbacks[0])
  {
    hide Alive, QueuesFit, LogFits, LinkFits, ByeFits, Count;
    InCallAlive(e);
    RegisteredBefore(e);
    if e.sig.callbacks != [] {
      CallbackHead(e);
    }
  }

  lemma InCallAlive(e: Endpoint)
    requires Alive(e) && e.ctl.state.InCall?
    ensures !e.ctl.ending.finished && !e.thread.quit && e.ctl.media.established && Joined(e) && e.ctl.negotiation.ready
    ensures LocalDescriptionStarted(e.peer) && RemoteDescriptionStarted(e.peer)
  {
  }

  /** The pump is open only after the one registration. */
  lemma RegisteredBefore(e: Endpoint)
    requires WireFits(e) && e.ctl.negotiation.ready
    ensures Count(IsRegister, e.sig.log) >= 1
  {
    CountNone(IsRegisterFrame, e.sig.wire);
    assert e.sig.wire[0] in e.sig.wire && IsRegisterFrame(e.sig.wire[0]);
    hide Count;
  }

  lemma CallbackPhase(e: Endpoint)
    requires Ordered(e) && e.ctl.state.InCall? && Enabled(e, Callback)
    requires !RunCallback(e).ctl.ending.finished
    ensures PhaseTells(e, RunCallback(e), StartsNegotiation(e, Callback))
  {
    hide Ordered, Pump, OnDone, MeetsDescription;
    OrderedQueues(e);
    InCallFacts(e);
    CallbackHead(e);
    TookRuns(e);
    var t := Took(e);
    match e.sig.callbacks[0]
    case Inbound(m) => InboundPhase(t, m);
    case Done(task, ok) => DonePhase(t, task.purpose, ok);
    case ErrorNotice =>
    case _ => assert false;
  }

  lemma ReportPhase(e: Endpoint, st: ConnectionState)
    requires e.ctl.state.InCall? && e.ctl.media.established
    ensures !OnConnectionChange(e, st).ctl.ending.finished ==> PhaseTells(e, OnConnectionChange(e, st), false)
    ensures !OnFrame(e).ctl.ending.finished ==> PhaseTells(e, OnFrame(e), false)
  {
  }

  lemma TimerPhase(e: Endpoint, i: nat)
    requires i < |e.thread.timers| && !OnTimer(e, i).ctl.ending.finished
    ensures PhaseTells(e, OnTimer(e, i), false)
  {
  }

  /** Every event that a connected call survives leaves it connected, unless it starts a negotiation action. */
  lemma ApplyPhase(e: Endpoint, ev: Event)
    requires Ordered(e) && e.ctl.state.InCall? && Enabled(e, ev) && !Apply(e, ev).ctl.ending.finished
    ensures PhaseTells(e, Apply(e, ev), StartsNegotiation(e, ev))
  {
    hide Ordered, RunCallback, RunNetworkTask, OnOperationDone, OnConnectionChange, OnFrame, OnTimer, OnSocketMessage,
      SerializeIceCandidate, MeetsDescription;
    OrderedQueues(e);
    InCallFacts(e);
    match ev
    case Callback => CallbackPhase(e);
    case OperationDone(i, ok, sdp) => OperationPhase(e, i, ok, sdp);
    case ConnectionChange(st) => ReportPhase(e, st);
    case VideoFrame => ReportPhase(e, NewState);
    case TimerFires(i) => TimerPhase(e, i);
    case _ =>
  }

  /** The connected phase is not final. In every run, an event without a verdict takes a connected call back to
      negotiating if and only if it lets the pump run and the queue then comes, past candidates, to a description
      or, with an offer still due, to its end; otherwise the call stays connected. */
  lemma WhenConnectedStepsBack(config: AppConfig, verdicts: nat -> bool, events: seq<Event>, ev: Event)
    requires var e := Run(Started(config, verdicts), events);
      e.ctl.state.InCall? && Enabled(e, ev) && Verdict(e, ev).None?
    ensures var e := Run(Started(config, verdicts), events);
      && (Apply(e, ev).ctl.state == Negotiating <==> StartsNegotiation(e, ev))
      && (Apply(e, ev).ctl.state == InCall <==> !StartsNegotiation(e, ev))
      && Apply(e, ev).ctl.media.established
  {
    hide Started, Apply, Enabled, Ordered, Quiescent, ClockFits, StartsNegotiation, Verdict;
    RunOrdered(config, verdicts, events);
    RunQuiescent(config, verdicts, events);
    RunClock(config, verdicts, events);
    InCallFacts(Run(Started(config, verdicts), events));
    EventEnds(config, Run(Started(config, verdicts), events), ev);
    ApplyPhase(Run(Started(config, verdicts), events), ev);
  }

  /** With both descriptions begun the script is complete. */
  lemma BothBegun(p: Peer, initiator: bool)
    requires Follows(p, initiator) && LocalDescriptionStarted(p) && RemoteDescriptionStarted(p)
    ensures |p.calls| == 3
  {
    hide Carries;
    var script := Script(initiator);
    assert forall c <- p.calls :: exists i | 0 <= i < |p.calls| :: c == script[i];
  }

  lemma PeerStaysConnected(r: Room, initiator: bool, ev: Event)
    requires RoomFits(r) && Enabled(Own(r, initiator), ev) && Own(r, initiator).ctl.state.InCall?
    requires RelayAllows(Other(r, initiator), Given(r, initiator), initiator, ev)
    ensures var f := Apply(Own(r, initiator), ev); f.ctl.state.InCall? || f.ctl.ending.finished
  {
    var e := Own(r, initiator);
    hide Apply, Ordered, Quiescent, MessagesFit, Follows, ProgressFits, Relayed, HandedBy, StartsNegotiation, Count,
      RelayAllows;
    PeerStepFits(r, initiator, ev);
    if !Apply(e, ev).ctl.ending.finished {
      ApplyPhase(e, ev);
      InCallFacts(e);
      BothBegun(e.peer, initiator);
      ScriptLength(Apply(e, ev).peer, initiator);
    }
  }

  /** Between two peers the connected phase is left only by the end of the call: neither way back is open, since
      each negotiates once. */
  lemma ConnectedIsFinalInRooms(c1: AppConfig, v1: nat -> bool, c2: AppConfig, v2: nat -> bool,
                                events: seq<RoomEvent>, rev: RoomEvent, initiator: bool)
    requires Own(RoomRun(NewRoom(c1, v1, c2, v2), events), initiator).ctl.state.InCall?
    ensures var f := Own(RoomStep(RoomRun(NewRoom(c1, v1, c2, v2), events), rev), initiator);
      f.ctl.state.InCall? || f.ctl.state.Stopping? || f.ctl.state.Finished?
  {
    hide NewRoom, PeerFits, HandedBy, Apply, Enabled, RelayAllows;
    RoomRunFits(c1, v1, c2, v2, events);
    var r := RoomRun(NewRoom(c1, v1, c2, v2), events);
    var e := Own(r, initiator);
    if rev.AtCaller? == initiator && Enabled(e, rev.ev)
       && RelayAllows(Other(r, initiator), Given(r, initiator), initiator, rev.ev) {
      PeerStaysConnected(r, initiator, rev.ev);
      PeerStepFits(r, initiator, rev.ev);
      EndShows(Apply(e, rev.ev), initiator);
    }
  }

  lemma EndShows(e: Endpoint, initiator: bool)
    requires PeerFits(e, initiator)
    ensures e.ctl.ending.finished ==> e.ctl.state.Stopping? || e.ctl.state.Finished?
  {
    hide PartsFit, QueuesFit, LogFits, LinkFits, WireFits, RegistersFit, ByeFits, Quiescent, MessagesFit, Negotiates,
      ProgressFits, Relayed;
  }
}
