/** A room comes to rest: what the peers and the relay have left to do is bounded, and every step of it counts. */
module Settling {
  import opened Sequences
  import opened Common
  import opened PeerConnectionSpec
  import opened SignalingSpec
  import opened ControllerSpec
  import opened EndpointRuns
  import opened Lifecycle
  import opened Queues
  import opened Effects
  import opened WireOrder
  import opened Flight
  import opened Messages
  import opened NegotiationScript
  import opened Progress
  import opened RelayTexts
  import opened TwoPeers
  import opened Watchdog
  import opened AfterEnd
  import opened Convergence

  /** What one peer has left to do: connect and register, the calls of its script, its operations, its queues. */
  function Weight(e: Endpoint): int {
    4 * Bit(!Joined(e)) + 4 * (1 - Count(IsRegister, e.sig.log))
    + 5 * (3 - |e.peer.calls|) + 5 * |e.peer.operations|
    + 4 * |e.sig.network| + |e.sig.callbacks|
  }

  lemma WeightIsNatural(e: Endpoint, initiator: bool)
    requires PeerFits(e, initiator)
    ensures Weight(e) >= 0
  {
    hide Alive, QueuesFit, LogFits, LinkFits, WireFits, ByeFits, Quiescent, MessagesFit, ProgressFits, Relayed,
      Follows, Count;
    ScriptLength(e.peer, initiator);
  }

  lemma ActWeight(e: Endpoint)
    requires HasWork(e) && !Act(e).ctl.ending.finished
    ensures Weight(Act(e)) <= Weight(e)
  {
    hide AddCandidate, Count;
  }

  /** The pump adds nothing: an action it starts is a call of the script. */
  lemma {:induction false} PumpWeight(e: Endpoint)
    requires Alive(e) && !Pump(e).ctl.ending.finished
    ensures Weight(Pump(e)) <= Weight(e)
    decreases Work(e)
  {
    hide Act, Alive, Weight;
    if HasWork(e) {
      ActAlive(e);
      if Act(e).ctl.ending.finished {
        assert false;
      }
      ActWeight(e);
      PumpWeight(Act(e));
    }
  }

  lemma SubmitWeight(s: Signaling, op: NetOp, purpose: Purpose, text: Text)
    ensures var t := Submit(s, op, purpose, text);
      && |t.network| == |s.network| + 1 && t.callbacks == s.callbacks
      && Count(IsRegister, t.log) == Count(IsRegister, s.log) + Bit(op.RegisterClient?)
  {
    CountMore(IsRegister, s.log, NetTask(|s.log|, op, purpose, text));
  }

  lemma OperationWeight(e: Endpoint, i: nat, ok: bool, sdp: string)
    requires Alive(e) && !e.thread.quit && i < |e.peer.operations|
    requires !OnOperationDone(e, i, ok, sdp).ctl.ending.finished
    ensures Weight(OnOperationDone(e, i, ok, sdp)) < Weight(e)
  {
    hide Pump, CompleteOperation, Count, EndingFits;
    OperationFrame(e.peer, i, ok, sdp);
    var (p, reply) := CompleteOperation(e.peer, i, ok, sdp);
    var f := e.(peer := p, ctl := SetInFlight(e.ctl, false));
    if reply.RemoteAnswerSet? {
      AliveIdle(e, p);
      PumpWeight(f);
    } else if reply.LocalDescriptionReady? {
      SubmitWeight(e.sig, Route(e), ForDescription, reply.json);
    }
  }

  lemma DoneWeight(e: Endpoint, purpose: Purpose, ok: bool)
    requires Alive(e) && !e.ctl.ending.finished && !OnDone(e, purpose, ok).ctl.ending.finished && !purpose.ForBye?
    requires purpose.ForRegister? && ok ==> e.ctl.negotiation.ready
    ensures Weight(OnDone(e, purpose, ok)) <= Weight(e)
  {
    hide Pump, Count;
    var f := e.(ctl := SetInFlight(e.ctl, false));
    match purpose
    case ForRegister =>
      if ok {
        PumpWeight(e);
      }
    case ForDescription =>
      if ok {
        PumpWeight(f);
      }
    case _ =>
  }

  lemma TookWeight(e: Endpoint)
    requires e.sig.callbacks != []
    ensures Weight(Took(e)) == Weight(e) - 1
  {
    hide Count;
  }

  lemma JoinWeight(e: Endpoint, response: Option<JoinResponse>)
    requires !Joined(e) && !e.ctl.ending.finished && !OnJoinComplete(e, response).ctl.ending.finished
    ensures Weight(OnJoinComplete(e, response)) <= Weight(e)
  {
    hide Count, JoinQueue;
    SubmitWeight(e.sig, ConnectWebSocket, NoReply, Malformed);
  }

  lemma OpenedWeight(e: Endpoint)
    ensures Weight(OnWebSocketOpen(e)) <= Weight(e)
  {
    SubmitWeight(e.sig, RegisterClient, ForRegister, Malformed);
    hide Count;
  }

  lemma InboundWeight(e: Endpoint, m: Message)
    requires Alive(e) && Joined(e) && !Pump(Enqueued(e, m)).ctl.ending.finished
    ensures Weight(Pump(Enqueued(e, m))) <= Weight(e)
  {
    hide Pump, Count;
    PumpWeight(Enqueued(e, m));
  }

  lemma CallbackWeight(e: Endpoint)
    requires Ordered(e) && !e.thread.quit && e.sig.callbacks != []
    requires !e.ctl.ending.finished && !RunCallback(e).ctl.ending.finished
    ensures Weight(RunCallback(e)) < Weight(e)
  {
    hide Ordered, Pump, OnDone, OnJoinComplete, OnWebSocketOpen, Weight;
    OrderedQueues(e);
    CallbackHead(e);
    TookRuns(e);
    TookWeight(e);
    var t := Took(e);
    match e.sig.callbacks[0]
    case Opened => OpenedWeight(t);
    case Inbound(m) => InboundWeight(t, m);
    case ErrorNotice =>
    case JoinDone(_, response) => JoinWeight(t, response);
    case Done(task, ok) => DoneWeight(t, task.purpose, ok);
  }

  /** A step of the network thread, a callback, a completed operation, or a message handed over by the relay. */
  predicate OwnStep(ev: Event) {
    ev.Network? || ev.Callback? || ev.OperationDone? || (ev.SocketMessage? && ev.frame.Payload?)
  }

  lemma NetworkWeight(e: Endpoint, t: Signaling)
    requires QueuesFit(e.sig) && e.sig.network != [] && NetworkShape(e.sig, t)
    ensures Weight(e.(sig := t)) + 2 * (|t.wire| - |e.sig.wire|) < Weight(e)
  {
    hide QueuesFit, Count;
  }

  /** Every own step takes off more than it adds, counting each frame that leaves, and each that came in, twice. */
  lemma OwnStepWeight(e: Endpoint, ev: Event, initiator: bool)
    requires PeerFits(e, initiator) && Enabled(e, ev) && OwnStep(ev)
    requires !e.ctl.ending.finished && !Apply(e, ev).ctl.ending.finished
    ensures var f := Apply(e, ev);
      Weight(f) + 2 * (|f.sig.wire| - |e.sig.wire|) < Weight(e) + 2 * |Brings(ev)|
  {
    hide Ordered, Quiescent, MessagesFit, Negotiates, ProgressFits, Relayed, RunCallback, RunNetworkTask,
      OnOperationDone, ParseSignalingMessage, Weight, QueuesFit;
    OrderedQueues(e);
    match ev
    case Network(o) =>
      NetworkHasShape(e.sig, o);
      NetworkWeight(e, RunNetworkTask(e.sig, o));
    case Callback =>
      CallbackWeight(e);
      CallbackKeeps(e);
    case OperationDone(i, ok, sdp) =>
      OperationWeight(e, i, ok, sdp);
      ApplyEffect(e, ev);
      EffectKeeps(e, Apply(e, ev));
    case SocketMessage(f) => HeardWeight(e, f.text);
  }

  lemma HeardWeight(e: Endpoint, text: Text)
    ensures Weight(e.(sig := OnSocketMessage(e.sig, Payload(text)))) == Weight(e) + 1
    ensures OnSocketMessage(e.sig, Payload(text)).wire == e.sig.wire
  {
    hide Count, ParseSignalingMessage;
  }

  /** What the relay still has to hand to a peer. */
  function Unhanded(r: Room, initiator: bool): int {
    |Payloads(Other(r, initiator))| - Given(r, initiator)
  }

  /** What is left to do in a room. */
  function Measure(r: Room): int {
    Weight(r.caller) + Weight(r.callee) + 2 * Unhanded(r, true) + 2 * Unhanded(r, false)
  }

  predicate GoingOn(r: Room) {
    !r.caller.ctl.ending.finished && !r.callee.ctl.ending.finished
  }

  /** The event takes place in the room. */
  predicate Possible(r: Room, rev: RoomEvent) {
    var initiator := rev.AtCaller?;
    && Enabled(Own(r, initiator), rev.ev)
    && RelayAllows(Other(r, initiator), Given(r, initiator), initiator, rev.ev)
  }

  lemma MeasureIsNatural(r: Room)
    requires RoomFits(r)
    ensures Measure(r) >= 0
  {
    hide PeerFits, Weight, Payloads;
    WeightIsNatural(r.caller, true);
    WeightIsNatural(r.callee, false);
  }

  lemma PayloadsGrow(e: Endpoint, f: Endpoint)
    requires e.sig.wire <= f.sig.wire
    ensures |Payloads(f)| - |Payloads(e)| <= |f.sig.wire| - |e.sig.wire|
  {
    var more := f.sig.wire[|e.sig.wire|..];
    assert f.sig.wire == e.sig.wire + more;
    CollectAppend(PayloadOf, e.sig.wire, more);
    CollectBound(PayloadOf, more);
    hide Collect;
  }

  lemma {:induction false} CollectBound<T, U>(pick: T -> Option<U>, xs: seq<T>)
    ensures |Collect(pick, xs)| <= |xs|
  {
    if xs != [] {
      CollectBound(pick, xs[1..]);
    }
  }

  /** As long as both calls go on, every own step of a peer and every hand-over leaves less to do. */
  lemma OwnStepsCount(r: Room, rev: RoomEvent)
    requires RoomFits(r) && OwnStep(rev.ev) && Possible(r, rev) && GoingOn(r) && GoingOn(RoomStep(r, rev))
    ensures Measure(RoomStep(r, rev)) < Measure(r)
  {
    hide PeerFits, HandedBy, Apply, Enabled, RelayAllows, Weight, Payloads, OwnStep;
    var initiator := rev.AtCaller?;
    var e := Own(r, initiator);
    OwnStepWeight(e, rev.ev, initiator);
    WireGrows(e, rev.ev, initiator);
    PayloadsGrow(e, Apply(e, rev.ev));
  }

  function OutcomeFor(task: NetTask, initiator: bool): NetOutcome {
    match task.op
    case JoinRoom => JoinOutcome(Accepted(JoinResponse(initiator, [])))
    case ConnectWebSocket => Completed
    case CloseSocket => Completed
    case _ => SendOutcomeOf(Delivered)
  }

  /** A step that a peer, or the relay for it, can make as long as it is not at rest. */
  function NextStep(r: Room, initiator: bool): Option<Event> {
    var e := Own(r, initiator);
    var given := Given(r, initiator);
    var texts := Payloads(Other(r, initiator));
    if e.sig.network != [] then Some(Network(OutcomeFor(e.sig.network[0], initiator)))
    else if e.sig.callbacks != [] then Some(Callback)
    else if e.peer.operations != [] then Some(OperationDone(0, true, ""))
    else if given < |texts| then Some(SocketMessage(Payload(texts[given])))
    else None
  }

  function At(initiator: bool, ev: Event): RoomEvent {
    if initiator then AtCaller(ev) else AtCallee(ev)
  }

  predicate SocketsUp(r: Room) {
    r.caller.sig.link.socket.Up? && r.callee.sig.link.socket.Up?
  }

  lemma NextStepIsPossible(r: Room, initiator: bool)
    requires RoomFits(r) && GoingOn(r) && SocketsUp(r) && NextStep(r, initiator).Some?
    ensures var ev := NextStep(r, initiator).value; OwnStep(ev) && Succeeds(ev) && Possible(r, At(initiator, ev))
  {
    hide Ordered, Quiescent, MessagesFit, Negotiates, ProgressFits, Relayed, Payloads;
    NotQuit(Own(r, initiator));
  }

  /** A room that can make no such step, with both sockets up, is quiet. */
  lemma NoStepIsQuiet(r: Room)
    requires RoomFits(r) && GoingOn(r) && SocketsUp(r)
    requires NextStep(r, true).None? && NextStep(r, false).None?
    ensures QuietRoom(r)
  {
    hide PeerFits, Payloads;
  }

  lemma StepKeepsSocket(e: Endpoint, ev: Event)
    requires Ordered(e) && Enabled(e, ev) && OwnStep(ev) && e.sig.link.socket.Up?
    ensures Apply(e, ev).sig.link.socket.Up?
  {
    hide Ordered, QueuesFit, RunCallback, RunNetworkTask, OnOperationDone, ParseSignalingMessage;
    OrderedQueues(e);
    match ev
    case Network(o) =>
      NetworkHasShape(e.sig, o);
      ConnectIsPast(e);
    case Callback => CallbackKeeps(e);
    case OperationDone(i, ok, sdp) =>
      ApplyEffect(e, ev);
      EffectKeeps(e, Apply(e, ev));
    case SocketMessage(_) =>
  }

  lemma ConnectIsPast(e: Endpoint)
    requires Ordered(e) && e.sig.link.socket.Up? && e.sig.network != []
    ensures !e.sig.network[0].op.ConnectWebSocket?
  {
    HeadOfNetwork(e.sig);
    hide Alive, QueuesFit, WireFits, RegistersFit, ByeFits, Count;
  }

  lemma RoomStepKeeps(r: Room, rev: RoomEvent)
    requires RoomFits(r) && SocketsUp(r) && OwnStep(rev.ev) && Possible(r, rev)
    ensures SocketsUp(RoomStep(r, rev))
  {
    hide Apply, Enabled, RelayAllows, Quiescent, MessagesFit, Negotiates, ProgressFits, Relayed, HandedBy, Ordered,
      OwnStep;
    StepKeepsSocket(Own(r, rev.AtCaller?), rev.ev);
  }

  lemma RoomRunMore(r: Room, events: seq<RoomEvent>, rev: RoomEvent)
    ensures RoomRun(r, events + [rev]) == RoomStep(RoomRun(r, events), rev)
  {
    hide RoomStep;
    assert (events + [rev])[..|events|] == events;
  }

  /** Nothing fails: the request arrives, the operation succeeds. */
  predicate Succeeds(ev: Event) {
    match ev
    case Network(SendOutcomeOf(sent)) => sent.Delivered?
    case Network(JoinOutcome(reply)) => reply.Accepted?
    case OperationDone(_, ok, _) => ok
    case _ => true
  }

  /** The events `after` are own steps that succeed, and each takes place. */
  predicate GoodSteps(first: Room, events: seq<RoomEvent>, after: seq<RoomEvent>) {
    forall i | 0 <= i < |after| ::
      OwnStep(after[i].ev) && Succeeds(after[i].ev) && Possible(RoomRun(first, events + after[..i]), after[i])
  }

  /** They are at most as many as were left to do, and then the room is quiet or a call has ended. */
  predicate SettledBy(first: Room, events: seq<RoomEvent>, after: seq<RoomEvent>) {
    var s := RoomRun(first, events + after);
    && |after| <= Measure(RoomRun(first, events)) && GoodSteps(first, events, after)
    && (QuietRoom(s) || !GoingOn(s))
  }

  lemma GoodStepsAfter(first: Room, events: seq<RoomEvent>, rev: RoomEvent, rest: seq<RoomEvent>)
    requires GoodSteps(first, events + [rev], rest)
    requires OwnStep(rev.ev) && Succeeds(rev.ev) && Possible(RoomRun(first, events), rev)
    ensures GoodSteps(first, events, [rev] + rest)
  {
    hide RoomRun, OwnStep, Succeeds, Possible;
    var after := [rev] + rest;
    forall i | 0 <= i < |after|
      ensures OwnStep(after[i].ev) && Succeeds(after[i].ev) && Possible(RoomRun(first, events + after[..i]), after[i])
    {
      if i == 0 {
        assert events + after[..0] == events;
      } else {
        assert events + after[..i] == (events + [rev]) + rest[..i - 1] && after[i] == rest[i - 1];
      }
    }
  }

  lemma SettledAfter(first: Room, events: seq<RoomEvent>, rev: RoomEvent, rest: seq<RoomEvent>)
    requires SettledBy(first, events + [rev], rest)
    requires OwnStep(rev.ev) && Succeeds(rev.ev) && Possible(RoomRun(first, events), rev)
    requires Measure(RoomRun(first, events + [rev])) < Measure(RoomRun(first, events))
    ensures SettledBy(first, events, [rev] + rest)
  {
    hide RoomRun, QuietRoom, OwnStep, Succeeds, Possible, Measure, GoingOn, GoodSteps;
    GoodStepsAfter(first, events, rev, rest);
    assert events + ([rev] + rest) == (events + [rev]) + rest;
  }

  /** A room comes to rest: from every room run in which both calls go on with their sockets up, at most as many
      own steps as are left to do, all of them successful, lead to a room that is quiet, hence negotiated, or to
      the end of a call. */
  lemma {:induction false} RoomSettles(c1: AppConfig, v1: nat -> bool, c2: AppConfig, v2: nat -> bool,
                                       events: seq<RoomEvent>)
    requires GoingOn(RoomRun(NewRoom(c1, v1, c2, v2), events)) && SocketsUp(RoomRun(NewRoom(c1, v1, c2, v2), events))
    ensures exists after :: SettledBy(NewRoom(c1, v1, c2, v2), events, after)
    decreases Measure(RoomRun(NewRoom(c1, v1, c2, v2), events))
  {
    hide NewRoom, RoomRun, RoomStep, RoomFits, QuietRoom, NextStep, OwnStep, Succeeds, Possible, Measure, GoingOn,
      SocketsUp;
    var first := NewRoom(c1, v1, c2, v2);
    var r := RoomRun(first, events);
    RoomRunFits(c1, v1, c2, v2, events);
    MeasureIsNatural(r);
    if NextStep(r, true).None? && NextStep(r, false).None? {
      NoStepIsQuiet(r);
      assert events + [] == events;
      assert SettledBy(first, events, []);
    } else {
      var initiator := NextStep(r, true).Some?;
      var rev := At(initiator, NextStep(r, initiator).value);
      NextStepIsPossible(r, initiator);
      RoomRunMore(first, events, rev);
      var next := RoomStep(r, rev);
      RoomRunFits(c1, v1, c2, v2, events + [rev]);
      MeasureIsNatural(next);
      if GoingOn(next) {
        OwnStepsCount(r, rev);
        RoomStepKeeps(r, rev);
        RoomSettles(c1, v1, c2, v2, events + [rev]);
        var rest :| SettledBy(first, events + [rev], rest);
        SettledAfter(first, events, rev, rest);
      } else {
        SomethingLeft(r, initiator);
        assert GoodSteps(first, events + [rev], []);
        GoodStepsAfter(first, events, rev, []);
        assert [rev] + [] == [rev];
        assert SettledBy(first, events, [rev]);
      }
    }
  }

  /** A peer that is not at rest has something left to do. */
  lemma SomethingLeft(r: Room, initiator: bool)
    requires RoomFits(r) && NextStep(r, initiator).Some?
    ensures Measure(r) >= 1
  {
    hide Ordered, Quiescent, MessagesFit, Negotiates, ProgressFits, Relayed, Payloads, Weight;
    WeightIsNatural(r.caller, true);
    WeightIsNatural(r.callee, false);
    PeerLeft(Own(r, initiator), initiator);
  }

  lemma PeerLeft(e: Endpoint, initiator: bool)
    requires PeerFits(e, initiator)
    ensures e.sig.network != [] || e.sig.callbacks != [] || e.peer.operations != [] ==> Weight(e) >= 1
  {
    hide Alive, QueuesFit, LogFits, LinkFits, WireFits, ByeFits, Quiescent, MessagesFit, ProgressFits, Relayed, Follows,
      Count;
    ScriptLength(e.peer, initiator);
  }

  lemma EndedStays(e: Endpoint, ev: Event)
    requires Ordered(e) && Enabled(e, ev) && e.ctl.ending.finished
    ensures Apply(e, ev).ctl.ending.finished
  {
    hide Ordered, Apply, Absorbed;
    ApplyAbsorbed(e, ev);
    EndStays(e, Apply(e, ev));
  }

  lemma WasGoingOn(r: Room, rev: RoomEvent)
    requires RoomFits(r) && GoingOn(RoomStep(r, rev))
    ensures GoingOn(r)
  {
    hide Apply, Enabled, RelayAllows, Quiescent, MessagesFit, Negotiates, ProgressFits, Relayed, HandedBy, Ordered;
    var e := Own(r, rev.AtCaller?);
    if e.ctl.ending.finished && Possible(r, rev) {
      EndedStays(e, rev.ev);
    }
  }

  /** And there is no way round: whatever the order, only that many own steps can be made while both calls go on. */
  lemma {:induction false} OwnStepsAreFew(c1: AppConfig, v1: nat -> bool, c2: AppConfig, v2: nat -> bool,
                                          events: seq<RoomEvent>, after: seq<RoomEvent>)
    requires forall i | 0 <= i < |after| ::
      OwnStep(after[i].ev) && Possible(RoomRun(NewRoom(c1, v1, c2, v2), events + after[..i]), after[i])
    requires GoingOn(RoomRun(NewRoom(c1, v1, c2, v2), events + after))
    ensures |after| + Measure(RoomRun(NewRoom(c1, v1, c2, v2), events + after))
         <= Measure(RoomRun(NewRoom(c1, v1, c2, v2), events))
    decreases |after|
  {
    hide NewRoom, RoomRun, RoomStep, RoomFits, OwnStep, Possible, Measure, GoingOn;
    var first := NewRoom(c1, v1, c2, v2);
    if after == [] {
      assert events + after == events;
    } else {
      var n := |after| - 1;
      var some := after[..n];
      var r := RoomRun(first, events + some);
      assert events + after == (events + some) + [after[n]];
      RoomRunMore(first, events + some, after[n]);
      RoomRunFits(c1, v1, c2, v2, events + some);
      WasGoingOn(r, after[n]);
      OwnStepsCount(r, after[n]);
      forall i | 0 <= i < n
        ensures OwnStep(some[i].ev) && Possible(RoomRun(first, events + some[..i]), some[i])
      {
        assert some[..i] == after[..i] && some[i] == after[i];
      }
      OwnStepsAreFew(c1, v1, c2, v2, events, some);
    }
  }
}
