/** When nothing fails, the negotiation of two peers completes. */
module Completion {
  import opened Sequences
  import opened Common
  import opened PeerConnectionSpec
  import opened SignalingSpec
  import opened ControllerSpec
  import opened EndpointRuns
  import opened Lifecycle
  import opened Queues
  import opened Effects
  import opened WireOrder
  import opened Flight
  import opened Messages
  import opened NegotiationScript
  import opened Progress
  import opened RelayTexts
  import opened TwoPeers
  import opened Watchdog
  import opened Verdicts
  import opened Hangups
  import opened Convergence
  import opened Settling

  /** libwebrtc refuses nothing from now on. */
  ghost predicate Willing(o: Oracle) {
    forall n | n >= o.asked :: o.verdicts(n)
  }

  predicate GoodNews(c: CallbackTask) {
    match c
    case ErrorNotice => false
    case JoinDone(_, response) => response.Some?
    case Done(_, ok) => ok
    case _ => true
  }

  /** A call that goes on with its socket open, has no bad news waiting, and is refused nothing. */
  ghost predicate Smooth(e: Endpoint) {
    && !e.ctl.ending.finished && e.sig.link.socket.Up? && e.sig.link.websocketOpen
    && Willing(e.peer.oracle) && (forall c <- e.sig.callbacks :: GoodNews(c))
  }

  ghost predicate SmoothRoom(r: Room) {
    Smooth(r.caller) && Smooth(r.callee)
  }

  /** More was asked of the same oracle. */
  ghost predicate AskedMore(o: Oracle, p: Oracle) {
    p.verdicts == o.verdicts && p.asked >= o.asked
  }

  lemma FinishAsks(e: Endpoint, reason: TerminalReason)
    ensures AskedMore(e.peer.oracle, Finish(e, reason).peer.oracle)
  {
    hide ByeMessage;
  }

  lemma ActAsks(e: Endpoint)
    requires HasWork(e)
    ensures AskedMore(e.peer.oracle, Act(e).peer.oracle)
  {
    hide ByeMessage;
  }

  lemma {:induction false} PumpAsks(e: Endpoint)
    requires Alive(e)
    ensures AskedMore(e.peer.oracle, Pump(e).peer.oracle)
    decreases Work(e)
  {
    hide Act, Alive;
    if HasWork(e) {
      ActAsks(e);
      ActAlive(e);
      PumpAsks(Act(e));
    }
  }

  lemma {:induction false} ApplyAllAsks(o: Oracle, r: RemoteSide, ms: seq<Message>)
    ensures AskedMore(o, ApplyAll(o, r, ms).oracle)
    decreases |ms|
  {
    if ms != [] {
      var a := ApplyCandidate(o, r, ms[0]);
      ApplyAllAsks(a.oracle, a.remote, ms[1..]);
    }
  }

  lemma CompleteAsks(p: Peer, i: nat, ok: bool, sdp: string)
    requires i < |p.operations|
    ensures AskedMore(p.oracle, CompleteOperation(p, i, ok, sdp).0.oracle)
  {
    hide ApplyAll, Without, SerializeSessionDescription;
    ApplyAllAsks(p.oracle, p.remote.(descriptionSet := true), p.remote.pending);
  }

  lemma OperationAsks(e: Endpoint, i: nat, ok: bool, sdp: string)
    requires Alive(e) && !e.thread.quit && i < |e.peer.operations|
    ensures AskedMore(e.peer.oracle, OnOperationDone(e, i, ok, sdp).peer.oracle)
  {
    hide Pump, Finish, CompleteOperation, EndingFits;
    CompleteAsks(e.peer, i, ok, sdp);
    OperationFrame(e.peer, i, ok, sdp);
    var (p, reply) := CompleteOperation(e.peer, i, ok, sdp);
    var f := e.(peer := p, ctl := SetInFlight(e.ctl, false));
    if reply.RemoteAnswerSet? {
      AliveIdle(e, p);
      PumpAsks(f);
    } else if reply.ActionFailed? {
      FinishAsks(f, PeerConnectionError);
    }
  }

  lemma DoneAsks(e: Endpoint, purpose: Purpose, ok: bool)
    requires Alive(e) && (purpose.ForRegister? && ok && !e.ctl.ending.finished ==> e.ctl.negotiation.ready)
    ensures AskedMore(e.peer.oracle, OnDone(e, purpose, ok).peer.oracle)
  {
    hide Pump, Finish;
    var f := e.(ctl := SetInFlight(e.ctl, false));
    match purpose
    case ForRegister =>
      PumpAsks(e);
      FinishAsks(e, SignalingError);
    case ForDescription =>
      PumpAsks(f);
      FinishAsks(f, SignalingError);
    case ForCandidate => FinishAsks(e, SignalingError);
    case _ =>
  }

  lemma JoinAsks(e: Endpoint, response: Option<JoinResponse>)
    ensures AskedMore(e.peer.oracle, OnJoinComplete(e, response).peer.oracle)
  {
    hide Finish, JoinQueue;
    FinishAsks(e, SignalingError);
    var f := e.(ctl := e.ctl.(joinResponse := response));
    FinishAsks(f.(peer := Initialize(f.peer).0), PeerConnectionError);
    FinishAsks(f.(peer := StartMedia(Initialize(f.peer).0).0), MediaError);
  }

  lemma CallbackAsks(e: Endpoint)
    requires Ordered(e) && !e.thread.quit && e.sig.callbacks != []
    ensures AskedMore(e.peer.oracle, RunCallback(e).peer.oracle)
  {
    hide Ordered, Pump, Finish, OnDone, OnJoinComplete;
    OrderedQueues(e);
    CallbackHead(e);
    TookRuns(e);
    var t := Took(e);
    match e.sig.callbacks[0]
    case Opened =>
    case Inbound(m) => PumpAsks(Enqueued(t, m));
    case ErrorNotice => FinishAsks(t, SignalingError);
    case JoinDone(_, response) => JoinAsks(t, response);
    case Done(task, ok) => DoneAsks(t, task.purpose, ok);
  }

  lemma StepAsks(e: Endpoint, ev: Event)
    requires Ordered(e) && Enabled(e, ev) && OwnStep(ev)
    ensures AskedMore(e.peer.oracle, Apply(e, ev).peer.oracle)
  {
    hide Ordered, RunCallback, RunNetworkTask, OnOperationDone, OnSocketMessage;
    OrderedQueues(e);
    match ev
    case Callback => CallbackAsks(e);
    case OperationDone(i, ok, sdp) => OperationAsks(e, i, ok, sdp);
    case _ =>
  }

  /** No message of these would end the call by itself. */
  predicate Harmless(ms: seq<Message>) {
    forall m <- ms :: !m.kind.Bye? && !m.kind.Unknown?
  }

  lemma {:induction false} HarmlessQueue(o: Oracle, buffering: bool, established: bool, ms: seq<Message>)
    requires Willing(o) && Harmless(ms)
    ensures QueueVerdict(o, buffering, established, ms).None?
    decreases |ms|
  {
    if ms != [] {
      assert ms[0] in ms;
      assert AllAccepted(o, 1);
      if ms[0].kind.Candidate? {
        HarmlessQueue(if buffering then o else o.(asked := o.asked + 2), buffering, established, ms[1..]);
      }
    }
  }

  /** What the other peer posts is harmless, as long as its call goes on. */
  lemma ReceivedIsHarmless(r: Room, initiator: bool, came: seq<Message>)
    requires RoomFits(r) && !Other(r, initiator).ctl.ending.finished
    requires came <= Collect(ParseSignalingMessage, Own(r, initiator).sig.heard)
    ensures Harmless(JoinPart(Own(r, initiator)) + came)
  {
    var e := Own(r, initiator);
    var other := Other(r, initiator);
    hide Ordered, Quiescent, MessagesFit, Negotiates, ProgressFits, ParseSignalingMessage, JoinPart, HandedBy,
      HandedFits, WireCounts, SentFits, TextsFit, Count, Collect;
    assert WireCounts(other.sig, Bye) && WireCounts(other.sig, Unknown);
    ReceivedWasPosted(e, other, Given(r, initiator), initiator, came, Bye);
    ReceivedWasPosted(e, other, Given(r, initiator), initiator, came, Unknown);
    PostedByes(other, !initiator);
    OrderedByes(other);
    CountNone(OfKind(Bye), JoinPart(e) + came);
    CountNone(OfKind(Unknown), JoinPart(e) + came);
    assert forall m <- JoinPart(e) + came :: !OfKind(Bye)(m) && !OfKind(Unknown)(m);
  }

  /** So is what waits in the queue, also with the message that the next callback brings. */
  lemma PendingIsHarmless(r: Room, initiator: bool)
    requires RoomFits(r) && GoingOn(r)
    ensures var e := Own(r, initiator); var pending := e.ctl.inbox.pending;
      && Harmless(pending)
      && (e.sig.callbacks != [] && e.sig.callbacks[0].Inbound? ==> Harmless(pending + [e.sig.callbacks[0].m]))
  {
    var e := Own(r, initiator);
    var inbox := e.ctl.inbox;
    hide Ordered, Quiescent, Negotiates, ProgressFits, Relayed, HandedBy, ParseSignalingMessage, JoinPart,
      CandidatesFit, OfferedFits;
    ReceivedIsHarmless(r, initiator, inbox.inbound);
    assert forall m <- inbox.pending :: m in inbox.dispatched + inbox.pending;
    if e.sig.callbacks != [] && e.sig.callbacks[0].Inbound? {
      var m := e.sig.callbacks[0].m;
      assert Collect(BroughtIn, e.sig.callbacks) == [m] + Collect(BroughtIn, e.sig.callbacks[1..]);
      ReceivedIsHarmless(r, initiator, inbox.inbound + [m]);
      assert m in JoinPart(e) + (inbox.inbound + [m]);
    }
  }

  lemma CallbackVerdictNone(r: Room, initiator: bool)
    requires RoomFits(r) && SmoothRoom(r) && Own(r, initiator).sig.callbacks != []
    ensures var e := Own(r, initiator); CallbackVerdict(e, e.sig.callbacks[0]).None?
  {
    var e := Own(r, initiator);
    hide Ordered, Quiescent, MessagesFit, Negotiates, ProgressFits, Relayed, HandedBy, QueueVerdict, Harmless;
    PendingIsHarmless(r, initiator);
    assert GoodNews(e.sig.callbacks[0]);
    var pending := e.ctl.inbox.pending;
    HarmlessQueue(e.peer.oracle, !e.peer.remote.descriptionSet, e.ctl.media.established, pending);
    match e.sig.callbacks[0]
    case Inbound(m) =>
      HarmlessQueue(e.peer.oracle, !e.peer.remote.descriptionSet, e.ctl.media.established, pending + [m]);
    case _ =>
  }

  lemma OperationVerdictNone(r: Room, initiator: bool, operation: Operation)
    requires RoomFits(r) && SmoothRoom(r)
    ensures OperationVerdict(Own(r, initiator), operation, true).None?
  {
    var e := Own(r, initiator);
    hide Ordered, Quiescent, MessagesFit, Negotiates, ProgressFits, Relayed, HandedBy, QueueVerdict, Harmless;
    PendingIsHarmless(r, initiator);
    var o := e.peer.oracle;
    var later := o.(asked := o.asked + 2 * |e.peer.remote.pending|);
    HarmlessQueue(later, false, e.ctl.media.established, e.ctl.inbox.pending);
  }

  lemma StepVerdictNone(r: Room, rev: RoomEvent)
    requires RoomFits(r) && SmoothRoom(r) && OwnStep(rev.ev) && Succeeds(rev.ev) && Possible(r, rev)
    ensures Verdict(Own(r, rev.AtCaller?), rev.ev).None?
  {
    var initiator := rev.AtCaller?;
    var e := Own(r, initiator);
    hide RoomFits, SmoothRoom, RelayAllows, CallbackVerdict, OperationVerdict;
    match rev.ev
    case Callback => CallbackVerdictNone(r, initiator);
    case OperationDone(i, _, _) => OperationVerdictNone(r, initiator, e.peer.operations[i]);
    case _ =>
  }

  lemma {:induction false} CollectMember<T, U>(pick: T -> Option<U>, xs: seq<T>, y: U)
    requires y in Collect(pick, xs)
    ensures exists x :: x in xs && pick(x) == Some(y)
  {
    if pick(xs[0]) == Some(y) {
      assert xs[0] in xs;
    } else {
      CollectMember(pick, xs[1..], y);
      var x :| x in xs[1..] && pick(x) == Some(y);
      assert x in xs;
    }
  }

  /** Everything that left a smooth peer can be read. */
  lemma PayloadsAreRead(e: Endpoint, initiator: bool, text: Text)
    requires TextsFit(e, initiator) && SentFits(e) && Smooth(e) && text in Payloads(e)
    ensures ParseSignalingMessage(text).Some?
  {
    hide ParseSignalingMessage, Willing;
    assert AllOk(e.sig.callbacks) by {
      assert forall c <- e.sig.callbacks :: GoodNews(c);
    }
    assert text in Collect(TextOf, e.sig.log);
    CollectMember(TextOf, e.sig.log, text);
    var t :| t in e.sig.log && TextOf(t) == Some(text);
    assert TextFits(t, initiator);
  }

  /** The step of the network thread brings good news. */
  lemma NetworkGood(e: Endpoint, o: NetOutcome)
    requires Ordered(e) && Smooth(e) && OutcomeFits(e.sig, o) && Succeeds(Network(o))
    ensures var t := RunNetworkTask(e.sig, o);
      t.link == e.sig.link && forall c <- t.callbacks :: GoodNews(c)
  {
    hide Ordered, QueuesFit, Willing, PostToCallbackThread;
    ConnectIsPast(e);
    CloseIsFuture(e);
    NewsOf(e.sig, o);
  }

  lemma NewsOf(s: Signaling, o: NetOutcome)
    requires OutcomeFits(s, o) && Succeeds(Network(o)) && s.link.websocketOpen
    requires !s.network[0].op.ConnectWebSocket? && !s.network[0].op.CloseSocket?
    requires forall c <- s.callbacks :: GoodNews(c)
    ensures var t := RunNetworkTask(s, o); t.link == s.link && forall c <- t.callbacks :: GoodNews(c)
  {
  }

  /** A call that goes on has not posted the close. */
  lemma CloseIsFuture(e: Endpoint)
    requires Ordered(e) && !e.ctl.ending.finished && e.sig.network != []
    ensures !e.sig.network[0].op.CloseSocket?
  {
    HeadOfNetwork(e.sig);
    NotQuit(e);
    assert e.sig.network[0] in e.sig.log;
    hide Alive, QueuesFit, LinkFits, WireFits, RegistersFit, ByeFits, Count;
  }

  lemma OtherGood(e: Endpoint, ev: Event)
    requires Ordered(e) && Smooth(e) && Enabled(e, ev) && (ev.Callback? || ev.OperationDone?)
    ensures var t := Apply(e, ev).sig; t.link == e.sig.link && forall c <- t.callbacks :: GoodNews(c)
  {
    hide Ordered, Willing, RunCallback, OnOperationDone;
    OrderedQueues(e);
    if ev.Callback? {
      CallbackKeeps(e);
      assert Took(e).sig.callbacks == e.sig.callbacks[1..] && Took(e).sig.link == e.sig.link;
    } else {
      ApplyEffect(e, ev);
      EffectKeeps(e, Apply(e, ev));
    }
  }

  lemma HeardGood(s: Signaling, text: Text)
    requires ParseSignalingMessage(text).Some? && forall c <- s.callbacks :: GoodNews(c)
    ensures var t := OnSocketMessage(s, Payload(text)); t.link == s.link && forall c <- t.callbacks :: GoodNews(c)
  {
    hide ParseSignalingMessage;
  }

  lemma HandedOverNext(other: Endpoint, given: nat, initiator: bool, ev: Event)
    requires RelayAllows(other, given, initiator, ev) && ev.SocketMessage? && ev.frame.Payload?
    ensures ev.frame.text in Payloads(other)
  {
    hide Payloads;
    var texts := Payloads(other);
    assert Brings(ev) == [ev.frame.text];
    assert texts[given..given + 1] == [ev.frame.text];
    assert texts[given] == texts[given..given + 1][0];
  }

  /** What a hand-over hands over is something that the other peer sent. */
  lemma HandedIsRead(r: Room, rev: RoomEvent)
    requires RoomFits(r) && SmoothRoom(r) && Possible(r, rev) && rev.ev.SocketMessage? && rev.ev.frame.Payload?
    ensures ParseSignalingMessage(rev.ev.frame.text).Some?
  {
    var initiator := rev.AtCaller?;
    var other := Other(r, initiator);
    var given := Given(r, initiator);
    hide Ordered, Quiescent, MessagesFit, Negotiates, ProgressFits, HandedBy, HandedFits, AllCounted, TextsFit,
      SentFits, ParseSignalingMessage, Smooth, Payloads;
    HandedOverNext(other, given, initiator, rev.ev);
    PayloadsAreRead(other, !initiator, rev.ev.frame.text);
  }

  lemma StepGood(r: Room, rev: RoomEvent)
    requires RoomFits(r) && SmoothRoom(r) && OwnStep(rev.ev) && Succeeds(rev.ev) && Possible(r, rev)
    ensures var e := Own(r, rev.AtCaller?); var t := Apply(e, rev.ev).sig;
      t.link == e.sig.link && forall c <- t.callbacks :: GoodNews(c)
  {
    var e := Own(r, rev.AtCaller?);
    hide Ordered, Quiescent, MessagesFit, Negotiates, ProgressFits, Relayed, HandedBy, RelayAllows, Willing, GoodNews,
      RunCallback, RunNetworkTask, OnOperationDone, OnSocketMessage;
    match rev.ev
    case Network(o) => NetworkGood(e, o);
    case SocketMessage(f) =>
      HandedIsRead(r, rev);
      HeardGood(e.sig, f.text);
    case _ => OtherGood(e, rev.ev);
  }

  lemma WillingStill(o: Oracle, p: Oracle)
    requires Willing(o) && AskedMore(o, p)
    ensures Willing(p)
  {
  }

  /** Nothing fails: a successful own step leaves a smooth room smooth. */
  lemma SmoothStep(c: AppConfig, r: Room, rev: RoomEvent)
    requires RoomFits(r) && SmoothRoom(r) && OwnStep(rev.ev) && Succeeds(rev.ev) && Possible(r, rev)
    requires ClockFits(c, Own(r, rev.AtCaller?))
    ensures SmoothRoom(RoomStep(r, rev))
  {
    var e := Own(r, rev.AtCaller?);
    hide Ordered, Quiescent, MessagesFit, Negotiates, ProgressFits, Relayed, HandedBy, Apply, Enabled, RelayAllows,
      ClockFits, Verdict, Willing, GoodNews, OwnStep, Succeeds;
    StepVerdictNone(r, rev);
    EventEnds(c, e, rev.ev);
    StepGood(r, rev);
    StepAsks(e, rev.ev);
    WillingStill(e.peer.oracle, Apply(e, rev.ev).peer.oracle);
  }

  /** The clock of a peer in a room is that of a run of its own. */
  lemma RoomClock(c1: AppConfig, v1: nat -> bool, c2: AppConfig, v2: nat -> bool, events: seq<RoomEvent>)
    ensures var r := RoomRun(NewRoom(c1, v1, c2, v2), events); ClockFits(c1, r.caller) && ClockFits(c2, r.callee)
  {
    hide RoomRun, EventsAt, Started, Run, ClockFits;
    var first := NewRoom(c1, v1, c2, v2);
    RoomProjects(first, events, true);
    RoomProjects(first, events, false);
    RunClock(c1, v1, EventsAt(first, events, true));
    RunClock(c2, v2, EventsAt(first, events, false));
  }

  lemma SmoothGoesOn(r: Room)
    requires SmoothRoom(r)
    ensures GoingOn(r) && SocketsUp(r)
  {
  }

  /** Whatever the order in which the threads and the relay make their steps, as long as the steps succeed no call
      ends, and each leaves less to do. */
  lemma {:induction false} SmoothRun(c1: AppConfig, v1: nat -> bool, c2: AppConfig, v2: nat -> bool,
                                     events: seq<RoomEvent>, after: seq<RoomEvent>)
    requires SmoothRoom(RoomRun(NewRoom(c1, v1, c2, v2), events))
    requires GoodSteps(NewRoom(c1, v1, c2, v2), events, after)
    ensures SmoothRoom(RoomRun(NewRoom(c1, v1, c2, v2), events + after))
    ensures |after| + Measure(RoomRun(NewRoom(c1, v1, c2, v2), events + after))
         <= Measure(RoomRun(NewRoom(c1, v1, c2, v2), events))
    decreases |after|
  {
    hide NewRoom, RoomRun, RoomStep, RoomFits, OwnStep, Succeeds, Possible, Measure, SmoothRoom, ClockFits;
    var first := NewRoom(c1, v1, c2, v2);
    if after == [] {
      assert events + after == events;
    } else {
      var n := |after| - 1;
      var some := after[..n];
      assert events + after == (events + some) + [after[n]];
      forall i | 0 <= i < n
        ensures OwnStep(some[i].ev) && Succeeds(some[i].ev) && Possible(RoomRun(first, events + some[..i]), some[i])
      {
        assert some[..i] == after[..i] && some[i] == after[i];
      }
      SmoothRun(c1, v1, c2, v2, events, some);
      var r := RoomRun(first, events + some);
      RoomRunMore(first, events + some, after[n]);
      RoomRunFits(c1, v1, c2, v2, events + some);
      RoomClock(c1, v1, c2, v2, events + some);
      SmoothStep(if after[n].AtCaller? then c1 else c2, r, after[n]);
      SmoothGoesOn(r);
      SmoothGoesOn(RoomStep(r, after[n]));
      OwnStepsCount(r, after[n]);
    }
  }

  /** Completion in every order: a sequence of successful own steps after which none is possible any more has
      completed the negotiation. */
  lemma EveryOrderCompletes(c1: AppConfig, v1: nat -> bool, c2: AppConfig, v2: nat -> bool,
                            events: seq<RoomEvent>, after: seq<RoomEvent>)
    requires SmoothRoom(RoomRun(NewRoom(c1, v1, c2, v2), events))
    requires GoodSteps(NewRoom(c1, v1, c2, v2), events, after)
    requires forall rev: RoomEvent ::
      !(OwnStep(rev.ev) && Succeeds(rev.ev) && Possible(RoomRun(NewRoom(c1, v1, c2, v2), events + after), rev))
    ensures var s := RoomRun(NewRoom(c1, v1, c2, v2), events + after);
      QuietRoom(s) && Negotiated(s.caller, s.callee, true) && Negotiated(s.callee, s.caller, false)
  {
    hide NewRoom, RoomRun, RoomFits, OwnStep, Succeeds, Possible, Measure, SmoothRoom, QuietRoom, Negotiated, NextStep,
      GoodSteps;
    var s := RoomRun(NewRoom(c1, v1, c2, v2), events + after);
    SmoothRun(c1, v1, c2, v2, events, after);
    RoomRunFits(c1, v1, c2, v2, events + after);
    SmoothGoesOn(s);
    if NextStep(s, true).Some? {
      NextStepIsPossible(s, true);
    } else if NextStep(s, false).Some? {
      NextStepIsPossible(s, false);
    } else {
      NoStepIsQuiet(s);
      QuietRoomIsNegotiated(c1, v1, c2, v2, events + after);
    }
  }

  /** Completion: from every room run in which both calls go on with their sockets open, libwebrtc refuses nothing
      from then on and no bad news waits, some successful own steps, at most as many as were left to do, complete
      the negotiation. */
  lemma {:induction false} RoomCompletes(c1: AppConfig, v1: nat -> bool, c2: AppConfig, v2: nat -> bool,
                                         events: seq<RoomEvent>)
    requires SmoothRoom(RoomRun(NewRoom(c1, v1, c2, v2), events))
    ensures exists after :: CompletedBy(NewRoom(c1, v1, c2, v2), events, after)
  {
    hide NewRoom, RoomRun, QuietRoom, GoingOn, SocketsUp, Measure, GoodSteps, SmoothRoom, Negotiated;
    var first := NewRoom(c1, v1, c2, v2);
    SmoothGoesOn(RoomRun(first, events));
    RoomSettles(c1, v1, c2, v2, events);
    var after :| SettledBy(first, events, after);
    SmoothRun(c1, v1, c2, v2, events, after);
    SmoothGoesOn(RoomRun(first, events + after));
    QuietRoomIsNegotiated(c1, v1, c2, v2, events + after);
    assert CompletedBy(first, events, after);
  }

  /** The events `after` are successful own steps that complete the negotiation. */
  predicate CompletedBy(first: Room, events: seq<RoomEvent>, after: seq<RoomEvent>) {
    var s := RoomRun(first, events + after);
    && |after| <= Measure(RoomRun(first, events)) && GoodSteps(first, events, after)
    && QuietRoom(s) && Negotiated(s.caller, s.callee, true) && Negotiated(s.callee, s.caller, false)
  }
}
