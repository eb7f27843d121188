/** The negotiation and the candidates of the two peers, over every interleaving. */
module RoomGuarantees {
  import opened Sequences
  import opened Common
  import opened PeerConnectionSpec
  import opened ControllerSpec
  import opened JoinOrder
  import opened Lifecycle
  import opened Queues
  import opened Effects
  import opened WireOrder
  import opened Flight
  import opened Messages
  import opened NegotiationScript
  import opened Progress
  import opened RelayTexts
  import opened TwoPeers
  import opened EndpointRuns
  import opened SignalingSpec
  import opened Shutdown
  import opened Outbox

  /** The states of an offer/answer exchange without provisional answers (RFC 8829, section 3.2). */
  datatype SignalingState = Stable | HaveLocalOffer | HaveRemoteOffer

  /** The state after a call, if the call is allowed there. */
  function AfterCall(s: SignalingState, call: ApiCall): Option<SignalingState> {
    match call
    case CreateCall(SdpOffer) => if s.HaveRemoteOffer? then None else Some(s)
    case CreateCall(SdpAnswer) => if s.HaveRemoteOffer? then Some(s) else None
    case SetLocalCall(SdpOffer) => if s.HaveRemoteOffer? then None else Some(HaveLocalOffer)
    case SetLocalCall(SdpAnswer) => if s.HaveRemoteOffer? then Some(Stable) else None
    case SetRemoteCall(SdpOffer) => if s.HaveLocalOffer? then None else Some(HaveRemoteOffer)
    case SetRemoteCall(SdpAnswer) => if s.HaveLocalOffer? then Some(Stable) else None
  }

  /** The state after all the calls, if each of them was allowed. */
  function AfterCalls(calls: seq<ApiCall>): Option<SignalingState> {
    if calls == [] then Some(Stable)
    else
      var before := AfterCalls(calls[..|calls| - 1]);
      if before.None? then None else AfterCall(before.value, Last(calls))
  }

  lemma ScriptIsLegal(calls: seq<ApiCall>, initiator: bool)
    requires calls <= Script(initiator)
    ensures AfterCalls(calls).Some?
    ensures |calls| == 3 ==> AfterCalls(calls) == Some(Stable)
  {
    var script := Script(initiator);
    assert AfterCalls(script[..0]) == Some(Stable);
    assert script[..1][..0] == script[..0] && AfterCalls(script[..1]).Some?;
    assert script[..2][..1] == script[..1] && AfterCalls(script[..2]).Some?;
    assert script[..3][..2] == script[..2] && AfterCalls(script[..3]) == Some(Stable);
    assert script == script[..3];
    assert calls == script[..|calls|];
  }

  /** Legal order, in every interleaving of the two peers: each peer's calls are a beginning of its role's
      script, hence allowed one after the other; the caller makes at most one offer, the callee none. */
  lemma LegalNegotiation(c1: AppConfig, v1: nat -> bool, c2: AppConfig, v2: nat -> bool, events: seq<RoomEvent>)
    ensures var r := RoomRun(NewRoom(c1, v1, c2, v2), events);
      && AfterCalls(r.caller.peer.calls).Some? && AfterCalls(r.callee.peer.calls).Some?
      && r.caller.peer.calls <= [CreateCall(SdpOffer), SetLocalCall(SdpOffer), SetRemoteCall(SdpAnswer)]
      && r.callee.peer.calls <= [SetRemoteCall(SdpOffer), CreateCall(SdpAnswer), SetLocalCall(SdpAnswer)]
  {
    hide RoomStep, NewRoom, RoomFits, AfterCalls;
    RoomRunFits(c1, v1, c2, v2, events);
    var r := RoomRun(NewRoom(c1, v1, c2, v2), events);
    PeerIsLegal(r, true);
    PeerIsLegal(r, false);
  }

  /** The caller is never offered anything and answered at most once; the callee is never answered, offered at
      most once, and calls its connection only for an offer it was handed. */
  lemma DescriptionsByRole(c1: AppConfig, v1: nat -> bool, c2: AppConfig, v2: nat -> bool, events: seq<RoomEvent>)
    ensures var r := RoomRun(NewRoom(c1, v1, c2, v2), events);
      && Count(OfKind(Offer), Received(r.caller)) == 0 && Count(OfKind(Answer), Received(r.caller)) <= 1
      && Count(OfKind(Answer), Received(r.callee)) == 0 && Count(OfKind(Offer), Received(r.callee)) <= 1
      && (r.callee.peer.calls != [] ==> Count(OfKind(Offer), r.callee.ctl.inbox.dispatched) == 1)
  {
    hide RoomStep, NewRoom, RoomFits, Received, Expected, Count;
    RoomRunFits(c1, v1, c2, v2, events);
    var r := RoomRun(NewRoom(c1, v1, c2, v2), events);
    InboxAsExpected(r, true);
    InboxAsExpected(r, false);
    RoomExpects(r);
  }

  lemma PeerIsLegal(r: Room, initiator: bool)
    requires RoomFits(r)
    ensures Own(r, initiator).peer.calls <= Script(initiator) && AfterCalls(Own(r, initiator).peer.calls).Some?
  {
    hide AfterCalls, Ordered, Quiescent, MessagesFit, ProgressFits, Relayed, HandedBy, Carries;
    ScriptIsLegal(Own(r, initiator).peer.calls, initiator);
  }

  lemma RoomExpects(r: Room)
    requires RoomFits(r)
    requires Expected(Received(r.caller), r.caller.sig.log, true)
    requires Expected(Received(r.callee), r.callee.sig.log, false)
    ensures Count(OfKind(Offer), Received(r.caller)) == 0 && Count(OfKind(Answer), Received(r.caller)) <= 1
    ensures Count(OfKind(Answer), Received(r.callee)) == 0 && Count(OfKind(Offer), Received(r.callee)) <= 1
    ensures r.callee.peer.calls != [] ==> Count(OfKind(Offer), r.callee.ctl.inbox.dispatched) == 1
  {
    CountPrefix(OfKind(Offer), r.callee.ctl.inbox.dispatched, Received(r.callee));
    hide Ordered, Quiescent, MessagesFit, ProgressFits, Relayed, HandedBy, Follows, Count;
  }

  lemma ActCalls(e: Endpoint)
    requires HasWork(e)
    ensures var f := Act(e);
      |f.peer.calls| > |e.peer.calls| ==> f.peer.operations != [] && !HasWork(f)
    ensures |Act(e).peer.calls| >= |e.peer.calls|
  {
    hide AddCandidate, ByeMessage;
  }

  /** A pump that makes a call leaves its operation outstanding. */
  lemma {:induction false} PumpCalls(e: Endpoint)
    requires Alive(e)
    ensures |Pump(e).peer.calls| >= |e.peer.calls|
    ensures |Pump(e).peer.calls| > |e.peer.calls| ==> Pump(e).peer.operations != []
    decreases Work(e)
  {
    hide Act, Alive;
    if HasWork(e) {
      ActCalls(e);
      ActAlive(e);
      PumpCalls(Act(e));
    }
  }

  /** So does every event. */
  predicate LeavesOutstanding(e: Endpoint, f: Endpoint) {
    |f.peer.calls| > |e.peer.calls| ==> f.peer.operations != []
  }

  lemma DoneCalls(e: Endpoint, purpose: Purpose, ok: bool)
    requires Alive(e) && (purpose.ForRegister? && ok && !e.ctl.ending.finished ==> e.ctl.negotiation.ready)
    ensures LeavesOutstanding(e, OnDone(e, purpose, ok))
  {
    hide Pump;
    var f := e.(ctl := SetInFlight(e.ctl, false));
    if purpose.ForRegister? {
      PumpCalls(e);
    } else if purpose.ForDescription? {
      PumpCalls(f);
    }
  }

  /** These make no call at all. */
  lemma QuietCalls(e: Endpoint, response: Option<JoinResponse>, st: ConnectionState, reason: TerminalReason)
    ensures Finish(e, reason).peer.calls == e.peer.calls && OnJoinComplete(e, response).peer.calls == e.peer.calls
    ensures OnConnectionChange(e, st).peer.calls == e.peer.calls && OnFrame(e).peer.calls == e.peer.calls
  {
    hide JoinQueue, ByeMessage;
  }

  lemma CallbackCalls(e: Endpoint)
    requires Ordered(e) && !e.thread.quit && e.sig.callbacks != []
    ensures LeavesOutstanding(e, RunCallback(e))
  {
    hide Ordered, Pump, OnDone, OnJoinComplete, Finish;
    OrderedQueues(e);
    CallbackHead(e);
    TookRuns(e);
    var t := Took(e);
    match e.sig.callbacks[0]
    case Inbound(m) => PumpCalls(Enqueued(t, m));
    case Done(task, ok) => DoneCalls(t, task.purpose, ok);
    case JoinDone(_, response) => QuietCalls(t, response, NewState, SignalingError);
    case ErrorNotice => QuietCalls(t, None, NewState, SignalingError);
    case Opened =>
  }

  lemma OperationDoneCalls(e: Endpoint, i: nat, ok: bool, sdp: string)
    requires Alive(e) && !e.thread.quit && i < |e.peer.operations|
    ensures LeavesOutstanding(e, OnOperationDone(e, i, ok, sdp))
  {
    hide Pump, CompleteOperation, EndingFits;
    OperationFrame(e.peer, i, ok, sdp);
    var (p, reply) := CompleteOperation(e.peer, i, ok, sdp);
    if reply.RemoteAnswerSet? {
      AliveIdle(e, p);
      PumpCalls(e.(peer := p, ctl := SetInFlight(e.ctl, false)));
    }
  }

  lemma ApplyCalls(e: Endpoint, ev: Event)
    requires Ordered(e) && Enabled(e, ev)
    ensures LeavesOutstanding(e, Apply(e, ev))
  {
    hide Ordered, RunCallback, RunNetworkTask, OnOperationDone, OnSocketMessage, OnConnectionChange, OnFrame, Finish,
      SerializeIceCandidate;
    OrderedQueues(e);
    match ev
    case Callback => CallbackCalls(e);
    case OperationDone(i, ok, sdp) => OperationDoneCalls(e, i, ok, sdp);
    case ConnectionChange(st) => QuietCalls(e, None, st, SignalingError);
    case VideoFrame => QuietCalls(e, None, NewState, SignalingError);
    case TimerFires(i) =>
      var f := e.(thread := e.thread.(timers := Without(e.thread.timers, i)));
      QuietCalls(f, None, NewState, StartupTimeout);
      QuietCalls(f, None, NewState, LocalDurationReached);
    case _ =>
  }

  lemma DeliveredGrows(e: Endpoint, ev: Event)
    requires Ordered(e) && Enabled(e, ev)
    ensures Count(IsDescription, e.sig.delivered) <= Count(IsDescription, Apply(e, ev).sig.delivered)
  {
    hide Ordered, Apply, TakeCallback, Count;
    if ev.Callback? {
      CallbackDelivers(e);
      TakeAnswers(e.sig);
      RunsCallback(e);
    } else {
      OthersDeliver(e, ev);
    }
    CountPrefix(IsDescription, e.sig.delivered, Apply(e, ev).sig.delivered);
  }

  lemma RunsCallback(e: Endpoint)
    requires Enabled(e, Callback)
    ensures Apply(e, Callback) == RunCallback(e)
  {
  }

  lemma TakeAnswers(s: Signaling)
    requires s.callbacks != []
    ensures s.delivered <= TakeCallback(s).delivered
  {
  }

  /** With its third call outstanding the caller's offer has been answered for. */
  lemma OfferAnswered(e: Endpoint)
    requires Ordered(e) && Quiescent(e) && e.peer.operations != [] && Count(IsDescription, e.sig.log) == 1
    ensures Count(IsDescription, e.sig.delivered) >= 1
  {
    hide QueuesFit, LogFits, LinkFits, WireFits, RegistersFit, ByeFits, EndingFits, Count, HasWork;
  }

  lemma OfferAnsweredStep(r: Room, rev: RoomEvent)
    requires RoomFits(r) && (|r.caller.peer.calls| == 3 ==> Count(IsDescription, r.caller.sig.delivered) >= 1)
    ensures var s := RoomStep(r, rev);
      |s.caller.peer.calls| == 3 ==> Count(IsDescription, s.caller.sig.delivered) >= 1
  {
    hide Apply, Enabled, RelayAllows, Ordered, Quiescent, MessagesFit, ProgressFits, Relayed, HandedBy, Follows, Count,
      LeavesOutstanding;
    RoomStepFits(r, rev);
    var e := r.caller;
    var f := RoomStep(r, rev).caller;
    if rev.AtCaller? && Enabled(e, rev.ev) && RelayAllows(r.callee, r.toCaller, true, rev.ev) {
      DeliveredGrows(e, rev.ev);
      ApplyCalls(e, rev.ev);
      CallerLength(e);
      if |f.peer.calls| == 3 && |e.peer.calls| < 3 {
        AnswerWasPosted(RoomStep(r, rev));
        MoreCalls(e, f);
        OfferAnswered(f);
      }
    }
  }

  lemma CallerLength(e: Endpoint)
    requires Negotiates(e, true)
    ensures |e.peer.calls| <= 3
  {
    hide Count, Carries;
  }

  lemma MoreCalls(e: Endpoint, f: Endpoint)
    requires LeavesOutstanding(e, f) && |f.peer.calls| > |e.peer.calls|
    ensures f.peer.operations != []
  {
  }

  lemma {:induction false} RoomOfferAnswered(c1: AppConfig, v1: nat -> bool, c2: AppConfig, v2: nat -> bool,
                                             events: seq<RoomEvent>)
    ensures var r := RoomRun(NewRoom(c1, v1, c2, v2), events);
      |r.caller.peer.calls| == 3 ==> Count(IsDescription, r.caller.sig.delivered) >= 1
  {
    hide RoomStep, RoomFits, Count;
    if events != [] {
      RoomOfferAnswered(c1, v1, c2, v2, events[..|events| - 1]);
      RoomRunFits(c1, v1, c2, v2, events[..|events| - 1]);
      OfferAnsweredStep(RoomRun(NewRoom(c1, v1, c2, v2), events[..|events| - 1]), Last(events));
    }
  }

  lemma DeliveredBound(e: Endpoint)
    requires Ordered(e)
    ensures Count(IsDescription, e.sig.delivered) <= Count(IsDescription, e.sig.log)
  {
    OrderedQueues(e);
    DescriptionsOutByHistory(e.sig);
    hide Ordered, QueuesFit, Count;
  }

  /** No answer is applied before the offer was set, posted and its sending answered here, and the answer set and
      posted there. */
  lemma AnswerAfterOffer(c1: AppConfig, v1: nat -> bool, c2: AppConfig, v2: nat -> bool, events: seq<RoomEvent>)
    ensures var r := RoomRun(NewRoom(c1, v1, c2, v2), events);
      SetRemoteCall(SdpAnswer) in r.caller.peer.calls ==>
        && SetLocalCall(SdpOffer) in r.caller.peer.calls
        && Count(IsDescription, r.caller.sig.log) == 1 == Count(IsDescription, r.caller.sig.delivered)
        && AfterCalls(r.caller.peer.calls) == Some(Stable)
        && SetLocalCall(SdpAnswer) in r.callee.peer.calls && Count(IsDescription, r.callee.sig.log) == 1
        && AfterCalls(r.callee.peer.calls) == Some(Stable)
  {
    hide RoomStep, NewRoom, RoomFits, AfterCalls, Count;
    RoomRunFits(c1, v1, c2, v2, events);
    RoomOfferAnswered(c1, v1, c2, v2, events);
    var r := RoomRun(NewRoom(c1, v1, c2, v2), events);
    PeerIsLegal(r, true);
    PeerIsLegal(r, false);
    if SetRemoteCall(SdpAnswer) in r.caller.peer.calls {
      AnswerWasPosted(r);
      CallerBound(r);
      ScriptIsLegal(r.caller.peer.calls, true);
      ScriptIsLegal(r.callee.peer.calls, false);
      assert r.caller.peer.calls[1] == SetLocalCall(SdpOffer);
      assert r.callee.peer.calls[2] == SetLocalCall(SdpAnswer);
    }
  }

  lemma CallerBound(r: Room)
    requires RoomFits(r)
    ensures Count(IsDescription, r.caller.sig.delivered) <= Count(IsDescription, r.caller.sig.log)
  {
    hide Ordered, Quiescent, MessagesFit, Negotiates, ProgressFits, Relayed, HandedBy, Count;
    DeliveredBound(r.caller);
  }

  lemma AnswerWasPosted(r: Room)
    requires RoomFits(r) && |r.caller.peer.calls| == 3
    ensures Count(IsDescription, r.caller.sig.log) == 1 && Count(IsDescription, r.callee.sig.log) == 1
    ensures |r.callee.peer.calls| == 3
  {
    var e := r.caller;
    hide Ordered, Quiescent, ProgressFits, ParseSignalingMessage, JoinPart, Count, HandedBy, HandedFits, WireCounts,
      SentFits, TextsFit, CandidatesFit, OfferedFits, Collect, Carries;
    PostedKinds(r.callee, false);
    ReceivedAsExpected(r, true, e.ctl.inbox.inbound);
    ReceivedWasPosted(e, r.callee, r.toCaller, true, e.ctl.inbox.inbound, Answer);
    CountPrefix(OfKind(Answer), e.ctl.inbox.dispatched, e.ctl.inbox.dispatched + e.ctl.inbox.pending);
  }

  /** The candidates that a peer got as far as the relay, in the order they left. */
  function SentCandidates(e: Endpoint): seq<Message> {
    Filter(IsCandidate, Collect(ParseSignalingMessage, Payloads(e)))
  }

  /** The messages that a peer posted for the other, in the order it posted them. */
  function Posted(e: Endpoint): seq<Text> {
    Collect(TextOf, e.sig.log)
  }

  /** The candidates among them, in the order they were gathered. */
  function GatheredCandidates(e: Endpoint): seq<Message> {
    Filter(IsCandidate, Collect(ParseSignalingMessage, Posted(e)))
  }

  /** Every candidate handed to a peer has reached its connection. */
  predicate CaughtUp(r: Room, initiator: bool) {
    var e := Own(r, initiator);
    && !e.ctl.ending.finished && e.peer.remote.descriptionSet
    && e.ctl.inbox.pending == [] && Collect(BroughtIn, e.sig.callbacks) == []
    && Given(r, initiator) == |Payloads(Other(r, initiator))|
  }

  /** Every message a peer posted has left it, and no send is known to have failed. */
  predicate AllSent(e: Endpoint) {
    !e.ctl.ending.finished && AllOk(e.sig.callbacks) && e.sig.network == []
  }

  /** Parsing, sorting and queueing keep messages of one priority in the order they were handed over. */
  lemma ReceivedInOrder(e: Endpoint, initiator: bool, keep: Message -> bool, p: nat)
    requires Ordered(e) && MessagesFit(e) && HandedFits(e, initiator)
    requires p <= 3 && forall m :: keep(m) ==> QueuedMessagePriority(m.kind) == p
    ensures var handed := Filter(keep, Collect(ParseSignalingMessage, e.sig.stored + e.sig.heard));
      && Filter(keep, Received(e)) <= handed
      && (Joined(e) && !e.ctl.ending.finished && Collect(BroughtIn, e.sig.callbacks) == [] ==>
            Filter(keep, Received(e)) == handed)
  {
    hide ParseSignalingMessage, Ordered, CandidatesFit, OfferedFits, StableOrder, Filter;
    var stored := Collect(ParseSignalingMessage, e.sig.stored);
    var heard := Collect(ParseSignalingMessage, e.sig.heard);
    CollectAppend(ParseSignalingMessage, e.sig.stored, e.sig.heard);
    FilterAppend(keep, stored, heard);
    FilterAppend(keep, JoinPart(e), e.ctl.inbox.inbound);
    FilterPrefix(keep, e.ctl.inbox.inbound, heard);
    if JoinQueued(e) {
      OrderKeeps(keep, p, stored);
      if !e.ctl.ending.finished && Collect(BroughtIn, e.sig.callbacks) == [] {
        assert e.ctl.inbox.inbound == heard;
      }
    } else {
      NothingHeard(e);
      assert heard == [] && e.ctl.inbox.inbound == [];
      assert Filter(keep, JoinPart(e) + e.ctl.inbox.inbound) == [] by {
        assert JoinPart(e) + e.ctl.inbox.inbound == [];
        CountNone(keep, []);
      }
    }
  }

  /** The socket is started when the join messages are queued, so nothing is heard before that. */
  lemma NothingHeard(e: Endpoint)
    requires Ordered(e) && MessagesFit(e) && !JoinQueued(e)
    ensures e.sig.heard == []
  {
    hide Alive, QueuesFit, WireFits, RegistersFit, ByeFits, CandidatesFit, OfferedFits, Count;
  }

  /** The order of what one peer applied, from its own invariant. */
  lemma AppliedCandidates(e: Endpoint)
    requires Ordered(e) && MessagesFit(e)
    ensures e.peer.remote.applied <= Filter(IsCandidate, Received(e))
    ensures !e.ctl.ending.finished && e.peer.remote.descriptionSet && e.ctl.inbox.pending == [] ==>
      Joined(e) && e.peer.remote.applied == Filter(IsCandidate, Received(e))
  {
    hide QueuesFit, LogFits, LinkFits, WireFits, RegistersFit, ByeFits, InboxFits, HeardFits, EndingFits, Filter;
    FilterPrefix(IsCandidate, e.ctl.inbox.dispatched, Received(e));
    if e.ctl.inbox.pending == [] {
      assert Received(e) == e.ctl.inbox.dispatched;
    }
  }

  lemma AppliedWereSent(r: Room, initiator: bool)
    requires RoomFits(r)
    ensures var e := Own(r, initiator); var other := Other(r, initiator);
      && e.peer.remote.applied <= SentCandidates(other)
      && (CaughtUp(r, initiator) ==> e.peer.remote.applied == SentCandidates(other))
  {
    var e := Own(r, initiator);
    var other := Other(r, initiator);
    var given := Given(r, initiator);
    hide Ordered, Quiescent, MessagesFit, Negotiates, ProgressFits, HandedFits, TextsFit, WireCounts, SentFits,
      ParseSignalingMessage, Payloads, Received, Filter, Collect;
    ReceivedInOrder(e, initiator, IsCandidate, 1);
    AppliedCandidates(e);
    CollectPrefix(ParseSignalingMessage, Payloads(other)[..given], Payloads(other));
    FilterPrefix(IsCandidate, Collect(ParseSignalingMessage, Payloads(other)[..given]),
                 Collect(ParseSignalingMessage, Payloads(other)));
    if given == |Payloads(other)| {
      assert Payloads(other)[..given] == Payloads(other);
    }
  }

  lemma PostedWereSent(e: Endpoint)
    requires SentFits(e) && AllSent(e)
    ensures Payloads(e) == Posted(e) && SentCandidates(e) == GatheredCandidates(e)
  {
    hide ParseSignalingMessage, Filter, TextOf, PayloadOf;
    assert Collect(TextOf, e.sig.network) == [];
  }

  /** The payloads of the frames that requests are meant to send are the texts of the messages among them. */
  lemma {:induction false} FramesRead(log: seq<NetTask>)
    requires forall t <- log :: PurposeFits(t.op, t.purpose)
    ensures Collect(PayloadOf, Collect(FrameMade, log)) == Collect(TextOf, log)
  {
    if log != [] {
      FramesRead(log[1..]);
      var t := log[0];
      assert t in log;
      CollectAppend(PayloadOf, if FrameMade(t).Some? then [FrameMade(t).value] else [], Collect(FrameMade, log[1..]));
    }
  }

  /** What got to the relay was posted. */
  lemma PayloadsWithin(e: Endpoint)
    requires QueuesFit(e.sig) && FramesFit(e.sig)
    ensures Within(Payloads(e), Posted(e))
  {
    hide Within, Filter, Collect;
    var run := e.sig.log[..|e.sig.log| - |e.sig.network|];
    FramesRead(run);
    CollectWithin(PayloadOf, e.sig.wire, Collect(FrameMade, run));
    CollectPrefix(TextOf, run, e.sig.log);
    PrefixWithin(Payloads(e), Collect(TextOf, run), Payloads(e), Posted(e));
  }

  lemma ReadWithin(keep: Message -> bool, sent: seq<Text>, posted: seq<Text>)
    requires Within(sent, posted)
    ensures Within(Filter(keep, Collect(ParseSignalingMessage, sent)),
                   Filter(keep, Collect(ParseSignalingMessage, posted)))
  {
    hide Within, Filter, Collect, ParseSignalingMessage;
    CollectWithin(ParseSignalingMessage, sent, posted);
    CollectWithin(OnlyIf(keep), Collect(ParseSignalingMessage, sent), Collect(ParseSignalingMessage, posted));
    FilterCollects(keep, Collect(ParseSignalingMessage, sent));
    FilterCollects(keep, Collect(ParseSignalingMessage, posted));
  }

  lemma ReadOne(text: Text)
    requires ParseSignalingMessage(text).Some?
    ensures Collect(ParseSignalingMessage, [text]) == [ParseSignalingMessage(text).value]
  {
    hide ParseSignalingMessage;
    assert Collect(ParseSignalingMessage, [text][1..]) == [];
  }

  /** The candidates among the messages a peer posted are the texts it posted as candidates. */
  lemma GatheredByText(e: Endpoint, initiator: bool)
    requires TextsFit(e, initiator)
    ensures GatheredCandidates(e) == PostedCandidates(e)
  {
    hide ParseSignalingMessage, TextFits, Collect, Filter;
    CandidatesByText(e.sig.log, initiator);
  }

  lemma {:induction false} CandidatesByText(log: seq<NetTask>, initiator: bool)
    requires forall t <- log :: TextFits(t, initiator)
    ensures Filter(IsCandidate, Collect(ParseSignalingMessage, Collect(TextOf, log)))
         == Collect(ParseSignalingMessage, Collect(CandidateText, log))
  {
    if log != [] {
      CandidatesByText(log[1..], initiator);
      var t := log[0];
      assert t in log && TextFits(t, initiator);
      var first := if TextOf(t).Some? then [t.text] else [];
      var mine := if CandidateText(t).Some? then [t.text] else [];
      var rest := Collect(TextOf, log[1..]);
      CollectAppend(ParseSignalingMessage, first, rest);
      FilterAppend(IsCandidate, Collect(ParseSignalingMessage, first), Collect(ParseSignalingMessage, rest));
      CollectAppend(ParseSignalingMessage, mine, Collect(CandidateText, log[1..]));
      OneCandidate(t, initiator);
      hide ParseSignalingMessage, Carries;
    }
  }

  lemma OneCandidate(t: NetTask, initiator: bool)
    requires TextFits(t, initiator)
    ensures Filter(IsCandidate, Collect(ParseSignalingMessage, if TextOf(t).Some? then [t.text] else []))
         == Collect(ParseSignalingMessage, if CandidateText(t).Some? then [t.text] else [])
  {
    hide ParseSignalingMessage;
    if TextOf(t).Some? {
      ReadOne(t.text);
      var read := Collect(ParseSignalingMessage, [t.text]);
      assert Filter(IsCandidate, read) == if IsCandidate(read[0]) then read else [];
    }
  }

  /** End-to-end delivery, in both directions and in every interleaving of gathering, posting, joining, sorting
      and buffering: what one peer has applied is a prefix of what the other sent, in order, without loss or
      repetition, and all of it once the receiver has caught up; what was sent is what the other's connection
      gathered, in that order, with some possibly missing, and nothing is missing if the sender's queue has drained
      without a failure. */
  lemma CandidatesEndToEnd(c1: AppConfig, v1: nat -> bool, c2: AppConfig, v2: nat -> bool,
                           events: seq<RoomEvent>, initiator: bool)
    ensures var first := NewRoom(c1, v1, c2, v2);
      var r := RoomRun(first, events);
      var applied := Own(r, initiator).peer.remote.applied;
      var other := Other(r, initiator);
      var gathered := Gathered(Other(first, initiator), EventsAt(first, events, !initiator));
      && applied <= SentCandidates(other)
      && (CaughtUp(r, initiator) ==> applied == SentCandidates(other))
      && Within(applied, gathered)
      && (AllSent(other) ==> applied <= gathered)
      && (AllSent(other) && CaughtUp(r, initiator) ==> applied == gathered)
  {
    hide RoomStep, RoomFits, Started, EventsAt, Gathered, FramesFit, PostedCandidates, Run, SentCandidates, CaughtUp,
      AllSent, Within;
    var first := NewRoom(c1, v1, c2, v2);
    var r := RoomRun(first, events);
    RoomRunFits(c1, v1, c2, v2, events);
    RoomProjects(first, events, !initiator);
    if initiator {
      GatheredArePosted(c2, v2, EventsAt(first, events, false));
      RunFramesFit(c2, v2, EventsAt(first, events, false));
    } else {
      GatheredArePosted(c1, v1, EventsAt(first, events, true));
      RunFramesFit(c1, v1, EventsAt(first, events, true));
    }
    AppliedWereGathered(r, initiator);
  }

  lemma AppliedWereGathered(r: Room, initiator: bool)
    requires RoomFits(r) && FramesFit(Other(r, initiator).sig)
    ensures var applied := Own(r, initiator).peer.remote.applied;
      var other := Other(r, initiator);
      && applied <= SentCandidates(other)
      && (CaughtUp(r, initiator) ==> applied == SentCandidates(other))
      && Within(applied, PostedCandidates(other))
      && (AllSent(other) ==> SentCandidates(other) == PostedCandidates(other))
  {
    hide Alive, LogFits, LinkFits, WireFits, RegistersFit, ByeFits, Quiescent, MessagesFit, Negotiates, ProgressFits,
      HandedFits, TextFits, WireCounts, SentFits, HandedBy, CaughtUp, AllSent, Collect, Filter, Within, FramesFit,
      ParseSignalingMessage, QueuesFit, Payloads;
    var other := Other(r, initiator);
    AppliedWereSent(r, initiator);
    GatheredByText(other, !initiator);
    if AllSent(other) {
      PostedWereSent(other);
    }
    PayloadsWithin(other);
    ReadWithin(IsCandidate, Payloads(other), Posted(other));
    PrefixWithin(SentCandidates(other), PostedCandidates(other),
                 Own(r, initiator).peer.remote.applied, PostedCandidates(other));
  }
}
