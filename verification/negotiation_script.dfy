/** The calls one peer makes on its connection when its messages come from the other peer. */
module NegotiationScript {
  import opened Sequences
  import opened Common
  import opened PeerConnectionSpec
  import opened SignalingSpec
  import opened ControllerSpec
  import opened EndpointRuns
  import opened Lifecycle
  import opened Queues
  import opened Effects
  import opened WireOrder
  import opened Flight
  import opened Messages

  /** All the calls of a complete negotiation, by role. */
  function Script(initiator: bool): seq<ApiCall> {
    if initiator then [CreateCall(SdpOffer), SetLocalCall(SdpOffer), SetRemoteCall(SdpAnswer)]
    else [SetRemoteCall(SdpOffer), CreateCall(SdpAnswer), SetLocalCall(SdpAnswer)]
  }

  function OwnType(initiator: bool): SdpType {
    if initiator then SdpOffer else SdpAnswer
  }

  /** How many calls have been made once the own description is being set. */
  function LocalAt(initiator: bool): nat {
    if initiator then 2 else 3
  }

  /** The asynchronous operation a call starts. */
  predicate Starts(call: ApiCall, op: Operation) {
    match op
    case Creating(t) => call == CreateCall(t)
    case SettingLocal(t, json) => call == SetLocalCall(t) && Carries(json, TypeOfSdp(t))
    case SettingRemote(t) => call == SetRemoteCall(t)
  }

  /** The calls are a beginning of the script, and only the last of them can be outstanding. */
  predicate Follows(p: Peer, initiator: bool) {
    && p.calls <= Script(initiator)
    && |p.operations| <= 1
    && (p.operations != [] ==> p.calls != [] && Starts(Last(p.calls), p.operations[0]))
  }

  function OfKind(kind: MessageType): Message -> bool {
    (m: Message) => m.kind == kind
  }

  /** What a peer may receive from one that follows its own script. */
  predicate Expected(received: seq<Message>, log: seq<NetTask>, initiator: bool) {
    if initiator then
      && Count(OfKind(Offer), received) == 0 && Count(OfKind(Answer), received) <= 1
      && (Count(OfKind(Answer), received) > 0 ==> Count(IsDescription, log) > 0)
    else
      Count(OfKind(Answer), received) == 0 && Count(OfKind(Offer), received) <= 1
  }

  function Received(e: Endpoint): seq<Message> {
    e.ctl.inbox.dispatched + e.ctl.inbox.pending
  }

  /** The callback that runs next brings in what the role expects, and gives the role. */
  predicate HeadAsExpected(e: Endpoint, initiator: bool) {
    e.sig.callbacks != [] ==>
      var c := e.sig.callbacks[0];
      && (c.Inbound? && !e.ctl.ending.finished ==> Expected(Received(Enqueued(e, c.m)), e.sig.log, initiator))
      && (c.JoinDone? && c.response.Some? ==> c.response.value.isInitiator == initiator)
  }

  predicate SettingOwn(p: Peer) {
    p.operations != [] && p.operations[0].SettingLocal?
  }

  predicate Negotiates(e: Endpoint, initiator: bool) {
    var n := |e.peer.calls|;
    && Follows(e.peer, initiator)
    && (Joined(e) ==> e.ctl.joinResponse.value.isInitiator == initiator)
    && (e.ctl.negotiation.offerStarted <==> initiator && n > 0)
    && (initiator && n == 3 ==> Count(OfKind(Answer), e.ctl.inbox.dispatched) >= 1)
    && (!initiator && n > 0 ==> Count(OfKind(Offer), e.ctl.inbox.dispatched) >= 1)
    && Count(IsDescription, e.sig.log) + Bit(SettingOwn(e.peer)) <= Bit(n >= LocalAt(initiator))
    && (!e.ctl.negotiation.inFlight && !e.thread.quit ==> e.peer.operations == [])
  }

  lemma FinishNegotiates(e: Endpoint, reason: TerminalReason, initiator: bool)
    requires Negotiates(e, initiator)
    ensures Negotiates(Finish(e, reason), initiator)
    ensures var f := Finish(e, reason); f.ctl.inbox == e.ctl.inbox && e.sig.log <= f.sig.log
    ensures Count(IsDescription, Finish(e, reason).sig.log) == Count(IsDescription, e.sig.log)
  {
    hide Count, Finish, Follows;
    FinishPosts(e, reason);
    FinishPeer(e, reason, initiator);
  }

  lemma FinishPosts(e: Endpoint, reason: TerminalReason)
    ensures var f := Finish(e, reason);
      e.sig.log <= f.sig.log && Count(IsDescription, f.sig.log) == Count(IsDescription, e.sig.log)
  {
    hide Count, ByeMessage;
    var f := Finish(e, reason);
    if f.sig != e.sig {
      CountMore(IsDescription, e.sig.log, Last(f.sig.log));
    }
  }

  lemma FinishPeer(e: Endpoint, reason: TerminalReason, initiator: bool)
    requires Follows(e.peer, initiator)
    ensures var f := Finish(e, reason);
      && Follows(f.peer, initiator) && f.peer.calls == e.peer.calls
      && (f.peer.operations == e.peer.operations || f.peer.operations == [])
      && f.ctl.inbox == e.ctl.inbox && f.ctl.joinResponse == e.ctl.joinResponse
      && f.ctl.negotiation == e.ctl.negotiation && (e.thread.quit ==> f.thread.quit)
  {
    hide ByeMessage, Carries;
  }

  lemma StartRemoteNegotiates(e: Endpoint, t: SdpType, m: Message, initiator: bool)
    requires Negotiates(e, initiator) && CanPump(e) && !e.thread.quit
    requires e.peer.calls + [SetRemoteCall(t)] <= Script(initiator)
    requires initiator ==> Count(OfKind(Answer), e.ctl.inbox.dispatched) >= 1 && e.peer.calls != []
    requires !initiator ==> Count(OfKind(Offer), e.ctl.inbox.dispatched) >= 1
    ensures var f := StartRemote(e, t, m);
      && Negotiates(f, initiator) && f.ctl.inbox == e.ctl.inbox
      && Count(IsDescription, f.sig.log) == Count(IsDescription, e.sig.log)
  {
    hide Finish, Count, Carries;
    var f := e.(ctl := SetInFlight(e.ctl.(state := Negotiating), true));
    var (p, parsed) := SetRemote(f.peer, t, m);
    if !parsed {
      FinishNegotiates(f.(peer := p, ctl := SetInFlight(f.ctl, false)), PeerConnectionError, initiator);
    }
  }

  /** Where the script stands when a description from the other peer is dispatched. */
  lemma ScriptAdmits(e: Endpoint, m: Message, initiator: bool)
    requires e.ctl.inbox.pending != [] && m == e.ctl.inbox.pending[0]
    requires Negotiates(e, initiator) && Expected(Received(e), e.sig.log, initiator)
    requires m.kind.Offer? || m.kind.Answer?
    ensures initiator <==> m.kind.Answer?
    ensures |e.peer.calls| == if initiator then 2 else 0
  {
    var inbox := e.ctl.inbox;
    assert Received(e) == (inbox.dispatched + [m]) + inbox.pending[1..];
    CountParts(OfKind(m.kind), inbox.dispatched, m, inbox.pending[1..]);
    CountParts(OfKind(Offer), inbox.dispatched, m, inbox.pending[1..]);
    CountParts(OfKind(Answer), inbox.dispatched, m, inbox.pending[1..]);
    hide Count, Carries, Follows;
    assert |e.peer.calls| <= 3 by {
      assert Follows(e.peer, initiator);
      ScriptLength(e.peer, initiator);
    }
  }

  lemma ScriptLength(p: Peer, initiator: bool)
    requires Follows(p, initiator)
    ensures |p.calls| <= 3
  {
  }

  lemma CountParts<T>(keep: T -> bool, xs: seq<T>, x: T, ys: seq<T>)
    ensures Count(keep, (xs + [x]) + ys) == Count(keep, xs) + Bit(keep(x)) + Count(keep, ys)
  {
    FilterAppend(keep, xs + [x], ys);
    CountMore(keep, xs, x);
  }

  /** The message at the front is dispatched. */
  lemma TakenNegotiates(e: Endpoint, initiator: bool)
    requires Negotiates(e, initiator) && e.ctl.inbox.pending != []
    ensures var t := Taken(e); var m := e.ctl.inbox.pending[0];
      && Negotiates(t, initiator) && Received(t) == Received(e)
      && (m.kind.Answer? ==> Count(OfKind(Answer), t.ctl.inbox.dispatched) >= 1)
      && (m.kind.Offer? ==> Count(OfKind(Offer), t.ctl.inbox.dispatched) >= 1)
  {
    var inbox := e.ctl.inbox;
    CountMore(OfKind(Answer), inbox.dispatched, inbox.pending[0]);
    CountMore(OfKind(Offer), inbox.dispatched, inbox.pending[0]);
    hide Count, Follows;
  }

  lemma DescriptionNegotiates(e: Endpoint, initiator: bool)
    requires Negotiates(e, initiator) && Expected(Received(e), e.sig.log, initiator) && HasWork(e) && !e.thread.quit
    requires e.ctl.inbox.pending != []
    requires e.ctl.inbox.pending[0].kind.Offer? || e.ctl.inbox.pending[0].kind.Answer?
    ensures var f := Act(e);
      && Negotiates(f, initiator) && f.ctl.inbox == Taken(e).ctl.inbox
      && Count(IsDescription, f.sig.log) == Count(IsDescription, e.sig.log)
  {
    TakenNegotiates(e, initiator);
    ScriptAdmits(e, e.ctl.inbox.pending[0], initiator);
    CallsAre(e, initiator);
    hide Negotiates, StartRemote, Count;
    StartRemoteNegotiates(Taken(e), if initiator then SdpAnswer else SdpOffer, e.ctl.inbox.pending[0], initiator);
  }

  lemma CallsAre(e: Endpoint, initiator: bool)
    requires Negotiates(e, initiator)
    ensures e.peer.calls <= Script(initiator)
  {
  }

  lemma OfferNegotiates(e: Endpoint, initiator: bool)
    requires Negotiates(e, initiator) && MustOffer(e) && CanPump(e) && !e.thread.quit
    ensures Negotiates(StartOffer(e), initiator)
  {
    hide Count, Carries;
  }

  /** Only the calls, the outstanding operations, the flags, the messages dispatched and the tasks count. */
  lemma SameNegotiates(e: Endpoint, f: Endpoint, initiator: bool)
    requires Negotiates(e, initiator)
    requires f.peer.calls == e.peer.calls && f.peer.operations == e.peer.operations
    requires f.ctl.negotiation == e.ctl.negotiation && f.ctl.inbox.dispatched == e.ctl.inbox.dispatched
    requires f.ctl.joinResponse == e.ctl.joinResponse && f.sig.log == e.sig.log && f.thread.quit == e.thread.quit
    ensures Negotiates(f, initiator)
  {
    hide Count, Carries;
  }

  lemma OtherNegotiates(e: Endpoint, m: Message, initiator: bool)
    requires Negotiates(e, initiator) && !m.kind.Offer? && !m.kind.Answer?
    ensures var f := Dispatch(e, m);
      && Negotiates(f, initiator) && f.ctl.inbox == e.ctl.inbox
      && Count(IsDescription, f.sig.log) == Count(IsDescription, e.sig.log)
  {
    hide Finish, StartRemote, Count, Follows, AddCandidate;
    FinishNegotiates(e, RemoteByeAfterEstablished, initiator);
    FinishNegotiates(e, RemoteByeBeforeEstablished, initiator);
    FinishNegotiates(e, SignalingError, initiator);
    if m.kind.Candidate? {
      var p := AddRemoteCandidate(e.peer, m).0;
      SameNegotiates(e, e.(peer := p), initiator);
      FinishNegotiates(e.(peer := p), PeerConnectionError, initiator);
    }
  }

  lemma ActNegotiates(e: Endpoint, initiator: bool)
    requires Negotiates(e, initiator) && Expected(Received(e), e.sig.log, initiator) && HasWork(e) && !e.thread.quit
    ensures Negotiates(Act(e), initiator) && Expected(Received(Act(e)), Act(e).sig.log, initiator)
  {
    hide Dispatch, Negotiates, Count;
    if e.ctl.inbox.pending == [] {
      OfferNegotiates(e, initiator);
    } else {
      TakenNegotiates(e, initiator);
      var m := e.ctl.inbox.pending[0];
      if m.kind.Offer? || m.kind.Answer? {
        DescriptionNegotiates(e, initiator);
      } else {
        OtherNegotiates(Taken(e), m, initiator);
      }
    }
  }

  lemma {:induction false} PumpNegotiates(e: Endpoint, initiator: bool)
    requires Alive(e) && Negotiates(e, initiator) && Expected(Received(e), e.sig.log, initiator)
    ensures Negotiates(Pump(e), initiator)
    decreases Work(e)
  {
    hide Act, PartsFit, Negotiates, Expected, Received;
    if HasWork(e) {
      ActNegotiates(e, initiator);
      ActAlive(e);
      PumpNegotiates(Act(e), initiator);
    }
  }

  lemma OperationCalls(p: Peer, ok: bool, sdp: string, initiator: bool)
    requires Follows(p, initiator) && p.operations != []
    ensures var (q, reply) := CompleteOperation(p, 0, ok, sdp);
      && Follows(q, initiator)
      && (!reply.Chained? ==> q.calls == p.calls && q.operations == [])
      && (reply.Chained? ==> |q.calls| == |p.calls| + 1 && |p.calls| < LocalAt(initiator) && q.operations != [])
      && (SettingOwn(q) ==> |q.calls| == LocalAt(initiator))
      && (reply.LocalDescriptionReady? ==> SettingOwn(p) && Carries(reply.json, TypeOfSdp(OwnType(initiator))))
  {
    SerializedTextsParse(SdpOffer, sdp, "", "", 0);
    SerializedTextsParse(SdpAnswer, sdp, "", "", 0);
    hide SerializeSessionDescription, Carries, Flush;
    assert Without(p.operations, 0) == [];
  }

  lemma OperationDoneNegotiates(e: Endpoint, i: nat, ok: bool, sdp: string, initiator: bool)
    requires Alive(e) && !e.thread.quit && i < |e.peer.operations|
    requires Negotiates(e, initiator)
    requires e.ctl.negotiation.inFlight
    requires Expected(Received(e), e.sig.log, initiator)
    ensures Negotiates(OnOperationDone(e, i, ok, sdp), initiator)
  {
    hide Pump, Finish, CompleteOperation, Count, Carries, Follows;
    assert i == 0 by {
      assert Follows(e.peer, initiator);
      OneOperation(e.peer, initiator);
    }
    OperationCalls(e.peer, ok, sdp, initiator);
    OperationFrame(e.peer, i, ok, sdp);
    var (p, reply) := CompleteOperation(e.peer, i, ok, sdp);
    var f := e.(peer := p, ctl := SetInFlight(e.ctl, false));
    match reply
    case Chained =>
    case ActionFailed => FinishNegotiates(f, PeerConnectionError, initiator);
    case RemoteAnswerSet =>
      AliveIdle(e, p);
      PumpNegotiates(f, initiator);
    case LocalDescriptionReady(json) =>
      CountMore(IsDescription, e.sig.log, Last(Send(e, ForDescription, json).sig.log));
  }

  lemma OneOperation(p: Peer, initiator: bool)
    requires Follows(p, initiator)
    ensures |p.operations| <= 1
  {
  }

  lemma ReportNegotiates(e: Endpoint, st: ConnectionState, initiator: bool)
    requires Negotiates(e, initiator)
    ensures Negotiates(OnConnectionChange(e, st), initiator) && Negotiates(OnFrame(e), initiator)
  {
    hide Finish, Negotiates;
    SameNegotiates(e, OnFrame(e), initiator);
    SameNegotiates(e, OnConnectionEdge(e, st), initiator);
    FinishNegotiates(OnConnectionEdge(e, st), PeerConnectionError, initiator);
  }

  lemma TimerNegotiates(e: Endpoint, i: nat, initiator: bool)
    requires Negotiates(e, initiator) && i < |e.thread.timers|
    ensures Negotiates(OnTimer(e, i), initiator)
  {
    hide Finish, Negotiates;
    var f := e.(thread := e.thread.(timers := Without(e.thread.timers, i)));
    SameNegotiates(e, f, initiator);
    FinishNegotiates(f, StartupTimeout, initiator);
    FinishNegotiates(f, LocalDurationReached, initiator);
  }

  lemma JoinCompleteNegotiates(e: Endpoint, response: Option<JoinResponse>, initiator: bool)
    requires Negotiates(e, initiator) && Alive(e) && !Joined(e) && !e.thread.quit
    requires response.Some? ==> response.value.isInitiator == initiator
    ensures Negotiates(OnJoinComplete(e, response), initiator)
  {
    hide Finish, Count, Follows, JoinQueue;
    FinishNegotiates(e, SignalingError, initiator);
    var g := e.(ctl := e.ctl.(joinResponse := response));
    var (p, initialized) := Initialize(g.peer);
    var q := StartMedia(p).0;
    SameNegotiates(g, g.(peer := p), initiator);
    SameNegotiates(g, g.(peer := q), initiator);
    FinishNegotiates(g.(peer := p), PeerConnectionError, initiator);
    FinishNegotiates(g.(peer := q), MediaError, initiator);
    CountMore(IsDescription, e.sig.log, Last(Submit(e.sig, ConnectWebSocket, NoReply, Malformed).log));
  }

  lemma DoneNegotiates(e: Endpoint, purpose: Purpose, ok: bool, initiator: bool)
    requires Alive(e) && Negotiates(e, initiator) && Expected(Received(e), e.sig.log, initiator)
    requires purpose.ForRegister? && ok && !e.ctl.ending.finished ==> e.ctl.negotiation.ready
    requires purpose.ForDescription? ==> e.peer.operations == [] || e.thread.quit
    requires purpose.ForBye? ==> e.ctl.ending.finished
    ensures Negotiates(OnDone(e, purpose, ok), initiator)
  {
    hide Pump, Finish, Count, Follows, Expected;
    match purpose
    case ForRegister =>
      PumpNegotiates(e, initiator);
      FinishNegotiates(e, SignalingError, initiator);
    case ForDescription =>
      PumpNegotiates(e.(ctl := SetInFlight(e.ctl, false)), initiator);
      FinishNegotiates(e.(ctl := SetInFlight(e.ctl, false)), SignalingError, initiator);
    case ForCandidate => FinishNegotiates(e, SignalingError, initiator);
    case ForBye => CompleteNegotiates(e, initiator);
    case ForJoin =>
    case NoReply =>
  }

  lemma CompleteNegotiates(e: Endpoint, initiator: bool)
    requires Negotiates(e, initiator)
    ensures Negotiates(CompleteFinish(e, LocalDurationReached), initiator)
  {
    CountMore(IsDescription, e.sig.log, Last(Submit(e.sig, CloseSocket, NoReply, Malformed).log));
    hide Count, Carries;
  }

  /** The answer to a description leaves no operation outstanding. */
  lemma DescriptionAlone(e: Endpoint)
    requires Ordered(e) && Quiescent(e) && !e.thread.quit && e.sig.callbacks != []
    requires Answered(e.sig.callbacks[0]).Some? && IsDescription(e.sig.callbacks[0].task)
    ensures e.peer.operations == []
  {
    OrderedQueues(e);
    DescriptionsOutByHistory(e.sig);
    CountHead(IsDescription, Collect(Answered, e.sig.callbacks));
    hide Ordered, QueuesFit, Count;
  }

  lemma TookNegotiates(e: Endpoint, initiator: bool)
    requires Negotiates(e, initiator) && e.sig.callbacks != []
    ensures Negotiates(Took(e), initiator) && Took(e).sig.log == e.sig.log && Took(e).ctl.inbox == e.ctl.inbox
    ensures Took(e).peer == e.peer && Took(e).thread == e.thread && Took(e).ctl.ending == e.ctl.ending
  {
    hide Count, Follows;
  }

  lemma OpenedNegotiates(e: Endpoint, initiator: bool)
    requires Negotiates(e, initiator)
    ensures Negotiates(OnWebSocketOpen(e), initiator)
  {
    CountMore(IsDescription, e.sig.log, Last(Submit(e.sig, RegisterClient, ForRegister, Malformed).log));
    hide Count, Follows;
  }

  lemma EnqueuedNegotiates(e: Endpoint, m: Message, initiator: bool)
    requires Negotiates(e, initiator)
    ensures Negotiates(Enqueued(e, m), initiator)
  {
    hide Count, Follows;
  }

  /** A callback, when the messages received once it has run are as expected. */
  lemma CallbackNegotiates(e: Endpoint, initiator: bool)
    requires Ordered(e) && Quiescent(e) && !e.thread.quit && e.sig.callbacks != []
    requires Negotiates(e, initiator) && Expected(Received(e), e.sig.log, initiator)
    requires HeadAsExpected(e, initiator)
    ensures Negotiates(RunCallback(e), initiator)
  {
    hide Pump, Finish, OnDone, OnJoinComplete, OnWebSocketOpen, Ordered, Quiescent, Negotiates, Expected;
    OrderedQueues(e);
    CallbackHead(e);
    TookRuns(e);
    TookNegotiates(e, initiator);
    var t := Took(e);
    match e.sig.callbacks[0]
    case Opened => OpenedNegotiates(t, initiator);
    case Inbound(m) =>
      if !e.ctl.ending.finished {
        EnqueuedNegotiates(t, m, initiator);
        PumpNegotiates(Enqueued(t, m), initiator);
      }
    case ErrorNotice => FinishNegotiates(t, SignalingError, initiator);
    case JoinDone(_, response) => JoinCompleteNegotiates(t, response, initiator);
    case Done(task, ok) =>
      if task.purpose.ForDescription? {
        DescriptionAlone(e);
      }
      DoneNegotiates(t, task.purpose, ok, initiator);
  }

  /** Every event, when the messages received so far, or brought by it, are as expected. */
  lemma ApplyNegotiates(e: Endpoint, ev: Event, initiator: bool)
    requires Ordered(e) && Quiescent(e) && Enabled(e, ev)
    requires Negotiates(e, initiator) && Expected(Received(e), e.sig.log, initiator)
    requires HeadAsExpected(e, initiator)
    ensures Negotiates(Apply(e, ev), initiator)
  {
    hide Ordered, Expected, RunCallback, OnOperationDone, OnConnectionChange, OnFrame, OnTimer, SerializeIceCandidate,
      ParseSignalingMessage, Count, Follows, RunNetworkTask;
    match ev
    case Callback => CallbackNegotiates(e, initiator);
    case OperationDone(i, ok, sdp) =>
      OrderedQueues(e);
      DescriptionsOutByHistory(e.sig);
      OperationDoneNegotiates(e, i, ok, sdp, initiator);
    case LocalCandidate(candidate, mid, mline) =>
      CountMore(IsDescription, e.sig.log,
        Last(Send(e, ForCandidate, SerializeIceCandidate(candidate, mid, mline)).sig.log));
    case ConnectionChange(st) => ReportNegotiates(e, st, initiator);
    case VideoFrame => ReportNegotiates(e, NewState, initiator);
    case TimerFires(i) => TimerNegotiates(e, i, initiator);
    case Network(o) => NetworkHasLog(e, o);
    case _ =>
  }

  lemma NetworkHasLog(e: Endpoint, o: NetOutcome)
    requires Ordered(e) && OutcomeFits(e.sig, o)
    ensures RunNetworkTask(e.sig, o).log == e.sig.log
  {
    hide Ordered, RunNetworkTask, QueuesFit;
    OrderedQueues(e);
    NetworkHasShape(e.sig, o);
  }
}
