/** Signaling messages and remote candidates: nothing is lost, repeated or reordered. */
module Messages {
  import opened Sequences
  import opened Common
  import opened PeerConnectionSpec
  import opened SignalingSpec
  import opened ControllerSpec
  import opened EndpointRuns
  import opened Lifecycle
  import opened Queues
  import opened Effects
  import opened WireOrder
  import opened Flight

  predicate IsCandidate(m: Message) {
    m.kind.Candidate?
  }

  /** The buffer of an open connection: what was applied and what still waits make up what was offered. */
  predicate BufferFits(r: RemoteSide) {
    && r.applied <= r.offered
    && (!r.failed ==> r.applied + r.pending == r.offered)
    && (!r.failed && r.descriptionSet ==> r.pending == [])
    && (!r.descriptionSet ==> r.applied == [])
  }

  lemma AddCandidateFits(o: Oracle, r: RemoteSide, m: Message)
    requires BufferFits(r) && !r.failed
    ensures var a := AddCandidate(o, r, m);
      BufferFits(a.remote) && a.ok == !a.remote.failed && a.remote.offered == r.offered + [m]
  {
  }

  /** A prefix is applied, and all of it exactly when no candidate failed. */
  lemma {:induction false} ApplyAllInOrder(o: Oracle, r: RemoteSide, ms: seq<Message>)
    requires !r.failed
    ensures var a := ApplyAll(o, r, ms);
      && r.applied <= a.remote.applied <= r.applied + ms
      && a.ok == !a.remote.failed && (a.ok ==> a.remote.applied == r.applied + ms)
      && a.remote == r.(applied := a.remote.applied, failed := a.remote.failed)
    decreases |ms|
  {
    if ms == [] {
    } else {
      var a := ApplyCandidate(o, r, ms[0]);
      assert r.applied + ms == (r.applied + [ms[0]]) + ms[1..];
      if a.ok {
        ApplyAllInOrder(a.oracle, a.remote, ms[1..]);
      }
    }
  }

  lemma FlushFits(o: Oracle, r: RemoteSide)
    requires BufferFits(r) && !r.failed
    ensures var a := Flush(o, r.(descriptionSet := true));
      BufferFits(a.remote) && a.ok == !a.remote.failed && a.remote.offered == r.offered
  {
    hide ApplyAll;
    ApplyAllInOrder(o, r.(descriptionSet := true), r.pending);
  }

  predicate CandidatesFit(e: Endpoint) {
    && (if e.peer.open then BufferFits(e.peer.remote) else e.peer.remote.applied <= e.peer.remote.offered)
    && (e.peer.remote.failed ==> e.ctl.ending.finished && e.peer.operations == [])
  }

  /** The candidates offered to the peer client are those dispatched, `late` of them still on their way. */
  predicate OfferedFits(e: Endpoint, late: seq<Message>) {
    e.peer.remote.offered + late == Filter(IsCandidate, e.ctl.inbox.dispatched)
  }

  function CandidatePart(m: Message): seq<Message> {
    if IsCandidate(m) then [m] else []
  }

  lemma FinishCandidates(e: Endpoint, reason: TerminalReason)
    requires Alive(e) && (reason.LocalDurationReached? && !e.ctl.ending.finished ==> !e.peer.remote.failed)
    requires if e.peer.open then BufferFits(e.peer.remote) else e.peer.remote.applied <= e.peer.remote.offered
    requires e.peer.remote.failed ==> (e.ctl.ending.finished ==> e.peer.operations == [])
    ensures CandidatesFit(Finish(e, reason))
    ensures Finish(e, reason).peer.remote.offered == e.peer.remote.offered
    ensures Finish(e, reason).ctl.inbox == e.ctl.inbox
    ensures Finish(e, reason).ctl.joinResponse == e.ctl.joinResponse
  {
    hide ByeMessage;
  }

  /** What a turn of the pump keeps. */
  predicate SameInbox(e: Endpoint, f: Endpoint) {
    f.ctl.inbox == e.ctl.inbox && f.ctl.joinResponse == e.ctl.joinResponse
  }

  lemma StartRemoteCandidates(e: Endpoint, t: SdpType, m: Message)
    requires Alive(e) && CanPump(e) && CandidatesFit(e)
    ensures var f := StartRemote(e, t, m);
      CandidatesFit(f) && SameInbox(e, f) && f.peer.remote.offered == e.peer.remote.offered
  {
    hide Finish;
    var f := e.(ctl := SetInFlight(e.ctl.(state := Negotiating), true));
    var (p, parsed) := SetRemote(f.peer, t, m);
    if !parsed {
      FinishCandidates(f.(peer := p, ctl := SetInFlight(f.ctl, false)), PeerConnectionError);
    }
  }

  lemma DispatchCandidates(e: Endpoint, m: Message)
    requires Alive(e) && CanPump(e) && CandidatesFit(e) && OfferedFits(e, CandidatePart(m))
    ensures var f := Dispatch(e, m); CandidatesFit(f) && OfferedFits(f, []) && SameInbox(e, f)
  {
    hide Finish, StartRemote, BufferFits, AddCandidate;
    match m.kind
    case Bye =>
      FinishCandidates(e, if e.ctl.media.established then RemoteByeAfterEstablished else RemoteByeBeforeEstablished);
    case Candidate =>
      CandidateCandidates(e, m);
    case Answer => StartRemoteCandidates(e, SdpAnswer, m);
    case Offer => StartRemoteCandidates(e, SdpOffer, m);
    case Unknown => FinishCandidates(e, SignalingError);
  }

  lemma CandidateCandidates(e: Endpoint, m: Message)
    requires Alive(e) && CanPump(e) && CandidatesFit(e)
    ensures var (p, ok) := AddRemoteCandidate(e.peer, m);
      var f := if ok then e.(peer := p) else Finish(e.(peer := p), PeerConnectionError);
      CandidatesFit(f) && f.peer.remote.offered == e.peer.remote.offered + [m] && SameInbox(e, f)
  {
    hide Finish, BufferFits, AddCandidate;
    var (p, ok) := AddRemoteCandidate(e.peer, m);
    AddCandidateFits(e.peer.oracle, e.peer.remote, m);
    if !ok {
      FinishCandidates(e.(peer := p), PeerConnectionError);
    }
  }

  /** From `e` to `f` messages at most moved from the queue to the peer client. */
  predicate Moved(e: Endpoint, f: Endpoint) {
    && CandidatesFit(f) && OfferedFits(f, []) && f.ctl.joinResponse == e.ctl.joinResponse
    && f.ctl.inbox.inbound == e.ctl.inbox.inbound
    && f.ctl.inbox.dispatched + f.ctl.inbox.pending == e.ctl.inbox.dispatched + e.ctl.inbox.pending
  }

  lemma ActCandidates(e: Endpoint)
    requires Alive(e) && HasWork(e) && CandidatesFit(e) && OfferedFits(e, [])
    ensures Moved(e, Act(e))
  {
    hide Dispatch, BufferFits;
    if e.ctl.inbox.pending != [] {
      var m := e.ctl.inbox.pending[0];
      FilterAppend(IsCandidate, e.ctl.inbox.dispatched, [m]);
      assert Filter(IsCandidate, [m]) == CandidatePart(m);
      DispatchCandidates(Taken(e), m);
    }
  }

  /** The pump moves messages from the queue to the peer client, in order. */
  lemma {:induction false} PumpCandidates(e: Endpoint)
    requires Alive(e) && CandidatesFit(e) && OfferedFits(e, [])
    ensures Moved(e, Pump(e))
    decreases Work(e)
  {
    hide Act, Alive, CandidatesFit, OfferedFits;
    if HasWork(e) {
      ActCandidates(e);
      ActAlive(e);
      PumpCandidates(Act(e));
    }
  }

  lemma FinishMoved(e: Endpoint, reason: TerminalReason)
    requires Alive(e) && CandidatesFit(e) && OfferedFits(e, [])
    requires reason.LocalDurationReached? && !e.ctl.ending.finished ==> Joined(e)
    ensures Moved(e, Finish(e, reason))
  {
    hide Finish, Filter, BufferFits;
    FinishCandidates(e, reason);
  }

  lemma OperationDoneMoved(e: Endpoint, i: nat, ok: bool, sdp: string)
    requires Ordered(e) && Quiescent(e) && !e.thread.quit && i < |e.peer.operations|
    requires CandidatesFit(e) && OfferedFits(e, [])
    ensures Moved(e, OnOperationDone(e, i, ok, sdp))
  {
    hide Pump, Finish, CompleteOperation, Count, DescriptionsOut, QueuesFit, LogFits, LinkFits, WireFits,
      RegistersFit, ByeFits, Filter, BufferFits;
    DescriptionsOutByHistory(e.sig);
    assert |e.peer.operations| == 1;
    var (p, reply) := CompleteOperation(e.peer, i, ok, sdp);
    OperationFrame(e.peer, i, ok, sdp);
    OperationCandidates(e.peer, i, ok, sdp);
    var f := e.(peer := p, ctl := SetInFlight(e.ctl, false));
    match reply
    case Chained =>
    case ActionFailed =>
      AliveIdle(e, p);
      FinishCandidates(f, PeerConnectionError);
    case RemoteAnswerSet =>
      AliveIdle(e, p);
      PumpCandidates(f);
    case LocalDescriptionReady(_) =>
  }

  /** Only the flush after a remote description touches the candidates; if it fails, so does the action. */
  lemma OperationCandidates(p: Peer, i: nat, ok: bool, sdp: string)
    requires i < |p.operations| && BufferFits(p.remote) && !p.remote.failed
    ensures var (q, reply) := CompleteOperation(p, i, ok, sdp);
      BufferFits(q.remote) && q.remote.offered == p.remote.offered && (q.remote.failed ==> reply.ActionFailed?)
  {
    hide Flush, BufferFits, SerializeSessionDescription, Without;
    FlushFits(p.oracle, p.remote);
  }

  lemma DoneMoved(e: Endpoint, purpose: Purpose, ok: bool)
    requires Alive(e) && !e.thread.quit && CandidatesFit(e) && OfferedFits(e, [])
    requires purpose.ForBye? ==> e.ctl.ending.finished
    requires purpose.ForRegister? && ok && !e.ctl.ending.finished ==> e.ctl.negotiation.ready
    ensures Moved(e, OnDone(e, purpose, ok))
  {
    hide Pump, Finish, Filter, BufferFits;
    match purpose
    case ForRegister =>
      PumpCandidates(e);
      FinishMoved(e, SignalingError);
    case ForDescription =>
      PumpCandidates(e.(ctl := SetInFlight(e.ctl, false)));
      FinishMoved(e.(ctl := SetInFlight(e.ctl, false)), SignalingError);
    case ForCandidate => FinishMoved(e, SignalingError);
    case ForBye => CompleteMoved(e);
    case ForJoin =>
    case NoReply =>
  }

  lemma CompleteMoved(e: Endpoint)
    requires CandidatesFit(e) && OfferedFits(e, []) && e.ctl.ending.finished
    ensures Moved(e, CompleteFinish(e, LocalDurationReached))
  {
    hide Filter;
  }

  lemma TimerMoved(e: Endpoint, i: nat)
    requires Alive(e) && !e.thread.quit && i < |e.thread.timers| && CandidatesFit(e) && OfferedFits(e, [])
    ensures Moved(e, OnTimer(e, i))
  {
    hide Finish, Filter, BufferFits;
    var f := e.(thread := e.thread.(timers := Without(e.thread.timers, i)));
    FinishMoved(f, StartupTimeout);
    if e.ctl.media.established {
      FinishMoved(f, LocalDurationReached);
    }
  }

  lemma ReportMoved(e: Endpoint, st: ConnectionState)
    requires Alive(e) && Enabled(e, ConnectionChange(st)) && CandidatesFit(e) && OfferedFits(e, [])
    ensures Moved(e, OnConnectionChange(e, st)) && Moved(e, OnFrame(e))
  {
    hide Finish, Filter, BufferFits;
    ConnectionEdgeAlive(e, st);
    FinishMoved(OnConnectionEdge(e, st), PeerConnectionError);
  }

  lemma ThreadMoved(e: Endpoint, ev: Event)
    requires Ordered(e) && Quiescent(e) && Enabled(e, ev) && OnSignalingThread(ev)
    requires CandidatesFit(e) && OfferedFits(e, [])
    ensures Moved(e, Apply(e, ev))
  {
    hide Ordered, Quiescent, CandidatesFit, OfferedFits, Moved, OnOperationDone, OnConnectionChange, OnFrame, OnTimer,
      OnLocalCandidate, SerializeIceCandidate;
    OrderedQueues(e);
    match ev
    case OperationDone(i, ok, sdp) => OperationDoneMoved(e, i, ok, sdp);
    case ConnectionChange(st) => ReportMoved(e, st);
    case VideoFrame => ReportMoved(e, NewState);
    case TimerFires(i) => TimerMoved(e, i);
    case LocalCandidate(candidate, mid, mline) => UntouchedMoved(e, SerializeIceCandidate(candidate, mid, mline), 0);
    case ClockAdvances(to) => UntouchedMoved(e, Malformed, to);
  }

  /** Neither the controller nor the peer client has changed. */
  lemma UntouchedMoved(e: Endpoint, text: Text, to: nat)
    requires CandidatesFit(e) && OfferedFits(e, [])
    ensures Moved(e, OnLocalCandidate(e, text)) && Moved(e, e.(thread := e.thread.(now := to)))
  {
    hide Filter, BufferFits;
  }

  /** The join messages have been queued: the connect task was posted then. */
  predicate JoinQueued(e: Endpoint) {
    Joined(e) && |e.sig.log| > 1 && e.sig.log[1].op.ConnectWebSocket?
  }

  function JoinPart(e: Endpoint): seq<Message> {
    if JoinQueued(e) then JoinQueue(e.ctl.joinResponse.value) else []
  }

  /** Conservation: dispatched, then waiting, are the join messages, then those from the socket. */
  predicate InboxFits(e: Endpoint) {
    && (Joined(e) ==> |e.sig.log| > 1)
    && (Joined(e) && !e.ctl.ending.finished ==> JoinQueued(e))
    && e.ctl.inbox.dispatched + e.ctl.inbox.pending == JoinPart(e) + e.ctl.inbox.inbound
  }

  /** The message a callback task brings in, if it brings one. */
  function BroughtIn(c: CallbackTask): Option<Message> {
    if c.Inbound? then Some(c.m) else None
  }

  /** What the socket heard is what came in followed by what waits in the callback queue, until the call ends. */
  predicate HeardFits(e: Endpoint) {
    var heard := Collect(ParseSignalingMessage, e.sig.heard);
    && (e.sig.link.socket.NotStarted? ==> e.sig.heard == [])
    && e.ctl.inbox.inbound <= heard
    && (!e.ctl.ending.finished ==> e.ctl.inbox.inbound + Collect(BroughtIn, e.sig.callbacks) == heard)
  }

  predicate MessagesFit(e: Endpoint) {
    CandidatesFit(e) && OfferedFits(e, []) && InboxFits(e) && HeardFits(e)
  }

  /** Nothing was heard or taken from the callback queue, and tasks were at most added. */
  predicate SameSources(e: Endpoint, f: Endpoint) {
    && e.sig.log <= f.sig.log && f.sig.callbacks == e.sig.callbacks
    && f.sig.heard == e.sig.heard && f.sig.link == e.sig.link
  }

  /** A handler that only moves messages and posts at most one task. */
  lemma MovedFits(e: Endpoint, f: Endpoint)
    requires InboxFits(e) && HeardFits(e) && Moved(e, f)
    requires e.ctl.ending.finished ==> f.ctl.ending.finished
    requires SameSources(e, f)
    ensures MessagesFit(f)
  {
    hide JoinQueue, Collect, CandidatesFit, OfferedFits;
  }

  lemma EffectKeeps(e: Endpoint, f: Endpoint)
    requires Effect(e, f)
    ensures e.ctl.ending.finished ==> f.ctl.ending.finished
    ensures SameSources(e, f)
    ensures f.sig.wire == e.sig.wire
  {
  }

  lemma TookMessages(e: Endpoint)
    requires MessagesFit(e) && e.sig.callbacks != []
    ensures var t := Took(e);
      && CandidatesFit(t) && OfferedFits(t, []) && InboxFits(t)
      && (if e.sig.callbacks[0].Inbound? && !e.ctl.ending.finished then HeardFits(Enqueued(t, e.sig.callbacks[0].m))
          else HeardFits(t))
  {
    hide JoinQueue, BufferFits, Filter, ParseSignalingMessage;
    var c := e.sig.callbacks[0];
    if c.Inbound? {
      assert Collect(BroughtIn, e.sig.callbacks) == [c.m] + Collect(BroughtIn, e.sig.callbacks[1..]);
    }
  }

  lemma JoinCompleteMessages(e: Endpoint, response: Option<JoinResponse>)
    requires Alive(e) && !e.thread.quit && !Joined(e) && MessagesFit(e) && |e.sig.log| == 1
    ensures MessagesFit(OnJoinComplete(e, response))
  {
    hide JoinQueue, Collect, Filter;
    assert e.ctl.inbox.inbound == [];
  }

  lemma OpenedMoved(e: Endpoint)
    requires CandidatesFit(e) && OfferedFits(e, [])
    ensures var f := OnWebSocketOpen(e);
      && Moved(e, f) && f.ctl.ending == e.ctl.ending
      && SameSources(e, f)
  {
    hide Filter, BufferFits;
  }

  /** A callback keeps the history of tasks and takes nothing else from the callback queue. */
  lemma CallbackKeeps(e: Endpoint)
    requires Ordered(e) && !e.thread.quit && e.sig.callbacks != []
    ensures var t := Took(e); var f := RunCallback(e);
      (t.ctl.ending.finished ==> f.ctl.ending.finished) && SameSources(t, f) && f.sig.wire == t.sig.wire
  {
    hide Ordered, Alive, Effect, RunCallback, SameSources;
    OrderedQueues(e);
    CallbackHead(e);
    if e.sig.callbacks[0].Opened? || ByeAnswered(e.sig.callbacks[0]) {
      OtherCallbackKeeps(e);
    } else {
      CallbackEffect(e);
      EffectKeeps(Took(e), RunCallback(e));
    }
  }

  lemma OtherCallbackKeeps(e: Endpoint)
    requires e.sig.callbacks != [] && (e.sig.callbacks[0].Opened? || ByeAnswered(e.sig.callbacks[0]))
    ensures var t := Took(e); var f := RunCallback(e);
      (t.ctl.ending.finished ==> f.ctl.ending.finished) && SameSources(t, f) && f.sig.wire == t.sig.wire
  {
  }

  lemma CallbackHead(e: Endpoint)
    requires Ordered(e) && e.sig.callbacks != []
    ensures HeadFits(e)
  {
    hide Alive, QueuesFit, LogFits, LinkFits;
    HeadIsFitting(e);
  }

  lemma CallbackMessages(e: Endpoint)
    requires Ordered(e) && Quiescent(e) && !e.thread.quit && e.sig.callbacks != [] && MessagesFit(e)
    ensures MessagesFit(RunCallback(e))
  {
    hide Pump, Finish, OnDone, OnJoinComplete, OnWebSocketOpen, Ordered, CandidatesFit, OfferedFits, InboxFits,
      HeardFits, Moved;
    OrderedQueues(e);
    CallbackHead(e);
    TookRuns(e);
    TookMessages(e);
    CallbackKeeps(e);
    var t := Took(e);
    match e.sig.callbacks[0]
    case Opened =>
      OpenedMoved(t);
      MovedFits(t, RunCallback(e));
    case Inbound(m) =>
      if e.ctl.ending.finished {
      } else {
        InboundMessages(t, m);
        PumpCandidates(Enqueued(t, m));
        MovedFits(Enqueued(t, m), RunCallback(e));
      }
    case ErrorNotice =>
      FinishMoved(t, SignalingError);
      if !e.ctl.ending.finished {
        MovedFits(t, RunCallback(e));
      }
    case JoinDone(_, response) =>
      JoinAlone(e);
      JoinCompleteMessages(t, response);
    case Done(task, ok) =>
      DoneMoved(t, task.purpose, ok);
      MovedFits(t, RunCallback(e));
  }

  lemma InboundMessages(e: Endpoint, m: Message)
    requires CandidatesFit(e) && OfferedFits(e, []) && InboxFits(e)
    ensures CandidatesFit(Enqueued(e, m)) && OfferedFits(Enqueued(e, m), []) && InboxFits(Enqueued(e, m))
  {
    hide Filter, JoinQueue, BufferFits;
    var inbox := e.ctl.inbox;
    assert inbox.dispatched + (inbox.pending + [m]) == (inbox.dispatched + inbox.pending) + [m];
    assert JoinPart(e) + (inbox.inbound + [m]) == (JoinPart(e) + inbox.inbound) + [m];
  }

  lemma JoinAlone(e: Endpoint)
    requires Ordered(e) && e.sig.callbacks != [] && e.sig.callbacks[0].JoinDone?
    ensures |e.sig.log| == 1
  {
    hide Alive, QueuesFit, LinkFits;
    HeadIsFitting(e);
  }

  lemma NetworkHeard(e: Endpoint, t: Signaling)
    requires MessagesFit(e) && e.sig.network != [] && NetworkShape(e.sig, t)
    ensures MessagesFit(e.(sig := t))
  {
    hide Filter, JoinQueue, BufferFits, FrameOf, ParseSignalingMessage;
    if HasReply(e.sig.network[0]) {
      CollectAppend(BroughtIn, e.sig.callbacks, [Last(t.callbacks)]);
    }
  }

  lemma NetworkMessages(e: Endpoint, o: NetOutcome)
    requires Ordered(e) && MessagesFit(e) && OutcomeFits(e.sig, o)
    ensures MessagesFit(e.(sig := RunNetworkTask(e.sig, o)))
  {
    hide Ordered, MessagesFit, RunNetworkTask, QueuesFit, NetworkShape;
    OrderedQueues(e);
    NetworkHasShape(e.sig, o);
    NetworkHeard(e, RunNetworkTask(e.sig, o));
  }

  /** What the socket's events add: a payload heard, if it was one, and a callback task that brings it in. */
  lemma HeardMore(e: Endpoint, t: Signaling, texts: seq<Text>, notices: seq<CallbackTask>)
    requires MessagesFit(e) && !t.link.socket.NotStarted? && t.log == e.sig.log
    requires t.heard == e.sig.heard + texts && t.callbacks == e.sig.callbacks + notices
    requires Collect(BroughtIn, notices) == Collect(ParseSignalingMessage, texts)
    ensures MessagesFit(e.(sig := t))
  {
    CollectAppend(ParseSignalingMessage, e.sig.heard, texts);
    CollectAppend(BroughtIn, e.sig.callbacks, notices);
    hide Filter, JoinQueue, BufferFits, ParseSignalingMessage, Collect;
  }

  lemma SocketMessages(e: Endpoint, ev: Event)
    requires MessagesFit(e) && Enabled(e, ev)
    requires ev.SocketOpen? || ev.SocketClose? || ev.SocketError? || ev.SocketMessage?
    ensures MessagesFit(Apply(e, ev))
  {
    hide MessagesFit, ParseSignalingMessage;
    var t := Apply(e, ev).sig;
    var texts := if ev.SocketMessage? && ev.frame.Payload? then [ev.frame.text] else [];
    var notices := t.callbacks[|e.sig.callbacks|..];
    assert t.callbacks == e.sig.callbacks + notices && |notices| <= 1;
    HeardMore(e, t, texts, notices);
  }

  lemma ThreadMessages(e: Endpoint, ev: Event)
    requires Ordered(e) && Quiescent(e) && MessagesFit(e) && Enabled(e, ev) && OnSignalingThread(ev)
    ensures MessagesFit(Apply(e, ev))
  {
    hide Ordered, Quiescent, Apply, Effect, Moved, CandidatesFit, OfferedFits, InboxFits, HeardFits;
    OrderedQueues(e);
    ThreadMoved(e, ev);
    ApplyEffect(e, ev);
    EffectKeeps(e, Apply(e, ev));
    MovedFits(e, Apply(e, ev));
  }

  lemma ApplyMessages(e: Endpoint, ev: Event)
    requires Ordered(e) && Quiescent(e) && MessagesFit(e) && Enabled(e, ev)
    ensures MessagesFit(Apply(e, ev))
  {
    hide Ordered, Quiescent, MessagesFit, RunCallback, RunNetworkTask;
    match ev
    case Network(o) => NetworkMessages(e, o);
    case Callback => CallbackMessages(e);
    case SocketOpen => SocketMessages(e, ev);
    case SocketClose => SocketMessages(e, ev);
    case SocketError => SocketMessages(e, ev);
    case SocketMessage(_) => SocketMessages(e, ev);
    case _ => ThreadMessages(e, ev);
  }

  lemma {:induction false} RunMessages(config: AppConfig, verdicts: nat -> bool, events: seq<Event>)
    ensures MessagesFit(Run(Started(config, verdicts), events))
  {
    hide Ordered, Apply, Quiescent, MessagesFit;
    if events == [] {
      assert MessagesFit(Started(config, verdicts)) by {
        StartedMessages(config, verdicts);
      }
    } else {
      RunMessages(config, verdicts, events[..|events| - 1]);
      RunQuiescent(config, verdicts, events[..|events| - 1]);
      RunOrdered(config, verdicts, events[..|events| - 1]);
      var e := Run(Started(config, verdicts), events[..|events| - 1]);
      if Enabled(e, Last(events)) {
        ApplyMessages(e, Last(events));
      }
    }
  }

  lemma StartedMessages(config: AppConfig, verdicts: nat -> bool)
    ensures MessagesFit(Started(config, verdicts))
  {
  }

  /** Message conservation and order: once the join messages are queued, what was dispatched and what waits
      are those, stably sorted, followed by what came in on the socket; and until the call ends nothing the
      socket heard is missing from there except what still waits in the callback queue. */
  lemma MessageOrder(config: AppConfig, verdicts: nat -> bool, events: seq<Event>)
    ensures var e := Run(Started(config, verdicts), events);
      var heard := Collect(ParseSignalingMessage, e.sig.heard);
      && e.ctl.inbox.dispatched + e.ctl.inbox.pending == JoinPart(e) + e.ctl.inbox.inbound
      && e.ctl.inbox.inbound <= heard
      && (!e.ctl.ending.finished ==> e.ctl.inbox.inbound + Collect(BroughtIn, e.sig.callbacks) == heard)
  {
    hide Started, Apply, Collect, JoinPart, CandidatesFit, OfferedFits;
    RunMessages(config, verdicts, events);
  }

  /** The candidates applied are always a prefix of those dispatched, so none is applied twice or out of order;
      before a failure and while the connection is open the rest is in the buffer; nothing is applied before a
      remote description was, and nothing stays buffered after it. */
  lemma CandidateRefinement(config: AppConfig, verdicts: nat -> bool, events: seq<Event>)
    ensures var e := Run(Started(config, verdicts), events);
      var r := e.peer.remote;
      var dispatched := Filter(IsCandidate, e.ctl.inbox.dispatched);
      && r.applied <= dispatched
      && (e.peer.open && !r.failed ==> r.applied + r.pending == dispatched)
      && (e.peer.open && !r.descriptionSet ==> r.applied == [])
      && (e.peer.open && !r.failed && r.descriptionSet ==> r.pending == [])
      && (r.failed ==> e.ctl.ending.finished && e.peer.operations == [])
  {
    hide Started, Apply, Filter, InboxFits, HeardFits;
    RunMessages(config, verdicts, events);
  }
}
