/** What a peer posts for the other, and by which way. */
module Outbox {
  import opened Sequences
  import opened Common
  import opened PeerConnectionSpec
  import opened SignalingSpec
  import opened ControllerSpec
  import opened EndpointRuns
  import opened Lifecycle
  import opened Queues
  import opened Effects
  import opened WireOrder
  import opened Flight
  import opened Messages
  import opened RelayTexts

  /** Every message went the way of the peer's role, and the answer to the registration has opened the pump. */
  predicate OutboxFits(e: Endpoint) {
    && (forall t <- e.sig.log :: IsMessage(t) ==> Joined(e) && t.op == Route(e))
    && (!e.ctl.ending.finished && Count(IsRegister, e.sig.delivered) > 0 ==> e.ctl.negotiation.ready)
  }

  /** As above, unless `f` ends the call anyway. */
  predicate OutboxMayFit(e: Endpoint, f: Endpoint) {
    && (forall t <- e.sig.log :: IsMessage(t) ==> Joined(e) && t.op == Route(e))
    && (!f.ctl.ending.finished && Count(IsRegister, e.sig.delivered) > 0 ==> e.ctl.negotiation.ready)
  }

  lemma EffectOutbox(e: Endpoint, f: Endpoint)
    requires Alive(e) && OutboxMayFit(e, f) && Effect(e, f)
    ensures OutboxFits(f)
  {
    hide Count, EndingFits;
    if Posts(e, f) {
      assert f.sig.log == e.sig.log + [Last(f.sig.log)];
    }
  }

  lemma TookOutbox(e: Endpoint)
    requires Ordered(e) && OutboxFits(e) && !e.thread.quit && e.sig.callbacks != []
    ensures OutboxMayFit(Took(e), RunCallback(e))
  {
    hide Ordered, Count, RunCallback;
    var c := e.sig.callbacks[0];
    if Answered(c).Some? {
      OrderedQueues(e);
      HeadAnswerFits(e.sig);
      CountMore(IsRegister, e.sig.delivered, c.task);
      if c.Done? && !c.ok {
        FailureEnds(e);
      }
    }
    EndStaysEnded(e);
  }

  lemma EndStaysEnded(e: Endpoint)
    requires Ordered(e) && !e.thread.quit && e.sig.callbacks != []
    ensures e.ctl.ending.finished ==> RunCallback(e).ctl.ending.finished
  {
    hide Ordered, RunCallback;
    CallbackKeeps(e);
  }

  lemma CallbackOutbox(e: Endpoint)
    requires Ordered(e) && OutboxFits(e) && !e.thread.quit && e.sig.callbacks != []
    ensures OutboxFits(RunCallback(e))
  {
    hide Ordered, OutboxFits, OutboxMayFit, RunCallback, Effect, Took;
    OrderedQueues(e);
    CallbackHead(e);
    TookOutbox(e);
    if e.sig.callbacks[0].Opened? || ByeAnswered(e.sig.callbacks[0]) {
      OtherCallbackOutbox(e);
    } else {
      TookRuns(e);
      CallbackEffect(e);
      EffectOutbox(Took(e), RunCallback(e));
    }
  }

  lemma OtherCallbackOutbox(e: Endpoint)
    requires e.sig.callbacks != [] && (e.sig.callbacks[0].Opened? || ByeAnswered(e.sig.callbacks[0]))
    requires OutboxMayFit(Took(e), RunCallback(e))
    ensures OutboxFits(RunCallback(e))
  {
    hide Count;
  }

  lemma NetworkOutbox(e: Endpoint, t: Signaling)
    requires OutboxFits(e) && t.log == e.sig.log && t.delivered == e.sig.delivered
    ensures OutboxFits(e.(sig := t))
  {
    hide Count;
  }

  lemma ThreadOutbox(e: Endpoint, ev: Event)
    requires Ordered(e) && OutboxFits(e) && Enabled(e, ev) && OnSignalingThread(ev)
    ensures OutboxFits(Apply(e, ev))
  {
    hide Ordered, Apply, Effect, Count;
    OrderedQueues(e);
    ApplyEffect(e, ev);
    EffectEnds(e, Apply(e, ev));
    EffectOutbox(e, Apply(e, ev));
  }

  lemma EffectEnds(e: Endpoint, f: Endpoint)
    requires Effect(e, f)
    ensures e.ctl.ending.finished ==> f.ctl.ending.finished
  {
  }

  lemma ApplyOutbox(e: Endpoint, ev: Event)
    requires Ordered(e) && OutboxFits(e) && Enabled(e, ev)
    ensures OutboxFits(Apply(e, ev))
  {
    hide Ordered, OutboxFits, RunCallback, RunNetworkTask, QueuesFit, ParseSignalingMessage;
    match ev
    case Network(o) =>
      OrderedQueues(e);
      NetworkHasShape(e.sig, o);
      NetworkOutbox(e, RunNetworkTask(e.sig, o));
    case Callback => CallbackOutbox(e);
    case SocketOpen => NetworkOutbox(e, Apply(e, ev).sig);
    case SocketClose => NetworkOutbox(e, Apply(e, ev).sig);
    case SocketError => NetworkOutbox(e, Apply(e, ev).sig);
    case SocketMessage(_) => NetworkOutbox(e, Apply(e, ev).sig);
    case _ => ThreadOutbox(e, ev);
  }

  lemma StartedOutbox(config: AppConfig, verdicts: nat -> bool)
    ensures OutboxFits(Started(config, verdicts))
  {
    CountNone(IsRegister, []);
    hide Count;
  }

  lemma {:induction false} RunOutbox(config: AppConfig, verdicts: nat -> bool, events: seq<Event>)
    ensures OutboxFits(Run(Started(config, verdicts), events))
  {
    hide Ordered, Apply, Started, OutboxFits;
    if events == [] {
      StartedOutbox(config, verdicts);
    } else {
      RunOutbox(config, verdicts, events[..|events| - 1]);
      RunOrdered(config, verdicts, events[..|events| - 1]);
      var e := Run(Started(config, verdicts), events[..|events| - 1]);
      if Enabled(e, Last(events)) {
        ApplyOutbox(e, Last(events));
      }
    }
  }

  /** Every description, candidate and bye of an initiator is posted to the room server, and every one of the
      other peer is sent on the socket; none is posted before the join. */
  lemma RouteByRole(config: AppConfig, verdicts: nat -> bool, events: seq<Event>)
    ensures var e := Run(Started(config, verdicts), events);
      forall t <- e.sig.log :: IsMessage(t) ==>
        Joined(e) && t.op == (if e.ctl.joinResponse.value.isInitiator then RoomPost else SocketSend)
  {
    hide Apply, Started, Count;
    RunOutbox(config, verdicts, events);
  }

  function CandidateText(t: NetTask): Option<Text> {
    if t.purpose.ForCandidate? then Some(t.text) else None
  }

  /** The texts of the candidates a peer has posted. */
  function CandidateTexts(e: Endpoint): seq<Text> {
    Collect(CandidateText, e.sig.log)
  }

  function DescriptionText(t: NetTask): Option<Text> {
    if t.purpose.ForDescription? then Some(t.text) else None
  }

  /** The texts of the descriptions a peer has posted. */
  function DescriptionTexts(e: Endpoint): seq<Text> {
    Collect(DescriptionText, e.sig.log)
  }

  predicate Silent(e: Endpoint, f: Endpoint) {
    CandidateTexts(f) == CandidateTexts(e) && DescriptionTexts(f) == DescriptionTexts(e)
  }

  lemma PostsSilently(s: Signaling, op: NetOp, purpose: Purpose, text: Text)
    ensures Collect(CandidateText, Submit(s, op, purpose, text).log)
         == Collect(CandidateText, s.log) + (if purpose.ForCandidate? then [text] else [])
    ensures Collect(DescriptionText, Submit(s, op, purpose, text).log)
         == Collect(DescriptionText, s.log) + (if purpose.ForDescription? then [text] else [])
  {
    CollectAppend(CandidateText, s.log, [NetTask(|s.log|, op, purpose, text)]);
    CollectAppend(DescriptionText, s.log, [NetTask(|s.log|, op, purpose, text)]);
  }

  lemma FinishSilent(e: Endpoint, reason: TerminalReason)
    ensures Silent(e, Finish(e, reason))
  {
    hide Collect, ByeMessage;
    PostsSilently(e.sig, Route(e), ForBye, ByeMessage());
    PostsSilently(e.sig, CloseSocket, NoReply, Malformed);
  }

  lemma DispatchSilent(e: Endpoint, m: Message)
    ensures Silent(e, Dispatch(e, m))
  {
    hide Collect, Finish;
    FinishSilent(e, RemoteByeAfterEstablished);
    FinishSilent(e, RemoteByeBeforeEstablished);
    FinishSilent(e, SignalingError);
    FinishSilent(e.(peer := AddRemoteCandidate(e.peer, m).0), PeerConnectionError);
    var f := e.(ctl := SetInFlight(e.ctl.(state := Negotiating), false));
    FinishSilent(f.(peer := SetRemote(e.peer, SdpOffer, m).0), PeerConnectionError);
    FinishSilent(f.(peer := SetRemote(e.peer, SdpAnswer, m).0), PeerConnectionError);
  }

  lemma {:induction false} PumpSilent(e: Endpoint)
    requires Alive(e)
    ensures Silent(e, Pump(e))
    decreases Work(e)
  {
    hide Dispatch, Collect, Alive;
    if HasWork(e) {
      if e.ctl.inbox.pending != [] {
        DispatchSilent(Taken(e), e.ctl.inbox.pending[0]);
      }
      ActAlive(e);
      PumpSilent(Act(e));
    }
  }

  lemma OperationSilent(e: Endpoint, i: nat, ok: bool, sdp: string)
    requires Alive(e) && !e.thread.quit && i < |e.peer.operations|
    ensures var f := OnOperationDone(e, i, ok, sdp);
      var reply := CompleteOperation(e.peer, i, ok, sdp).1;
      && CandidateTexts(f) == CandidateTexts(e)
      && DescriptionTexts(f) == DescriptionTexts(e) + (if reply.LocalDescriptionReady? then [reply.json] else [])
  {
    hide Pump, Finish, CompleteOperation, Collect, EndingFits;
    var (p, reply) := CompleteOperation(e.peer, i, ok, sdp);
    OperationFrame(e.peer, i, ok, sdp);
    var f := e.(peer := p, ctl := SetInFlight(e.ctl, false));
    match reply
    case Chained =>
    case ActionFailed => FinishSilent(f, PeerConnectionError);
    case RemoteAnswerSet =>
      AliveIdle(e, p);
      PumpSilent(f);
    case LocalDescriptionReady(json) => PostsSilently(e.sig, Route(e), ForDescription, json);
  }

  lemma DoneSilent(e: Endpoint, purpose: Purpose, ok: bool)
    requires Alive(e) && (purpose.ForRegister? && ok && !e.ctl.ending.finished ==> e.ctl.negotiation.ready)
    ensures Silent(e, OnDone(e, purpose, ok))
  {
    hide Pump, Finish, Collect;
    var f := e.(ctl := SetInFlight(e.ctl, false));
    match purpose
    case ForRegister =>
      PumpSilent(e);
      FinishSilent(e, SignalingError);
    case ForDescription =>
      PumpSilent(f);
      FinishSilent(f, SignalingError);
    case ForCandidate => FinishSilent(e, SignalingError);
    case ForBye => PostsSilently(e.sig, CloseSocket, NoReply, Malformed);
    case ForJoin =>
    case NoReply =>
  }

  lemma JoinSilent(e: Endpoint, response: Option<JoinResponse>)
    ensures Silent(e, OnJoinComplete(e, response))
  {
    hide Finish, Collect, JoinQueue;
    FinishSilent(e, SignalingError);
    var f := e.(ctl := e.ctl.(joinResponse := response));
    FinishSilent(f.(peer := Initialize(f.peer).0), PeerConnectionError);
    FinishSilent(f.(peer := StartMedia(Initialize(f.peer).0).0), MediaError);
    PostsSilently(e.sig, ConnectWebSocket, NoReply, Malformed);
  }

  lemma CallbackSilent(e: Endpoint)
    requires Ordered(e) && !e.thread.quit && e.sig.callbacks != []
    ensures Silent(e, RunCallback(e))
  {
    hide Ordered, Pump, Finish, OnDone, OnJoinComplete, Collect;
    OrderedQueues(e);
    CallbackHead(e);
    TookRuns(e);
    var t := Took(e);
    match e.sig.callbacks[0]
    case Opened => PostsSilently(t.sig, RegisterClient, ForRegister, Malformed);
    case Inbound(m) => PumpSilent(Enqueued(t, m));
    case ErrorNotice => FinishSilent(t, SignalingError);
    case JoinDone(_, response) => JoinSilent(t, response);
    case Done(task, ok) => DoneSilent(t, task.purpose, ok);
  }

  lemma ReportSilent(e: Endpoint, st: ConnectionState)
    ensures Silent(e, OnConnectionChange(e, st)) && Silent(e, OnFrame(e))
  {
    hide Finish, Collect;
    FinishSilent(OnConnectionEdge(e, st), PeerConnectionError);
  }

  lemma TimerSilent(e: Endpoint, i: nat)
    requires i < |e.thread.timers|
    ensures Silent(e, OnTimer(e, i))
  {
    hide Finish, Collect;
    var f := e.(thread := e.thread.(timers := Without(e.thread.timers, i)));
    FinishSilent(f, StartupTimeout);
    FinishSilent(f, LocalDurationReached);
  }

  /** The candidate that an event makes a peer gather, as long as its call goes on. */
  function NewCandidate(e: Endpoint, ev: Event): seq<Message> {
    match ev
    case LocalCandidate(candidate, mid, mline) =>
      if Enabled(e, ev) && !e.ctl.ending.finished then [Message(Candidate, "", candidate, mid, mline)] else []
    case _ => []
  }

  /** The candidates gathered in a run before the call ended. */
  function Gathered(e: Endpoint, events: seq<Event>): seq<Message> {
    if events == [] then []
    else
      var before := events[..|events| - 1];
      Gathered(e, before) + NewCandidate(Run(e, before), Last(events))
  }

  /** The candidates a peer has posted, as the other peer reads them. */
  function PostedCandidates(e: Endpoint): seq<Message> {
    Collect(ParseSignalingMessage, CandidateTexts(e))
  }

  lemma ApplyGathers(e: Endpoint, ev: Event)
    requires Ordered(e) && Enabled(e, ev)
    ensures PostedCandidates(Apply(e, ev)) == PostedCandidates(e) + NewCandidate(e, ev)
    ensures |CandidateTexts(Apply(e, ev))| == |CandidateTexts(e)| + |NewCandidate(e, ev)|
  {
    hide Ordered, QueuesFit, RunCallback, RunNetworkTask, OnOperationDone, OnConnectionChange, OnFrame, OnTimer,
      SerializeIceCandidate, ParseSignalingMessage, Collect;
    OrderedQueues(e);
    match ev
    case Network(o) => NetworkHasShape(e.sig, o);
    case Callback => CallbackSilent(e);
    case OperationDone(i, ok, sdp) => OperationSilent(e, i, ok, sdp);
    case ConnectionChange(st) => ReportSilent(e, st);
    case VideoFrame => ReportSilent(e, NewState);
    case TimerFires(i) => TimerSilent(e, i);
    case LocalCandidate(candidate, mid, mline) =>
      OpenIsJoined(e);
      PostsSilently(e.sig, Route(e), ForCandidate, SerializeIceCandidate(candidate, mid, mline));
      SerializedTextsParse(SdpOffer, "", candidate, mid, mline);
      CollectMore(ParseSignalingMessage, CandidateTexts(e), SerializeIceCandidate(candidate, mid, mline));
    case _ =>
  }

  lemma OpenIsJoined(e: Endpoint)
    requires Alive(e)
    ensures e.peer.open ==> Joined(e)
  {
    hide EndingFits;
  }

  /** Every candidate gathered before the end is posted, once, in the order of gathering and in a text that reads as
      that candidate; no other is. */
  lemma {:induction false} GatheredArePosted(config: AppConfig, verdicts: nat -> bool, events: seq<Event>)
    ensures var e := Run(Started(config, verdicts), events);
      && PostedCandidates(e) == Gathered(Started(config, verdicts), events)
      && |CandidateTexts(e)| == |PostedCandidates(e)|
  {
    hide Ordered, Apply, Started, CandidateTexts, PostedCandidates, NewCandidate;
    if events == [] {
      NothingPosted(config, verdicts);
    } else {
      GatheredArePosted(config, verdicts, events[..|events| - 1]);
      RunOrdered(config, verdicts, events[..|events| - 1]);
      var e := Run(Started(config, verdicts), events[..|events| - 1]);
      if Enabled(e, Last(events)) {
        ApplyGathers(e, Last(events));
      } else {
        DisabledGathers(e, Last(events));
      }
    }
  }

  lemma DisabledGathers(e: Endpoint, ev: Event)
    ensures !Enabled(e, ev) ==> NewCandidate(e, ev) == []
  {
  }

  lemma NothingPosted(config: AppConfig, verdicts: nat -> bool)
    ensures CandidateTexts(Started(config, verdicts)) == [] && DescriptionTexts(Started(config, verdicts)) == []
    ensures PostedCandidates(Started(config, verdicts)) == []
  {
    PostsSilently(NewSignaling(), JoinRoom, ForJoin, Malformed);
  }

  /** The frame that a request is meant to send. */
  function FrameMade(t: NetTask): Option<Frame> {
    match t.op
    case RegisterClient => Some(RegisterFrame)
    case RoomPost => Some(MessageFrame(t.text))
    case SocketSend => Some(MessageFrame(t.text))
    case _ => None
  }

  /** What is on the wire comes from the requests that have been run, some of whose frames may be missing. */
  ghost predicate FramesFit(s: Signaling) {
    |s.network| <= |s.log| && Within(s.wire, Collect(FrameMade, s.log[..|s.log| - |s.network|]))
  }

  lemma NetworkFrames(s: Signaling, t: Signaling)
    requires QueuesFit(s) && FramesFit(s) && s.network != [] && NetworkShape(s, t)
    ensures FramesFit(t)
  {
    hide QueuesFit, Within, Collect;
    HeadOfNetwork(s);
    var task := s.network[0];
    var run := s.log[..|s.log| - |s.network|];
    assert t.log[..|t.log| - |t.network|] == run + [task];
    CollectMore(FrameMade, run, task);
    if FrameMade(task).Some? {
      WithinMore(s.wire, Collect(FrameMade, run), FrameMade(task).value);
    }
  }

  lemma SameFrames(s: Signaling, t: Signaling)
    requires FramesFit(s) && t.wire == s.wire && s.log <= t.log && |t.network| - |t.log| == |s.network| - |s.log|
    ensures FramesFit(t)
  {
    assert t.log[..|t.log| - |t.network|] == s.log[..|s.log| - |s.network|];
    hide Within, Collect;
  }

  lemma ApplyFrames(e: Endpoint, ev: Event)
    requires Ordered(e) && Enabled(e, ev) && FramesFit(e.sig)
    ensures FramesFit(Apply(e, ev).sig)
  {
    hide Ordered, QueuesFit, FramesFit, RunCallback, RunNetworkTask, OnOperationDone, OnConnectionChange, OnFrame,
      OnTimer, OnLocalCandidate, SerializeIceCandidate, OnSocketOpen, OnSocketClose, OnSocketError, OnSocketMessage;
    OrderedQueues(e);
    match ev {
      case Network(o) =>
        NetworkHasShape(e.sig, o);
        NetworkFrames(e.sig, RunNetworkTask(e.sig, o));
      case Callback =>
        CallbackKeeps(e);
        CallbackQueues(e);
        SameFrames(e.sig, Apply(e, ev).sig);
      case SocketOpen =>
        SocketKeeps(e, ev);
        SameFrames(e.sig, Apply(e, ev).sig);
      case SocketClose =>
        SocketKeeps(e, ev);
        SameFrames(e.sig, Apply(e, ev).sig);
      case SocketError =>
        SocketKeeps(e, ev);
        SameFrames(e.sig, Apply(e, ev).sig);
      case SocketMessage(_) =>
        SocketKeeps(e, ev);
        SameFrames(e.sig, Apply(e, ev).sig);
      case _ =>
        ApplyEffect(e, ev);
        EffectKeeps(e, Apply(e, ev));
        EffectQueues(e, Apply(e, ev));
        SameFrames(e.sig, Apply(e, ev).sig);
    }
  }

  lemma {:induction false} RunFramesFit(config: AppConfig, verdicts: nat -> bool, events: seq<Event>)
    ensures FramesFit(Run(Started(config, verdicts), events).sig)
  {
    hide Ordered, Apply;
    if events == [] {
      assert Started(config, verdicts).sig.wire == [];
    } else {
      hide Started, FramesFit;
      RunFramesFit(config, verdicts, events[..|events| - 1]);
      RunOrdered(config, verdicts, events[..|events| - 1]);
      var e := Run(Started(config, verdicts), events[..|events| - 1]);
      if Enabled(e, Last(events)) {
        ApplyFrames(e, Last(events));
      }
    }
  }

  /** What leaves a peer is what it posted: the frames on the wire are those of the requests run so far, in posting
      order and none twice, with some possibly missing. */
  lemma FramesWerePosted(config: AppConfig, verdicts: nat -> bool, events: seq<Event>)
    ensures var s := Run(Started(config, verdicts), events).sig;
      |s.network| <= |s.log| && Within(s.wire, Collect(FrameMade, s.log[..|s.log| - |s.network|]))
  {
    hide Started, Apply, Within, Collect;
    RunFramesFit(config, verdicts, events);
  }
}
