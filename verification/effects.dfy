/** What a handler on the signaling thread may do to the queues: post at most one task, under conditions.
    The socket's open event and the answer to the bye, which do something else, are treated where they matter. */
module Effects {
  import opened Sequences
  import opened Common
  import opened PeerConnectionSpec
  import opened SignalingSpec
  import opened ControllerSpec
  import opened EndpointRuns
  import opened Lifecycle

  /** The answer to the join, the end of the call and its first reason are never taken back. */
  predicate Keeps(e: Endpoint, f: Endpoint) {
    && (e.ctl.joinResponse.Some? ==> f.ctl.joinResponse == e.ctl.joinResponse)
    && f.ctl.negotiation.ready == e.ctl.negotiation.ready
    && (e.thread.quit ==> f.thread.quit)
    && e.ctl.ending.attempts <= f.ctl.ending.attempts
    && (e.ctl.ending.finished ==> f.ctl.ending.finished)
  }

  /** The call went on, or ended, in both states. */
  predicate SameEnd(e: Endpoint, f: Endpoint) {
    && f.ctl.ending.finished == e.ctl.ending.finished
    && f.thread.quit == e.thread.quit
  }

  predicate ByLocal(e: Endpoint) {
    e.ctl.ending.finished && e.ctl.ending.attempts != [] && e.ctl.ending.attempts[0].LocalDurationReached?
  }

  predicate Joined(e: Endpoint) {
    e.ctl.joinResponse.Some?
  }

  /** The way a peer's messages go: an initiator's to the room server, the other peer's to the socket. */
  function Route(e: Endpoint): NetOp {
    if Initiator(e) then RoomPost else SocketSend
  }

  /** When a task of each kind is posted. */
  predicate MayPost(e: Endpoint, f: Endpoint, x: NetTask) {
    match x.purpose
    case ForJoin => false
    case ForRegister => false
    case ForDescription =>
      && x.op == Route(e) && f.ctl.negotiation.ready && SameEnd(e, f)
      && (exists op <- e.peer.operations :: op.SettingLocal? && op.json == x.text)
    case ForCandidate =>
      && x.op == Route(e)
      && f.ctl.negotiation.ready && !e.ctl.ending.finished && SameEnd(e, f) && Carries(x.text, Candidate)
    case ForBye =>
      && x.op == Route(e) && f.ctl.negotiation.ready
      && !e.ctl.ending.finished && !f.thread.quit && ByLocal(f) && x.text == ByeMessage()
    case NoReply =>
      x.text.Malformed? &&
      if x.op.ConnectWebSocket? then !Joined(e) && Joined(f) && !e.ctl.ending.finished && SameEnd(e, f)
      else
        && x.op.CloseSocket? && Joined(f) && !e.thread.quit && f.thread.quit
        && !e.ctl.ending.finished && !ByLocal(f)
  }

  predicate Quiet(e: Endpoint, f: Endpoint) {
    && f.sig == e.sig
    && Joined(f) == Joined(e)
    && (SameEnd(e, f) || (!Joined(e) && !e.ctl.ending.finished && !ByLocal(f) && f.thread.quit))
  }

  predicate Posts(e: Endpoint, f: Endpoint) {
    && |f.sig.log| == |e.sig.log| + 1
    && var x := Last(f.sig.log);
       f.sig == Submit(e.sig, x.op, x.purpose, x.text) && MayPost(e, f, x)
  }

  predicate Effect(e: Endpoint, f: Endpoint) {
    Keeps(e, f) && (Quiet(e, f) || Posts(e, f))
  }

  lemma FinishEffect(e: Endpoint, reason: TerminalReason)
    requires Alive(e) && !e.thread.quit
    requires reason.LocalDurationReached? && !e.ctl.ending.finished ==> e.ctl.negotiation.ready
    ensures Effect(e, Finish(e, reason)) && Finish(e, reason).ctl.ending.finished
    ensures Quiet(e, Finish(e, reason)) || !SameEnd(e, Finish(e, reason))
  {
    hide ByeMessage, Carries;
  }

  lemma StartRemoteEffect(e: Endpoint, t: SdpType, m: Message)
    requires Alive(e) && CanPump(e)
    ensures Effect(e, StartRemote(e, t, m))
    ensures StartRemote(e, t, m).ctl.ending.finished || Quiet(e, StartRemote(e, t, m))
  {
    hide Finish;
    var f := e.(ctl := SetInFlight(e.ctl.(state := Negotiating), true));
    var (p, parsed) := SetRemote(f.peer, t, m);
    if !parsed {
      FinishEffect(f.(peer := p, ctl := SetInFlight(f.ctl, false)), PeerConnectionError);
    }
  }

  lemma DispatchEffect(e: Endpoint, m: Message)
    requires Alive(e) && CanPump(e)
    ensures Effect(e, Dispatch(e, m))
    ensures Dispatch(e, m).ctl.ending.finished || Quiet(e, Dispatch(e, m))
  {
    hide Finish, StartRemote, AddRemoteCandidate, Effect, Quiet;
    match m.kind
    case Bye =>
      FinishEffect(e, if e.ctl.media.established then RemoteByeAfterEstablished else RemoteByeBeforeEstablished);
    case Candidate =>
      CandidateEffect(e, m);
    case Answer => StartRemoteEffect(e, SdpAnswer, m);
    case Offer => StartRemoteEffect(e, SdpOffer, m);
    case Unknown => FinishEffect(e, SignalingError);
  }

  lemma CandidateEffect(e: Endpoint, m: Message)
    requires Alive(e) && CanPump(e)
    ensures var (p, ok) := AddRemoteCandidate(e.peer, m);
      var f := e.(peer := p);
      if ok then Quiet(e, f) && Effect(e, f)
      else Effect(e, Finish(f, PeerConnectionError)) && Finish(f, PeerConnectionError).ctl.ending.finished
  {
    hide Finish;
    var (p, ok) := AddRemoteCandidate(e.peer, m);
    if !ok {
      FinishEffect(e.(peer := p), PeerConnectionError);
    }
  }

  lemma ActEffect(e: Endpoint)
    requires Alive(e) && HasWork(e)
    ensures Effect(e, Act(e))
    ensures Act(e).ctl.ending.finished || Quiet(e, Act(e))
  {
    hide Dispatch;
    if e.ctl.inbox.pending != [] {
      DispatchAlive(Taken(e), e.ctl.inbox.pending[0]);
      DispatchEffect(Taken(e), e.ctl.inbox.pending[0]);
    }
  }

  /** However many turns the pump takes, at most its last one posts a task. */
  lemma {:induction false} PumpEffect(e: Endpoint)
    requires Alive(e)
    ensures Effect(e, Pump(e)) && (Quiet(e, Pump(e)) || !SameEnd(e, Pump(e)))
    decreases Work(e)
  {
    if HasWork(e) {
      ActEffect(e);
      ActAlive(e);
      hide Act, Alive, MayPost;
      if !Act(e).ctl.ending.finished {
        PumpEffect(Act(e));
      }
    }
  }

  lemma JoinCompleteEffect(e: Endpoint, response: Option<JoinResponse>)
    requires Alive(e) && !e.thread.quit && !Joined(e)
    ensures Effect(e, OnJoinComplete(e, response))
  {
    hide JoinQueue;
  }

  lemma OperationDoneEffect(e: Endpoint, i: nat, ok: bool, sdp: string)
    requires Alive(e) && !e.thread.quit && i < |e.peer.operations|
    ensures Effect(e, OnOperationDone(e, i, ok, sdp))
  {
    hide Pump, Finish, CompleteOperation;
    var (p, reply) := CompleteOperation(e.peer, i, ok, sdp);
    OperationFrame(e.peer, i, ok, sdp);
    var f := e.(peer := p, ctl := SetInFlight(e.ctl, false));
    match reply
    case Chained =>
    case ActionFailed => FinishEffect(f, PeerConnectionError);
    case RemoteAnswerSet => PumpEffect(f);
    case LocalDescriptionReady(_) => assert e.peer.operations[i] in e.peer.operations;
  }

  lemma DoneEffect(e: Endpoint, purpose: Purpose, ok: bool)
    requires Alive(e) && !e.thread.quit
    requires purpose.ForRegister? && ok && !e.ctl.ending.finished ==> e.ctl.negotiation.ready
    requires !purpose.ForBye?
    ensures Effect(e, OnDone(e, purpose, ok))
  {
    hide Pump, Finish;
    match purpose
    case ForRegister =>
      PumpEffect(e);
      FinishEffect(e, SignalingError);
    case ForDescription =>
      PumpEffect(e.(ctl := SetInFlight(e.ctl, false)));
      FinishEffect(e.(ctl := SetInFlight(e.ctl, false)), SignalingError);
    case ForCandidate => FinishEffect(e, SignalingError);
    case ForJoin =>
    case NoReply =>
  }

  predicate ByeAnswered(c: CallbackTask) {
    c.Done? && c.task.purpose.ForBye?
  }

  /** The register request was answered, and with success. */
  predicate Registered(c: CallbackTask) {
    c.Done? && c.task.purpose.ForRegister? && c.ok
  }

  /** The state in which the task taken from the callback queue runs; success of the registration opens the pump. */
  function Took(e: Endpoint): Endpoint
    requires e.sig.callbacks != []
  {
    var ready := e.ctl.negotiation.ready || (Registered(e.sig.callbacks[0]) && !e.ctl.ending.finished);
    e.(sig := TakeCallback(e.sig), ctl := e.ctl.(negotiation := e.ctl.negotiation.(ready := ready)))
  }

  lemma TookRuns(e: Endpoint)
    requires Alive(e) && !e.thread.quit && HeadFits(e)
    ensures Alive(Took(e))
    ensures e.sig.callbacks[0].Done? ==>
      RunCallback(e) == OnDone(Took(e), e.sig.callbacks[0].task.purpose, e.sig.callbacks[0].ok)
  {
    hide Pump, Finish;
  }

  lemma CallbackEffect(e: Endpoint)
    requires Alive(e) && !e.thread.quit && HeadFits(e)
    requires !e.sig.callbacks[0].Opened? && !ByeAnswered(e.sig.callbacks[0])
    ensures Effect(Took(e), RunCallback(e))
  {
    TookRuns(e);
    hide Pump, Finish, OnDone, OnJoinComplete;
    var f := Took(e);
    match e.sig.callbacks[0]
    case Inbound(m) => PumpEffect(Enqueued(f, m));
    case ErrorNotice => FinishEffect(f, SignalingError);
    case JoinDone(_, response) => JoinCompleteEffect(f, response);
    case Done(task, ok) => DoneEffect(f, task.purpose, ok);
  }

  lemma ConnectionChangeEffect(e: Endpoint, st: ConnectionState)
    requires Alive(e) && Enabled(e, ConnectionChange(st))
    ensures Effect(e, OnConnectionChange(e, st))
  {
    hide Finish;
    ConnectionEdgeAlive(e, st);
    FinishEffect(OnConnectionEdge(e, st), PeerConnectionError);
  }

  lemma TimerEffect(e: Endpoint, i: nat)
    requires Alive(e) && !e.thread.quit && i < |e.thread.timers|
    ensures Effect(e, OnTimer(e, i))
  {
    hide Finish;
    var f := e.(thread := e.thread.(timers := Without(e.thread.timers, i)));
    FinishEffect(f, StartupTimeout);
    if e.ctl.media.established {
      FinishEffect(f, LocalDurationReached);
    }
  }

  predicate OnSignalingThread(ev: Event) {
    ev.OperationDone? || ev.LocalCandidate? || ev.ConnectionChange? || ev.VideoFrame? || ev.TimerFires?
    || ev.ClockAdvances?
  }

  lemma ApplyEffect(e: Endpoint, ev: Event)
    requires Alive(e) && Enabled(e, ev) && OnSignalingThread(ev)
    ensures Effect(e, Apply(e, ev))
  {
    hide RunCallback, OnOperationDone, OnConnectionChange, OnTimer, SerializeIceCandidate, Carries,
      ParseSignalingMessage;
    match ev
    case LocalCandidate(candidate, mid, mline) => SerializedTextsParse(SdpOffer, "", candidate, mid, mline);
    case OperationDone(i, ok, sdp) => OperationDoneEffect(e, i, ok, sdp);
    case ConnectionChange(st) => ConnectionChangeEffect(e, st);
    case TimerFires(i) => TimerEffect(e, i);
    case _ =>
  }
}
