/** How a call ends: the flags, the phase, the exit code and the quit request of every reachable state. */
module Lifecycle {
  import opened Sequences
  import opened Common
  import opened PeerConnectionSpec
  import opened SignalingSpec
  import opened ControllerSpec
  import opened EndpointRuns

  predicate ReasonFits(c: Controller, reason: TerminalReason) {
    match reason
    case LocalDurationReached => c.media.established
    case RemoteByeAfterEstablished => c.media.established
    case RemoteByeBeforeEstablished => !c.media.established
    case StartupTimeout => !c.media.established
    case _ => true
  }

  predicate EndingFits(e: Endpoint) {
    var x := e.ctl.ending;
    && (x.finished <==> x.attempts != [])
    && (x.finished <==> e.ctl.state.Stopping? || e.ctl.state.Finished?)
    && (e.thread.quit <==> e.ctl.state.Finished?)
    && x.completions == Bit(e.thread.quit)
    && x.exitCode == (if e.thread.quit && x.finished then ExitCodeForReason(x.attempts[0]) else RuntimeFailed)
    && (e.ctl.state.InCall? ==> e.ctl.media.established)
    && (x.finished ==> ReasonFits(e.ctl, x.attempts[0]))
    && !e.ctl.state.Starting?
  }

  /** Nothing has happened to the peer client before the join. */
  predicate Untouched(p: Peer) {
    p.reports == Reports(false, false, []) && p.remote == RemoteSide(false, [], [], [], false, [])
  }

  /** A connection that is not open is as it was before it was opened, but for its history. */
  predicate Reset(p: Peer) {
    && p.operations == [] && !p.remote.descriptionSet && p.remote.pending == []
    && !p.reports.connected && !p.reports.mediaSeen
  }

  /** Which parts exist when: the connection, the negotiation, its flags. */
  predicate PartsFit(e: Endpoint) {
    var x := e.ctl.ending;
    var n := e.ctl.negotiation;
    var joined := e.ctl.joinResponse.Some?;
    && (e.peer.open ==> joined && !e.thread.quit)
    && (joined && !x.finished ==> e.peer.open)
    && (x.finished && !e.thread.quit ==> e.peer.open && x.attempts != [] && x.attempts[0].LocalDurationReached?)
    && (!joined ==> Untouched(e.peer) && e.ctl.inbox.pending == [] && e.ctl.inbox.dispatched == [])
    && (!e.peer.open ==> Reset(e.peer))
    && (e.peer.operations != [] ==> e.peer.calls != [])
    && (n.ready ==> joined)
    && (n.inFlight || n.offerStarted || e.peer.calls != [] ==> n.ready)
    && (n.offerStarted ==> Initiator(e))
    && (e.peer.reports.connected || e.ctl.media.established ==>
          LocalDescriptionStarted(e.peer) && RemoteDescriptionStarted(e.peer))
    && (!x.finished ==> e.ctl.media.connected == e.peer.reports.connected)
    && (!x.finished ==> e.ctl.media.mediaSeen == e.peer.reports.mediaSeen)
  }

  predicate Alive(e: Endpoint) {
    EndingFits(e) && PartsFit(e)
  }

  lemma FinishAlive(e: Endpoint, reason: TerminalReason)
    requires Alive(e) && !e.thread.quit && ReasonFits(e.ctl, reason)
    requires reason.LocalDurationReached? && !e.ctl.ending.finished ==> e.ctl.joinResponse.Some?
    ensures Alive(Finish(e, reason))
  {
  }

  lemma StartRemoteAlive(e: Endpoint, t: SdpType, m: Message)
    requires Alive(e) && CanPump(e)
    ensures Alive(StartRemote(e, t, m))
  {
    hide Finish;
    var f := e.(ctl := SetInFlight(e.ctl.(state := Negotiating), true));
    var (p, parsed) := SetRemote(f.peer, t, m);
    if !parsed {
      FinishAlive(f.(peer := p, ctl := SetInFlight(f.ctl, false)), PeerConnectionError);
    }
  }

  lemma DispatchAlive(e: Endpoint, m: Message)
    requires Alive(e) && CanPump(e)
    ensures Alive(Dispatch(e, m))
  {
    hide Finish, StartRemote;
    match m.kind
    case Bye =>
      FinishAlive(e, if e.ctl.media.established then RemoteByeAfterEstablished else RemoteByeBeforeEstablished);
    case Candidate =>
      var (p, ok) := AddRemoteCandidate(e.peer, m);
      if !ok {
        FinishAlive(e.(peer := p), PeerConnectionError);
      }
    case Answer => StartRemoteAlive(e, SdpAnswer, m);
    case Offer => StartRemoteAlive(e, SdpOffer, m);
    case Unknown => FinishAlive(e, SignalingError);
  }

  lemma ActAlive(e: Endpoint)
    requires Alive(e) && HasWork(e)
    ensures Alive(Act(e)) && Work(Act(e)) < Work(e)
  {
    hide Dispatch;
    if e.ctl.inbox.pending != [] {
      DispatchAlive(Taken(e), e.ctl.inbox.pending[0]);
      DispatchKeepsWork(Taken(e), e.ctl.inbox.pending[0]);
    }
  }

  lemma {:induction false} PumpAlive(e: Endpoint)
    requires Alive(e)
    ensures Alive(Pump(e))
    decreases Work(e)
  {
    hide Act, Alive;
    if HasWork(e) {
      ActAlive(e);
      PumpAlive(Act(e));
    }
  }

  lemma JoinCompleteAlive(e: Endpoint, response: Option<JoinResponse>)
    requires Alive(e) && !e.thread.quit && e.ctl.joinResponse.None?
    ensures Alive(OnJoinComplete(e, response))
  {
    hide JoinQueue;
  }

  /** Calls once made stay made. */
  lemma DescriptionsStay(p: Peer, q: Peer)
    requires p.calls <= q.calls
    ensures LocalDescriptionStarted(p) ==> LocalDescriptionStarted(q)
    ensures RemoteDescriptionStarted(p) ==> RemoteDescriptionStarted(q)
  {
    assert forall c <- p.calls :: c in q.calls;
  }

  lemma OperationDoneAlive(e: Endpoint, i: nat, ok: bool, sdp: string)
    requires Alive(e) && !e.thread.quit && i < |e.peer.operations|
    ensures Alive(OnOperationDone(e, i, ok, sdp))
  {
    hide Pump, Finish, CompleteOperation;
    var (p, reply) := CompleteOperation(e.peer, i, ok, sdp);
    OperationFrame(e.peer, i, ok, sdp);
    DescriptionsStay(e.peer, p);
    hide LocalDescriptionStarted, RemoteDescriptionStarted;
    var f := e.(peer := p, ctl := SetInFlight(e.ctl, false));
    match reply
    case Chained =>
    case ActionFailed => FinishAlive(f, PeerConnectionError);
    case RemoteAnswerSet => PumpAlive(f);
    case LocalDescriptionReady(_) =>
  }

  lemma DoneAlive(e: Endpoint, purpose: Purpose, ok: bool)
    requires Alive(e) && !e.thread.quit
    requires purpose.ForRegister? ==> e.ctl.joinResponse.Some?
    requires purpose.ForBye? ==> e.ctl.ending.finished
    ensures Alive(OnDone(e, purpose, ok))
  {
    hide Pump, Finish;
    match purpose
    case ForRegister =>
      PumpAlive(e.(ctl := e.ctl.(negotiation := e.ctl.negotiation.(ready := true))));
      FinishAlive(e, SignalingError);
    case ForDescription =>
      PumpAlive(e.(ctl := SetInFlight(e.ctl, false)));
      FinishAlive(e.(ctl := SetInFlight(e.ctl, false)), SignalingError);
    case ForCandidate => FinishAlive(e, SignalingError);
    case ForBye =>
    case ForJoin =>
    case NoReply =>
  }

  /** What the queues guarantee about the task at the head of the callback queue. */
  predicate HeadFits(e: Endpoint) {
    e.sig.callbacks != [] &&
    match e.sig.callbacks[0]
    case JoinDone(_, _) => e.ctl.joinResponse.None?
    case Inbound(_) => e.ctl.joinResponse.Some?
    case Done(task, _) =>
      && (task.purpose.ForRegister? ==> e.ctl.joinResponse.Some?)
      && (task.purpose.ForBye? ==> e.ctl.ending.finished)
    case _ => true
  }

  lemma CallbackAlive(e: Endpoint)
    requires Alive(e) && !e.thread.quit && HeadFits(e)
    ensures Alive(RunCallback(e))
  {
    hide Pump, Finish, OnDone, OnJoinComplete;
    var f := e.(sig := TakeCallback(e.sig));
    match e.sig.callbacks[0]
    case Opened =>
    case Inbound(m) => PumpAlive(Enqueued(f, m));
    case ErrorNotice => FinishAlive(f, SignalingError);
    case JoinDone(_, response) => JoinCompleteAlive(f, response);
    case Done(task, ok) => DoneAlive(f, task.purpose, ok);
  }

  lemma ConnectionEdgeAlive(e: Endpoint, st: ConnectionState)
    requires Alive(e) && Enabled(e, ConnectionChange(st))
    ensures Alive(OnConnectionEdge(e, st)) && !OnConnectionEdge(e, st).thread.quit
  {
  }

  lemma ConnectionChangeAlive(e: Endpoint, st: ConnectionState)
    requires Alive(e) && Enabled(e, ConnectionChange(st))
    ensures Alive(OnConnectionChange(e, st))
  {
    hide Finish, OnConnectionEdge;
    ConnectionEdgeAlive(e, st);
    FinishAlive(OnConnectionEdge(e, st), PeerConnectionError);
  }

  lemma TimerAlive(e: Endpoint, i: nat)
    requires Alive(e) && !e.thread.quit && i < |e.thread.timers|
    ensures Alive(OnTimer(e, i))
  {
    hide Finish;
    var f := e.(thread := e.thread.(timers := Without(e.thread.timers, i)));
    if e.ctl.media.established {
      FinishAlive(f, LocalDurationReached);
    } else {
      FinishAlive(f, StartupTimeout);
    }
  }

  lemma SocketAlive(e: Endpoint, s: Signaling)
    requires Alive(e)
    ensures Alive(e.(sig := s))
  {
  }

  lemma ApplyAlive(e: Endpoint, ev: Event)
    requires Alive(e) && Enabled(e, ev)
    requires ev.Callback? ==> HeadFits(e)
    ensures Alive(Apply(e, ev))
  {
    hide RunCallback, OnOperationDone, OnConnectionChange, OnTimer, SerializeIceCandidate;
    match ev
    case Callback => CallbackAlive(e);
    case OperationDone(i, ok, sdp) => OperationDoneAlive(e, i, ok, sdp);
    case ConnectionChange(st) => ConnectionChangeAlive(e, st);
    case TimerFires(i) => TimerAlive(e, i);
    case LocalCandidate(_, _, _) =>
    case VideoFrame =>
    case ClockAdvances(_) =>
    case _ => SocketAlive(e, Apply(e, ev).sig);
  }
}
