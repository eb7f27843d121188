/** The phase of a call that goes on, read off what has happened. */
module PhaseHistory {
  import opened Sequences
  import opened Common
  import opened PeerConnectionSpec
  import opened SignalingSpec
  import opened ControllerSpec
  import opened EndpointRuns
  import opened Lifecycle
  import opened Queues
  import opened Effects
  import opened WireOrder
  import opened Flight
  import opened Messages
  import opened RelayTexts
  import opened Watchdog
  import opened Phases

  /** The phase, by the join, the registration and the calls of the negotiation. */
  predicate PhaseFits(e: Endpoint) {
    var registered := Count(IsRegister, e.sig.log);
    !e.ctl.ending.finished ==>
      match e.ctl.state
      case JoiningRoom => !Joined(e)
      case ConnectingSocket => Joined(e) && registered == 0
      case Registering => Joined(e) && registered == 1 && e.peer.calls == []
      case Negotiating => e.peer.calls != []
      case InCall => e.peer.calls != []
      case _ => false
  }

  /** The call ends, or its phase stays, or a negotiation action begins. */
  predicate Onward(e: Endpoint, f: Endpoint) {
    && (e.ctl.ending.finished ==> f.ctl.ending.finished)
    && (!f.ctl.ending.finished ==>
          && f.ctl.joinResponse == e.ctl.joinResponse && f.ctl.media == e.ctl.media
          && if f.peer.calls == [] then f.ctl.state == e.ctl.state && e.peer.calls == []
             else f.ctl.state == Negotiating || (f.ctl.state == e.ctl.state && e.peer.calls != []))
  }

  lemma OnwardFits(e: Endpoint, f: Endpoint)
    requires PhaseFits(e) && Onward(e, f) && Count(IsRegister, f.sig.log) == Count(IsRegister, e.sig.log)
    ensures PhaseFits(f)
  {
    hide Count;
  }

  lemma EffectRegisters(e: Endpoint, f: Endpoint)
    requires Effect(e, f)
    ensures Count(IsRegister, f.sig.log) == Count(IsRegister, e.sig.log)
  {
    hide Count;
    if Posts(e, f) {
      CountMore(IsRegister, e.sig.log, Last(f.sig.log));
    }
  }

  lemma ActOnward(e: Endpoint)
    requires HasWork(e)
    ensures Onward(e, Act(e))
  {
    hide Finish, AddCandidate;
    if e.ctl.inbox.pending != [] {
      var t := Taken(e);
      var m := e.ctl.inbox.pending[0];
      AskedToFinish(t, RemoteByeAfterEstablished);
      AskedToFinish(t, RemoteByeBeforeEstablished);
      AskedToFinish(t, SignalingError);
      AskedToFinish(t.(peer := AddRemoteCandidate(t.peer, m).0), PeerConnectionError);
      var f := t.(ctl := SetInFlight(t.ctl.(state := Negotiating), false));
      AskedToFinish(f.(peer := SetRemote(t.peer, SdpOffer, m).0), PeerConnectionError);
      AskedToFinish(f.(peer := SetRemote(t.peer, SdpAnswer, m).0), PeerConnectionError);
    }
  }

  lemma OnwardTwice(e: Endpoint, f: Endpoint, g: Endpoint)
    requires Onward(e, f) && Onward(f, g)
    ensures Onward(e, g)
  {
  }

  lemma {:induction false} PumpOnward(e: Endpoint)
    requires Alive(e)
    ensures Onward(e, Pump(e))
    decreases Work(e)
  {
    hide Act, Alive;
    if HasWork(e) {
      ActOnward(e);
      ActAlive(e);
      PumpOnward(Act(e));
      OnwardTwice(e, Act(e), Pump(e));
    }
  }

  lemma OperationOnward(e: Endpoint, i: nat, ok: bool, sdp: string)
    requires Alive(e) && !e.thread.quit && i < |e.peer.operations|
    ensures Onward(e, OnOperationDone(e, i, ok, sdp))
  {
    hide Pump, Finish, CompleteOperation, EndingFits;
    var (p, reply) := CompleteOperation(e.peer, i, ok, sdp);
    OperationFrame(e.peer, i, ok, sdp);
    var f := e.(peer := p, ctl := SetInFlight(e.ctl, false));
    match reply
    case Chained =>
    case ActionFailed => AskedToFinish(f, PeerConnectionError);
    case RemoteAnswerSet =>
      AliveIdle(e, p);
      PumpOnward(f);
    case LocalDescriptionReady(_) =>
  }

  lemma DoneOnward(e: Endpoint, purpose: Purpose, ok: bool)
    requires Alive(e) && (purpose.ForBye? ==> e.ctl.ending.finished)
    requires purpose.ForRegister? && ok && !e.ctl.ending.finished ==> e.ctl.negotiation.ready
    ensures Onward(e, OnDone(e, purpose, ok))
  {
    hide Pump, Finish;
    var f := e.(ctl := SetInFlight(e.ctl, false));
    match purpose
    case ForRegister =>
      PumpOnward(e);
      AskedToFinish(e, SignalingError);
    case ForDescription =>
      PumpOnward(f);
      AskedToFinish(f, SignalingError);
    case ForCandidate => AskedToFinish(e, SignalingError);
    case _ =>
  }

  /** The join: the phase follows it. */
  lemma JoinPhase(e: Endpoint, response: Option<JoinResponse>)
    requires e.sig.log != [] && !Joined(e) && PhaseFits(e) && Count(IsRegister, e.sig.log) == 0
    ensures PhaseFits(OnJoinComplete(e, response))
  {
    hide Finish, JoinQueue, Count;
    CountMore(IsRegister, e.sig.log, Last(Submit(e.sig, ConnectWebSocket, NoReply, Malformed).log));
    AskedToFinish(e, SignalingError);
    var f := e.(ctl := e.ctl.(joinResponse := response));
    AskedToFinish(f.(peer := Initialize(f.peer).0), PeerConnectionError);
    AskedToFinish(f.(peer := StartMedia(Initialize(f.peer).0).0), MediaError);
  }

  /** The first open event: the phase follows the registration. */
  lemma OpenedPhase(e: Endpoint)
    requires Ordered(e) && Enabled(e, Callback) && e.sig.callbacks[0].Opened? && PhaseFits(e)
    ensures PhaseFits(RunCallback(e))
  {
    hide QueuesFit, LogFits, LinkFits, ByeFits, Count, EndingFits;
    var t := Took(e);
    if !e.ctl.ending.finished {
      if e.peer.calls != [] {
        RegisteredBefore(e);
      }
      CountMore(IsRegister, e.sig.log, Last(Submit(t.sig, RegisterClient, ForRegister, Malformed).log));
    }
  }

  lemma NoneRegistered(e: Endpoint)
    requires Ordered(e) && !Joined(e)
    ensures e.sig.log != [] && Count(IsRegister, e.sig.log) == 0
  {
    hide Alive, QueuesFit, LinkFits, RegistersFit, WireFits, ByeFits, Count, CloseFits, IsMessage;
    JoinRegistersNone(e.sig.log);
  }

  lemma JoinRegistersNone(log: seq<NetTask>)
    requires JoinFirst(log)
    ensures |log| == 1 ==> Count(IsRegister, log) == 0
  {
    CountNone(IsRegister, log);
    hide Count;
  }

  lemma CallbackPhaseFits(e: Endpoint)
    requires Ordered(e) && Enabled(e, Callback) && PhaseFits(e)
    ensures PhaseFits(RunCallback(e))
  {
    hide Ordered, Pump, Finish, OnDone, OnJoinComplete, Effect, Onward, PhaseFits;
    OrderedQueues(e);
    CallbackHead(e);
    TookRuns(e);
    TookPhase(e);
    var t := Took(e);
    match e.sig.callbacks[0]
    case Opened => OpenedPhase(e);
    case Inbound(m) =>
      CallbackEffect(e);
      EffectRegisters(t, RunCallback(e));
      EnqueuedOnward(t, m);
      OnwardFits(t, RunCallback(e));
    case ErrorNotice =>
      CallbackEffect(e);
      EffectRegisters(t, RunCallback(e));
      NoticeOnward(t);
      OnwardFits(t, RunCallback(e));
    case JoinDone(_, response) =>
      NoneRegistered(e);
      JoinPhase(t, response);
    case Done(task, ok) =>
      DoneOnward(t, task.purpose, ok);
      DoneRegisters(e);
      OnwardFits(t, RunCallback(e));
  }

  lemma DoneRegisters(e: Endpoint)
    requires Ordered(e) && Enabled(e, Callback) && e.sig.callbacks[0].Done?
    ensures Count(IsRegister, RunCallback(e).sig.log) == Count(IsRegister, e.sig.log)
  {
    hide Ordered, RunCallback, Effect, Count;
    OrderedQueues(e);
    CallbackHead(e);
    if ByeAnswered(e.sig.callbacks[0]) {
      ByeRegisters(e);
    } else {
      CallbackEffect(e);
      EffectRegisters(Took(e), RunCallback(e));
    }
  }

  lemma ByeRegisters(e: Endpoint)
    requires e.sig.callbacks != [] && ByeAnswered(e.sig.callbacks[0])
    ensures Count(IsRegister, RunCallback(e).sig.log) == Count(IsRegister, e.sig.log)
  {
    hide Count;
    CountMore(IsRegister, e.sig.log, Last(Submit(Took(e).sig, CloseSocket, NoReply, Malformed).log));
  }

  lemma TookPhase(e: Endpoint)
    requires PhaseFits(e) && e.sig.callbacks != []
    ensures PhaseFits(Took(e))
  {
    hide Count;
  }

  lemma EnqueuedOnward(e: Endpoint, m: Message)
    requires Alive(e) && Joined(e)
    ensures Onward(e, OnInbound(e, m))
  {
    hide Pump;
    if !e.ctl.ending.finished {
      PumpOnward(Enqueued(e, m));
    }
  }

  lemma NoticeOnward(e: Endpoint)
    ensures Onward(e, OnError(e, SignalingError))
  {
    hide Finish;
    AskedToFinish(e, SignalingError);
  }

  /** A report that establishes the call makes it connected, and any other leaves the phase. */
  lemma ReportPhaseFits(e: Endpoint, st: ConnectionState)
    requires Alive(e) && PhaseFits(e) && Enabled(e, ConnectionChange(st))
    ensures PhaseFits(OnConnectionChange(e, st)) && PhaseFits(OnFrame(e))
  {
    hide Finish, Count;
    AskedToFinish(OnConnectionEdge(e, st), PeerConnectionError);
    if !e.ctl.ending.finished && e.ctl.media.connected {
      assert e.peer.calls != [];
    }
  }

  lemma TimerOnward(e: Endpoint, i: nat)
    requires i < |e.thread.timers|
    ensures OnTimer(e, i).sig.log == e.sig.log || OnTimer(e, i).ctl.ending.finished
    ensures Onward(e, OnTimer(e, i))
  {
    hide Finish;
    var f := e.(thread := e.thread.(timers := Without(e.thread.timers, i)));
    AskedToFinish(f, StartupTimeout);
    AskedToFinish(f, LocalDurationReached);
  }

  lemma ThreadPhaseFits(e: Endpoint, ev: Event)
    requires Ordered(e) && Enabled(e, ev) && PhaseFits(e) && (ev.OperationDone? || ev.LocalCandidate? || ev.TimerFires?)
    ensures PhaseFits(Apply(e, ev))
  {
    hide Ordered, Effect, OnOperationDone, OnTimer, SerializeIceCandidate, Onward, PhaseFits;
    OrderedQueues(e);
    ApplyEffect(e, ev);
    EffectRegisters(e, Apply(e, ev));
    match ev {
      case OperationDone(i, ok, sdp) => OperationOnward(e, i, ok, sdp);
      case TimerFires(i) => TimerOnward(e, i);
      case LocalCandidate(candidate, mid, mline) => SentOnward(e, SerializeIceCandidate(candidate, mid, mline));
    }
    OnwardFits(e, Apply(e, ev));
  }

  lemma SentOnward(e: Endpoint, text: Text)
    ensures Onward(e, OnLocalCandidate(e, text))
  {
  }

  lemma SourcesPhase(e: Endpoint, s: Signaling)
    requires PhaseFits(e) && s.log == e.sig.log
    ensures PhaseFits(e.(sig := s))
  {
    hide Count;
  }

  lemma ClockPhase(e: Endpoint, to: nat)
    requires PhaseFits(e)
    ensures PhaseFits(e.(thread := e.thread.(now := to)))
  {
    hide Count;
  }

  lemma ApplyPhaseFits(e: Endpoint, ev: Event)
    requires Ordered(e) && Enabled(e, ev) && PhaseFits(e)
    ensures PhaseFits(Apply(e, ev))
  {
    hide Ordered, QueuesFit, PhaseFits, RunCallback, RunNetworkTask, OnOperationDone, OnConnectionChange, OnFrame,
      OnTimer, OnLocalCandidate, SerializeIceCandidate, ParseSignalingMessage;
    OrderedQueues(e);
    match ev
    case Network(o) =>
      NetworkHasShape(e.sig, o);
      SourcesPhase(e, Apply(e, ev).sig);
    case Callback => CallbackPhaseFits(e);
    case ConnectionChange(st) => ReportPhaseFits(e, st);
    case VideoFrame => ReportPhaseFits(e, NewState);
    case ClockAdvances(to) => ClockPhase(e, to);
    case OperationDone(_, _, _) => ThreadPhaseFits(e, ev);
    case LocalCandidate(_, _, _) => ThreadPhaseFits(e, ev);
    case TimerFires(_) => ThreadPhaseFits(e, ev);
    case SocketOpen => SourcesPhase(e, Apply(e, ev).sig);
    case SocketClose => SourcesPhase(e, Apply(e, ev).sig);
    case SocketError => SourcesPhase(e, Apply(e, ev).sig);
    case SocketMessage(_) => SourcesPhase(e, Apply(e, ev).sig);
  }

  lemma StartedPhase(config: AppConfig, verdicts: nat -> bool)
    ensures PhaseFits(Started(config, verdicts))
  {
  }

  lemma {:induction false} RunPhase(config: AppConfig, verdicts: nat -> bool, events: seq<Event>)
    ensures PhaseFits(Run(Started(config, verdicts), events))
  {
    hide Ordered, Apply, Started, PhaseFits;
    if events == [] {
      StartedPhase(config, verdicts);
    } else {
      RunPhase(config, verdicts, events[..|events| - 1]);
      RunOrdered(config, verdicts, events[..|events| - 1]);
      var e := Run(Started(config, verdicts), events[..|events| - 1]);
      if Enabled(e, Last(events)) {
        ApplyPhaseFits(e, Last(events));
      }
    }
  }

  /** The phase of a call that goes on tells, exactly, how far it has come: joining the room until the join has
      succeeded, connecting until the registration is posted, registering until the first call of the negotiation is
      made, and from then on negotiating or connected. */
  lemma PhaseByHistory(config: AppConfig, verdicts: nat -> bool, events: seq<Event>)
    ensures var e := Run(Started(config, verdicts), events);
      var registered := Count(IsRegister, e.sig.log);
      !e.ctl.ending.finished ==>
        && (e.ctl.state == JoiningRoom <==> !Joined(e))
        && (e.ctl.state == ConnectingSocket <==> Joined(e) && registered == 0)
        && (e.ctl.state == Registering <==> registered == 1 && e.peer.calls == [])
        && (e.ctl.state == Negotiating || e.ctl.state == InCall <==> e.peer.calls != [])
  {
    hide Started, Apply, QueuesFit, LogFits, LinkFits, RegistersFit, ByeFits, Count;
    RunPhase(config, verdicts, events);
    RunOrdered(config, verdicts, events);
    var e := Run(Started(config, verdicts), events);
    if e.peer.calls != [] {
      RegisteredBefore(e);
    }
    if !Joined(e) {
      NoneRegistered(e);
    }
  }

  /** The connected phase is entered by exactly the event that establishes the call. */
  lemma ConnectedWhenEstablished(config: AppConfig, verdicts: nat -> bool, events: seq<Event>, ev: Event)
    requires Enabled(Run(Started(config, verdicts), events), ev)
    requires !Established(Run(Started(config, verdicts), events))
    ensures var f := Apply(Run(Started(config, verdicts), events), ev); f.ctl.state == InCall <==> Established(f)
  {
    hide Started, Apply, Enabled, QueuesFit, LogFits, LinkFits, WireFits, RegistersFit, ByeFits, PartsFit;
    RunOrdered(config, verdicts, events);
    ApplyOrdered(Run(Started(config, verdicts), events), ev);
    ApplyTimely(Run(Started(config, verdicts), events), ev);
  }
}
