/** One negotiation action at a time, and no message left waiting without one. */
module Flight {
  import opened Sequences
  import opened Common
  import opened PeerConnectionSpec
  import opened SignalingSpec
  import opened ControllerSpec
  import opened EndpointRuns
  import opened Lifecycle
  import opened Queues
  import opened Effects
  import opened WireOrder

  predicate IsDescription(t: NetTask) {
    t.purpose.ForDescription?
  }

  /** Descriptions being sent: posted, with the callback not yet run. */
  function DescriptionsOut(s: Signaling): nat {
    Count(IsDescription, Collect(Answered, s.callbacks)) + Count(IsDescription, s.network)
  }

  lemma DescriptionsOutByHistory(s: Signaling)
    requires QueuesFit(s)
    ensures Count(IsDescription, s.log) == Count(IsDescription, s.delivered) + DescriptionsOut(s)
  {
    FilterTwice(IsDescription, HasReply, s.log);
    FilterTwice(IsDescription, HasReply, s.network);
    FilterAppend(IsDescription, s.delivered, Collect(Answered, s.callbacks));
    FilterAppend(IsDescription, s.delivered + Collect(Answered, s.callbacks), Filter(HasReply, s.network));
  }

  /** While the call has not quit, the flag counts the outstanding continuations of the negotiation. */
  predicate FlightFits(e: Endpoint) {
    e.thread.quit ||
    |e.peer.operations| + Count(IsDescription, e.sig.log)
      == Count(IsDescription, e.sig.delivered) + Bit(e.ctl.negotiation.inFlight)
  }

  lemma FinishFlight(e: Endpoint, reason: TerminalReason)
    requires FlightFits(e)
    ensures FlightFits(Finish(e, reason)) && !HasWork(Finish(e, reason))
  {
    hide Count, ByeMessage;
    var f := Finish(e, reason);
    if f.sig.log != e.sig.log {
      CountMore(IsDescription, e.sig.log, Last(f.sig.log));
    }
  }

  lemma StartRemoteFlight(e: Endpoint, t: SdpType, m: Message)
    requires FlightFits(e) && CanPump(e)
    ensures FlightFits(StartRemote(e, t, m))
  {
    hide Count, Finish;
    var f := e.(ctl := SetInFlight(e.ctl.(state := Negotiating), true));
    var (p, parsed) := SetRemote(f.peer, t, m);
    if !parsed {
      FinishFlight(f.(peer := p, ctl := SetInFlight(f.ctl, false)), PeerConnectionError);
    }
  }

  lemma DispatchFlight(e: Endpoint, m: Message)
    requires FlightFits(e) && CanPump(e)
    ensures FlightFits(Dispatch(e, m))
  {
    hide Count, Finish, StartRemote;
    match m.kind
    case Bye =>
      FinishFlight(e, if e.ctl.media.established then RemoteByeAfterEstablished else RemoteByeBeforeEstablished);
    case Candidate =>
      var (p, ok) := AddRemoteCandidate(e.peer, m);
      FinishFlight(e.(peer := p), PeerConnectionError);
    case Answer => StartRemoteFlight(e, SdpAnswer, m);
    case Offer => StartRemoteFlight(e, SdpOffer, m);
    case Unknown => FinishFlight(e, SignalingError);
  }

  lemma ActFlight(e: Endpoint)
    requires FlightFits(e) && HasWork(e)
    ensures FlightFits(Act(e))
  {
    hide Count, Dispatch;
    if e.ctl.inbox.pending != [] {
      DispatchFlight(Taken(e), e.ctl.inbox.pending[0]);
    }
  }

  /** The pump keeps single flight, and stops only when there is nothing left to start. */
  lemma {:induction false} PumpFlight(e: Endpoint)
    requires Alive(e) && FlightFits(e)
    ensures FlightFits(Pump(e)) && !HasWork(Pump(e))
    decreases Work(e)
  {
    hide Act, Alive, FlightFits, HasWork;
    if HasWork(e) {
      ActFlight(e);
      ActAlive(e);
      PumpFlight(Act(e));
    }
  }

  /** Between events nothing that could be started is waiting. */
  predicate Quiescent(e: Endpoint) {
    FlightFits(e) && !HasWork(e)
  }

  lemma JoinCompleteFlight(e: Endpoint, response: Option<JoinResponse>)
    requires Alive(e) && !e.thread.quit && !Joined(e) && Quiescent(e)
    ensures Quiescent(OnJoinComplete(e, response))
  {
    hide Count, Finish, JoinQueue;
    FinishFlight(e, SignalingError);
    var g := e.(ctl := e.ctl.(joinResponse := response));
    var (p, initialized) := Initialize(g.peer);
    FinishFlight(g.(peer := p), PeerConnectionError);
    FinishFlight(g.(peer := StartMedia(p).0), MediaError);
    CountMore(IsDescription, e.sig.log, Last(Submit(e.sig, ConnectWebSocket, NoReply, Malformed).log));
  }

  lemma OperationDoneFlight(e: Endpoint, i: nat, ok: bool, sdp: string)
    requires Ordered(e) && !e.thread.quit && i < |e.peer.operations| && Quiescent(e)
    ensures Quiescent(OnOperationDone(e, i, ok, sdp))
  {
    hide Pump, Finish, CompleteOperation, Count, DescriptionsOut, QueuesFit, LogFits, LinkFits, WireFits,
      RegistersFit, ByeFits;
    DescriptionsOutByHistory(e.sig);
    var (p, reply) := CompleteOperation(e.peer, i, ok, sdp);
    OperationFrame(e.peer, i, ok, sdp);
    var f := e.(peer := p, ctl := SetInFlight(e.ctl, false));
    match reply
    case Chained =>
    case ActionFailed => FinishFlight(f, PeerConnectionError);
    case RemoteAnswerSet =>
      OperationDoneAlive(e, i, ok, sdp);
      AliveIdle(e, p);
      PumpFlight(f);
    case LocalDescriptionReady(json) =>
      CountMore(IsDescription, e.sig.log, Last(Send(e, ForDescription, json).sig.log));
  }

  lemma AliveIdle(e: Endpoint, p: Peer)
    requires Alive(e) && p.open == e.peer.open && p.reports == e.peer.reports && e.peer.calls <= p.calls
    requires e.peer.operations != [] && e.ctl.joinResponse.Some?
    ensures Alive(e.(peer := p, ctl := SetInFlight(e.ctl, false)))
  {
    DescriptionsStay(e.peer, p);
  }

  /** A callback that answers no description leaves the count of continuations as it was. */
  lemma TookFlight(e: Endpoint)
    requires Ordered(e) && !e.thread.quit && e.sig.callbacks != [] && Quiescent(e)
    ensures var c := e.sig.callbacks[0]; var t := Took(e);
      if Answered(c).Some? && IsDescription(c.task)
      then e.ctl.negotiation.inFlight && FlightFits(t.(ctl := SetInFlight(t.ctl, false)))
      else FlightFits(t)
    ensures !Registered(e.sig.callbacks[0]) ==> !HasWork(Took(e))
  {
    var c := e.sig.callbacks[0];
    DescriptionsOutByHistory(e.sig);
    if Answered(c).Some? {
      CountMore(IsDescription, e.sig.delivered, c.task);
      var rest := e.sig.callbacks[1..];
      assert Collect(Answered, e.sig.callbacks) == [c.task] + Collect(Answered, rest);
      FilterAppend(IsDescription, [c.task], Collect(Answered, rest));
    }
    hide Alive, QueuesFit, LogFits, LinkFits, WireFits, RegistersFit, ByeFits, Collect;
  }

  lemma DoneFlight(e: Endpoint, purpose: Purpose, ok: bool)
    requires Alive(e) && !e.thread.quit
    requires if purpose.ForDescription? then FlightFits(e.(ctl := SetInFlight(e.ctl, false))) else FlightFits(e)
    requires purpose.ForRegister? || !HasWork(e)
    requires purpose.ForRegister? && ok && !e.ctl.ending.finished ==> e.ctl.negotiation.ready
    ensures Quiescent(OnDone(e, purpose, ok))
  {
    hide Pump, Finish, Count;
    match purpose
    case ForRegister =>
      PumpFlight(e);
      FinishFlight(e, SignalingError);
    case ForDescription =>
      PumpFlight(e.(ctl := SetInFlight(e.ctl, false)));
      FinishFlight(e.(ctl := SetInFlight(e.ctl, false)), SignalingError);
    case ForCandidate => FinishFlight(e, SignalingError);
    case ForBye =>
    case ForJoin =>
    case NoReply =>
  }

  lemma CallbackFlight(e: Endpoint)
    requires Ordered(e) && !e.thread.quit && e.sig.callbacks != [] && Quiescent(e)
    ensures Quiescent(RunCallback(e))
  {
    hide Pump, Finish, OnDone, OnJoinComplete, Count, QueuesFit, LogFits, LinkFits, WireFits, RegistersFit, ByeFits;
    HeadIsFitting(e);
    TookRuns(e);
    TookFlight(e);
    var t := Took(e);
    match e.sig.callbacks[0]
    case Opened => CountMore(IsDescription, t.sig.log, Last(Submit(t.sig, RegisterClient, ForRegister, Malformed).log));
    case Inbound(m) => PumpFlight(Enqueued(t, m));
    case ErrorNotice => FinishFlight(t, SignalingError);
    case JoinDone(_, response) => JoinCompleteFlight(t, response);
    case Done(task, ok) => DoneFlight(t, task.purpose, ok);
  }

  lemma ReportFlight(e: Endpoint, st: ConnectionState)
    requires FlightFits(e) && !HasWork(e)
    ensures Quiescent(OnConnectionEdge(e, st)) && Quiescent(OnConnectionChange(e, st)) && Quiescent(OnFrame(e))
  {
    hide Count, Finish;
    FinishFlight(OnConnectionEdge(e, st), PeerConnectionError);
  }

  lemma TimerFlight(e: Endpoint, i: nat)
    requires Quiescent(e) && i < |e.thread.timers|
    ensures Quiescent(OnTimer(e, i))
  {
    hide Count, Finish;
    var f := e.(thread := e.thread.(timers := Without(e.thread.timers, i)));
    FinishFlight(f, LocalDurationReached);
    FinishFlight(f, StartupTimeout);
  }

  lemma ApplyFlight(e: Endpoint, ev: Event)
    requires Ordered(e) && Enabled(e, ev) && Quiescent(e)
    ensures Quiescent(Apply(e, ev))
  {
    hide Ordered, Count, RunCallback, OnOperationDone, OnConnectionChange, OnFrame, OnTimer, SerializeIceCandidate,
      ParseSignalingMessage;
    match ev
    case Callback => CallbackFlight(e);
    case OperationDone(i, ok, sdp) => OperationDoneFlight(e, i, ok, sdp);
    case LocalCandidate(candidate, mid, mline) =>
      CountMore(IsDescription, e.sig.log,
        Last(Send(e, ForCandidate, SerializeIceCandidate(candidate, mid, mline)).sig.log));
    case ConnectionChange(st) => ReportFlight(e, st);
    case VideoFrame => ReportFlight(e, NewState);
    case TimerFires(i) => TimerFlight(e, i);
    case _ =>
  }

  lemma StartedFlight(config: AppConfig, verdicts: nat -> bool)
    ensures Quiescent(Started(config, verdicts))
  {
    CountMore(IsDescription, [], Last(Started(config, verdicts).sig.log));
  }

  lemma {:induction false} RunQuiescent(config: AppConfig, verdicts: nat -> bool, events: seq<Event>)
    ensures Quiescent(Run(Started(config, verdicts), events))
  {
    hide Ordered, Apply, Started, Quiescent;
    if events == [] {
      StartedFlight(config, verdicts);
    } else {
      RunQuiescent(config, verdicts, events[..|events| - 1]);
      RunOrdered(config, verdicts, events[..|events| - 1]);
      var e := Run(Started(config, verdicts), events[..|events| - 1]);
      if Enabled(e, Last(events)) {
        ApplyFlight(e, Last(events));
      }
    }
  }

  /** Single flight: as long as the call has not quit, the flag is up exactly when one continuation of the
      negotiation is outstanding, as an operation of the peer client or as a description being sent. */
  lemma SingleFlight(config: AppConfig, verdicts: nat -> bool, events: seq<Event>)
    ensures var e := Run(Started(config, verdicts), events);
      !e.thread.quit ==> |e.peer.operations| + DescriptionsOut(e.sig) == Bit(e.ctl.negotiation.inFlight)
  {
    hide Ordered, Apply, Started, DescriptionsOut, Count, Alive, QueuesFit;
    RunQuiescent(config, verdicts, events);
    RunOrdered(config, verdicts, events);
    var e := Run(Started(config, verdicts), events);
    OrderedQueues(e);
    DescriptionsOutByHistory(e.sig);
  }

  /** No stranded work: an open pump with no action in flight has an empty queue, and an initiator has offered. */
  lemma NothingStranded(config: AppConfig, verdicts: nat -> bool, events: seq<Event>)
    ensures var e := Run(Started(config, verdicts), events);
      !e.ctl.ending.finished && e.ctl.negotiation.ready && !e.ctl.negotiation.inFlight ==>
        e.peer.open && e.ctl.inbox.pending == [] && (Initiator(e) ==> e.ctl.negotiation.offerStarted)
  {
    hide Apply, Started, QueuesFit, LogFits, LinkFits, WireFits, RegistersFit, ByeFits, FlightFits;
    RunQuiescent(config, verdicts, events);
    RunOrdered(config, verdicts, events);
  }
}
