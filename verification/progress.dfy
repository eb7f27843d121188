/** How far the negotiation of one peer has come, as long as its call goes on. */
module Progress {
  import opened Sequences
  import opened Common
  import opened PeerConnectionSpec
  import opened SignalingSpec
  import opened ControllerSpec
  import opened JoinOrder
  import opened EndpointRuns
  import opened Lifecycle
  import opened Queues
  import opened Effects
  import opened WireOrder
  import opened Flight
  import opened Messages
  import opened NegotiationScript

  /** How many calls have been made once the other side's description is being set. */
  function RemoteAt(initiator: bool): nat {
    if initiator then 3 else 1
  }

  predicate SettingOther(p: Peer) {
    p.operations != [] && p.operations[0].SettingRemote?
  }

  /** The descriptions dispatched so far. */
  function Offered(e: Endpoint): seq<Message> {
    Filter(IsDescriptionMessage, e.ctl.inbox.dispatched)
  }

  /** No step of the script is skipped: with nothing outstanding the own description, once begun, is made and
      posted, and the other side's, once dispatched, is set. */
  predicate OnTrack(e: Endpoint, initiator: bool) {
    var n := |e.peer.calls|;
    var r := e.peer.remote;
    && r.descriptions == Offered(e)
    && (e.peer.operations == [] ==> n == 0 || n >= LocalAt(initiator))
    && Count(IsDescription, e.sig.log) + Bit(SettingOwn(e.peer)) == Bit(n >= LocalAt(initiator))
    && |r.descriptions| == Bit(n >= RemoteAt(initiator))
    && (r.descriptionSet <==> n >= RemoteAt(initiator) && !SettingOther(e.peer))
  }

  predicate ProgressFits(e: Endpoint, initiator: bool) {
    e.peer.remote.descriptions <= Offered(e) && (!e.ctl.ending.finished ==> OnTrack(e, initiator))
  }

  /** Nothing of all this has changed. */
  predicate Kept(e: Endpoint, f: Endpoint) {
    && f.peer.calls == e.peer.calls && f.peer.operations == e.peer.operations
    && f.peer.remote.descriptions == e.peer.remote.descriptions
    && f.peer.remote.descriptionSet == e.peer.remote.descriptionSet
    && f.ctl.inbox.dispatched == e.ctl.inbox.dispatched
    && Count(IsDescription, f.sig.log) == Count(IsDescription, e.sig.log)
    && (e.ctl.ending.finished ==> f.ctl.ending.finished)
  }

  lemma KeptProgress(e: Endpoint, f: Endpoint, initiator: bool)
    requires ProgressFits(e, initiator) && Kept(e, f)
    ensures ProgressFits(f, initiator)
  {
    hide Count, Filter;
  }

  lemma FinishProgress(e: Endpoint, reason: TerminalReason, initiator: bool)
    requires e.peer.remote.descriptions <= Offered(e)
    ensures ProgressFits(Finish(e, reason), initiator)
  {
    hide Filter, ByeMessage;
  }

  lemma TakenOffered(e: Endpoint)
    requires e.ctl.inbox.pending != []
    ensures var m := e.ctl.inbox.pending[0];
      Offered(Taken(e)) == Offered(e) + (if IsDescriptionMessage(m) then [m] else [])
  {
    FilterAppend(IsDescriptionMessage, e.ctl.inbox.dispatched, [e.ctl.inbox.pending[0]]);
  }

  lemma DescriptionProgress(e: Endpoint, initiator: bool)
    requires ProgressFits(e, initiator) && Negotiates(e, initiator) && Expected(Received(e), e.sig.log, initiator)
    requires HasWork(e) && !e.thread.quit && e.ctl.inbox.pending != [] && IsDescriptionMessage(e.ctl.inbox.pending[0])
    ensures ProgressFits(Act(e), initiator)
  {
    var m := e.ctl.inbox.pending[0];
    var theirs := if initiator then SdpAnswer else SdpOffer;
    ScriptAdmits(e, m, initiator);
    TakenOffered(e);
    Idle(e, initiator);
    hide Finish, Count, Filter, Negotiates, Expected;
    var t := Taken(e);
    var f := t.(ctl := SetInFlight(t.ctl.(state := Negotiating), true));
    var (p, parsed) := SetRemote(f.peer, theirs, m);
    if !parsed {
      FinishProgress(f.(peer := p, ctl := SetInFlight(f.ctl, false)), PeerConnectionError, initiator);
    }
  }

  /** With no action in flight nothing is outstanding. */
  lemma Idle(e: Endpoint, initiator: bool)
    requires Negotiates(e, initiator) && !e.ctl.negotiation.inFlight && !e.thread.quit
    ensures e.peer.operations == []
    ensures e.ctl.negotiation.offerStarted <==> initiator && |e.peer.calls| > 0
    ensures Joined(e) ==> Initiator(e) == initiator
  {
    hide Count, Follows;
  }

  lemma CandidateProgress(e: Endpoint, initiator: bool)
    requires ProgressFits(e, initiator) && HasWork(e)
    requires e.ctl.inbox.pending != [] && !IsDescriptionMessage(e.ctl.inbox.pending[0])
    ensures ProgressFits(Act(e), initiator)
  {
    hide Finish, Count, Filter, StartRemote;
    TakenOffered(e);
    var t := Taken(e);
    var m := e.ctl.inbox.pending[0];
    FinishProgress(t, RemoteByeAfterEstablished, initiator);
    FinishProgress(t, RemoteByeBeforeEstablished, initiator);
    FinishProgress(t, SignalingError, initiator);
    FinishProgress(t.(peer := AddRemoteCandidate(t.peer, m).0), PeerConnectionError, initiator);
  }

  lemma OfferProgress(e: Endpoint, initiator: bool)
    requires ProgressFits(e, initiator) && Negotiates(e, initiator) && HasWork(e) && !e.thread.quit
    requires e.ctl.inbox.pending == []
    ensures ProgressFits(Act(e), initiator)
  {
    Idle(e, initiator);
    hide Negotiates, Count, Filter;
  }

  lemma ActProgress(e: Endpoint, initiator: bool)
    requires ProgressFits(e, initiator) && Negotiates(e, initiator) && Expected(Received(e), e.sig.log, initiator)
    requires HasWork(e) && !e.thread.quit
    ensures ProgressFits(Act(e), initiator)
  {
    hide Act, ProgressFits, Negotiates, Expected, HasWork;
    if e.ctl.inbox.pending == [] {
      OfferProgress(e, initiator);
    } else if IsDescriptionMessage(e.ctl.inbox.pending[0]) {
      DescriptionProgress(e, initiator);
    } else {
      CandidateProgress(e, initiator);
    }
  }

  lemma {:induction false} PumpProgress(e: Endpoint, initiator: bool)
    requires Alive(e) && Negotiates(e, initiator) && Expected(Received(e), e.sig.log, initiator)
    requires ProgressFits(e, initiator)
    ensures ProgressFits(Pump(e), initiator)
    decreases Work(e)
  {
    hide Act, PartsFit, Negotiates, Expected, Received, ProgressFits;
    if HasWork(e) {
      ActProgress(e, initiator);
      ActNegotiates(e, initiator);
      ActAlive(e);
      PumpProgress(Act(e), initiator);
    }
  }

  /** A continuation carries the script on: one call further, or done with what it did. */
  lemma OperationCarriesOn(p: Peer, ok: bool, sdp: string, initiator: bool)
    requires Follows(p, initiator) && p.operations != []
    ensures var (q, reply) := CompleteOperation(p, 0, ok, sdp);
      var n := |q.calls|;
      && (!reply.Chained? ==> q.calls == p.calls && q.operations == [])
      && (reply.Chained? ==> n == |p.calls| + 1 && q.operations != [] && !SettingOther(q) && !SettingOwn(p))
      && (reply.Chained? ==> SettingOwn(q) == (n == LocalAt(initiator)) && n <= LocalAt(initiator))
      && (reply.LocalDescriptionReady? ==> SettingOwn(p) && n == LocalAt(initiator))
      && (reply.RemoteAnswerSet? ==> initiator && n == 3 && !SettingOwn(p))
      && (SettingOther(p) ==> |p.calls| == RemoteAt(initiator))
  {
    hide SerializeSessionDescription, Carries, Flush;
    assert Without(p.operations, 0) == [];
  }

  /** Only the continuation of the other side's description touches that side, and it sets no other description. */
  lemma OperationRemote(p: Peer, ok: bool, sdp: string)
    requires p.operations != []
    ensures var (q, reply) := CompleteOperation(p, 0, ok, sdp);
      && q.remote.descriptions == p.remote.descriptions
      && (SettingOther(p) ==> reply.ActionFailed? || q.remote.descriptionSet)
      && (!SettingOther(p) ==> q.remote == p.remote)
  {
    hide SerializeSessionDescription, Flush, Without;
    FlushKeeps(p.oracle, p.remote.(descriptionSet := true));
  }

  lemma FlushKeeps(o: Oracle, r: RemoteSide)
    ensures var s := Flush(o, r).remote;
      s.descriptionSet == r.descriptionSet && s.descriptions == r.descriptions
  {
    hide ApplyAll;
    ApplyAllFrame(o, r, r.pending);
  }

  lemma OperationProgress(e: Endpoint, i: nat, ok: bool, sdp: string, initiator: bool)
    requires Alive(e) && !e.thread.quit && i < |e.peer.operations| && e.ctl.negotiation.inFlight
    requires ProgressFits(e, initiator) && Negotiates(e, initiator) && Expected(Received(e), e.sig.log, initiator)
    ensures ProgressFits(OnOperationDone(e, i, ok, sdp), initiator)
  {
    hide Pump, Finish, CompleteOperation, Count, Carries, Filter, Alive, Expected, Follows;
    NegotiatesFollows(e, initiator);
    OneOperation(e.peer, initiator);
    OperationCarriesOn(e.peer, ok, sdp, initiator);
    OperationRemote(e.peer, ok, sdp);
    var (p, reply) := CompleteOperation(e.peer, i, ok, sdp);
    var f := e.(peer := p, ctl := SetInFlight(e.ctl, false));
    match reply
    case Chained =>
    case ActionFailed => FinishProgress(f, PeerConnectionError, initiator);
    case RemoteAnswerSet =>
      AnswerSetNegotiates(e, ok, sdp, initiator);
      PumpProgress(f, initiator);
    case LocalDescriptionReady(json) =>
      CountMore(IsDescription, e.sig.log, Last(Send(e, ForDescription, json).sig.log));
  }

  lemma NegotiatesFollows(e: Endpoint, initiator: bool)
    requires Negotiates(e, initiator)
    ensures Follows(e.peer, initiator)
  {
  }

  lemma AnswerSetNegotiates(e: Endpoint, ok: bool, sdp: string, initiator: bool)
    requires Alive(e) && !e.thread.quit && e.peer.operations != [] && Negotiates(e, initiator)
    requires CompleteOperation(e.peer, 0, ok, sdp).1.RemoteAnswerSet?
    ensures var f := e.(peer := CompleteOperation(e.peer, 0, ok, sdp).0, ctl := SetInFlight(e.ctl, false));
      Alive(f) && Negotiates(f, initiator)
  {
    hide CompleteOperation, Count, Carries, Alive, Follows;
    NegotiatesFollows(e, initiator);
    OperationCalls(e.peer, ok, sdp, initiator);
    OperationFrame(e.peer, 0, ok, sdp);
    OperationJoined(e);
    AliveIdle(e, CompleteOperation(e.peer, 0, ok, sdp).0);
  }

  lemma OperationJoined(e: Endpoint)
    requires Alive(e) && e.peer.operations != []
    ensures Joined(e)
  {
    hide EndingFits;
  }

  lemma JoinCompleteProgress(e: Endpoint, response: Option<JoinResponse>, initiator: bool)
    requires ProgressFits(e, initiator) && Alive(e) && !Joined(e) && !e.thread.quit
    ensures ProgressFits(OnJoinComplete(e, response), initiator)
  {
    hide Finish, Count, Filter, JoinQueue;
    FinishProgress(e, SignalingError, initiator);
    var g := e.(ctl := e.ctl.(joinResponse := response));
    FinishProgress(g.(peer := Initialize(g.peer).0), PeerConnectionError, initiator);
    FinishProgress(g.(peer := StartMedia(Initialize(g.peer).0).0), MediaError, initiator);
    CountMore(IsDescription, e.sig.log, Last(Submit(e.sig, ConnectWebSocket, NoReply, Malformed).log));
  }

  lemma DoneProgress(e: Endpoint, purpose: Purpose, ok: bool, initiator: bool)
    requires Alive(e) && Negotiates(e, initiator) && Expected(Received(e), e.sig.log, initiator)
    requires ProgressFits(e, initiator) && !e.thread.quit
    requires purpose.ForRegister? && ok && !e.ctl.ending.finished ==> e.ctl.negotiation.ready
    requires purpose.ForDescription? ==> e.peer.operations == []
    requires purpose.ForBye? ==> e.ctl.ending.finished
    ensures ProgressFits(OnDone(e, purpose, ok), initiator)
  {
    hide Pump, Finish, Count, Filter, Follows, Expected, Alive;
    var f := e.(ctl := SetInFlight(e.ctl, false));
    match purpose
    case ForRegister =>
      PumpProgress(e, initiator);
      FinishProgress(e, SignalingError, initiator);
    case ForDescription =>
      DownAlive(e);
      PumpProgress(f, initiator);
      FinishProgress(f, SignalingError, initiator);
    case ForCandidate => FinishProgress(e, SignalingError, initiator);
    case ForBye =>
    case ForJoin =>
    case NoReply =>
  }

  lemma DownAlive(e: Endpoint)
    requires Alive(e)
    ensures Alive(e.(ctl := SetInFlight(e.ctl, false)))
  {
  }

  lemma OpenedProgress(e: Endpoint, initiator: bool)
    requires ProgressFits(e, initiator)
    ensures ProgressFits(OnWebSocketOpen(e), initiator)
  {
    CountMore(IsDescription, e.sig.log, Last(Submit(e.sig, RegisterClient, ForRegister, Malformed).log));
    hide Count, Filter;
  }

  lemma CallbackProgress(e: Endpoint, initiator: bool)
    requires Ordered(e) && Quiescent(e) && !e.thread.quit && e.sig.callbacks != []
    requires ProgressFits(e, initiator) && Negotiates(e, initiator) && Expected(Received(e), e.sig.log, initiator)
    requires HeadAsExpected(e, initiator)
    ensures ProgressFits(RunCallback(e), initiator)
  {
    hide Pump, Finish, OnDone, OnJoinComplete, OnWebSocketOpen, Ordered, Quiescent, Negotiates, Expected, ProgressFits,
      Count;
    OrderedQueues(e);
    CallbackHead(e);
    TookRuns(e);
    TookNegotiates(e, initiator);
    var t := Took(e);
    KeptProgress(e, t, initiator);
    match e.sig.callbacks[0]
    case Opened => OpenedProgress(t, initiator);
    case Inbound(m) =>
      if !e.ctl.ending.finished {
        EnqueuedNegotiates(t, m, initiator);
        KeptProgress(t, Enqueued(t, m), initiator);
        PumpProgress(Enqueued(t, m), initiator);
      }
    case ErrorNotice =>
      PrefixOf(t, initiator);
      FinishProgress(t, SignalingError, initiator);
    case JoinDone(_, response) => JoinCompleteProgress(t, response, initiator);
    case Done(task, ok) =>
      if task.purpose.ForDescription? {
        DescriptionAlone(e);
      }
      DoneProgress(t, task.purpose, ok, initiator);
  }

  lemma PrefixOf(e: Endpoint, initiator: bool)
    requires ProgressFits(e, initiator)
    ensures e.peer.remote.descriptions <= Offered(e)
  {
  }

  lemma ReportProgress(e: Endpoint, st: ConnectionState, initiator: bool)
    requires ProgressFits(e, initiator)
    ensures ProgressFits(OnConnectionChange(e, st), initiator) && ProgressFits(OnFrame(e), initiator)
  {
    hide Finish, ProgressFits, Count;
    KeptProgress(e, OnFrame(e), initiator);
    var f := OnConnectionEdge(e, st);
    KeptProgress(e, f, initiator);
    PrefixOf(f, initiator);
    FinishProgress(f, PeerConnectionError, initiator);
  }

  lemma TimerProgress(e: Endpoint, i: nat, initiator: bool)
    requires ProgressFits(e, initiator) && i < |e.thread.timers|
    ensures ProgressFits(OnTimer(e, i), initiator)
  {
    hide Finish, ProgressFits, Count;
    var f := e.(thread := e.thread.(timers := Without(e.thread.timers, i)));
    KeptProgress(e, f, initiator);
    PrefixOf(f, initiator);
    FinishProgress(f, StartupTimeout, initiator);
    FinishProgress(f, LocalDurationReached, initiator);
  }

  lemma LocalCandidateProgress(e: Endpoint, text: Text, initiator: bool)
    requires ProgressFits(e, initiator)
    ensures ProgressFits(OnLocalCandidate(e, text), initiator)
  {
    CountMore(IsDescription, e.sig.log, Last(Send(e, ForCandidate, text).sig.log));
    hide ProgressFits, Count;
    KeptProgress(e, OnLocalCandidate(e, text), initiator);
  }

  lemma SourcesProgress(e: Endpoint, s: Signaling, to: nat, initiator: bool)
    requires ProgressFits(e, initiator) && s.log == e.sig.log
    ensures ProgressFits(e.(sig := s), initiator) && ProgressFits(e.(thread := e.thread.(now := to)), initiator)
  {
    hide ProgressFits, Count;
    KeptProgress(e, e.(sig := s), initiator);
    KeptProgress(e, e.(thread := e.thread.(now := to)), initiator);
  }

  /** Every event, when the messages received so far, or brought by it, are as expected. */
  lemma ApplyProgress(e: Endpoint, ev: Event, initiator: bool)
    requires Ordered(e) && Quiescent(e) && Enabled(e, ev)
    requires ProgressFits(e, initiator) && Negotiates(e, initiator) && Expected(Received(e), e.sig.log, initiator)
    requires HeadAsExpected(e, initiator)
    ensures ProgressFits(Apply(e, ev), initiator)
  {
    hide Ordered, Quiescent, Expected, Negotiates, ProgressFits, RunCallback, OnOperationDone, OnConnectionChange,
      OnFrame, OnTimer, OnLocalCandidate, SerializeIceCandidate, RunNetworkTask, ParseSignalingMessage;
    match ev
    case Callback => CallbackProgress(e, initiator);
    case OperationDone(i, ok, sdp) =>
      InFlightThen(e);
      OrderedQueues(e);
      OperationProgress(e, i, ok, sdp, initiator);
    case LocalCandidate(candidate, mid, mline) =>
      LocalCandidateProgress(e, SerializeIceCandidate(candidate, mid, mline), initiator);
    case ConnectionChange(st) => ReportProgress(e, st, initiator);
    case VideoFrame => ReportProgress(e, NewState, initiator);
    case TimerFires(i) => TimerProgress(e, i, initiator);
    case Network(o) =>
      NetworkHasLog(e, o);
      SourcesProgress(e, RunNetworkTask(e.sig, o), 0, initiator);
    case ClockAdvances(to) => SourcesProgress(e, e.sig, to, initiator);
    case _ => SourcesProgress(e, Apply(e, ev).sig, 0, initiator);
  }

  /** An outstanding operation has the flag up. */
  lemma InFlightThen(e: Endpoint)
    requires Ordered(e) && Quiescent(e) && !e.thread.quit
    ensures e.peer.operations != [] ==> e.ctl.negotiation.inFlight
  {
    OrderedQueues(e);
    DescriptionsOutByHistory(e.sig);
    hide Ordered, QueuesFit, Count;
  }
}
