/** Why and when a call ends: the reason is read off the events, and the exit code follows from the first one. */
module Verdicts {
  import opened Sequences
  import opened Common
  import opened PeerConnectionSpec
  import opened SignalingSpec
  import opened ControllerSpec
  import opened EndpointRuns
  import opened Lifecycle
  import opened Queues
  import opened Effects
  import opened WireOrder
  import opened Flight
  import opened Messages
  import opened Watchdog

  /** The next `n` candidates are all created and added. */
  predicate AllAccepted(o: Oracle, n: nat) {
    forall i | o.asked <= i < o.asked + 2 * n :: o.verdicts(i)
  }

  /** The queue, read from the front: the first message that ends the call, unless a description holds it up. */
  function QueueVerdict(o: Oracle, buffering: bool, established: bool, ms: seq<Message>): Option<TerminalReason>
    decreases |ms|
  {
    if ms == [] then None
    else
      match ms[0].kind
      case Bye => Some(if established then RemoteByeAfterEstablished else RemoteByeBeforeEstablished)
      case Unknown => Some(SignalingError)
      case Candidate =>
        if buffering then QueueVerdict(o, buffering, established, ms[1..])
        else if AllAccepted(o, 1) then QueueVerdict(o.(asked := o.asked + 2), buffering, established, ms[1..])
        else Some(PeerConnectionError)
      case _ => if o.Next() then None else Some(PeerConnectionError)
  }

  /** The verdict on the messages `ms` once nothing holds them up. */
  function Released(e: Endpoint, ms: seq<Message>): Option<TerminalReason> {
    QueueVerdict(e.peer.oracle, !e.peer.remote.descriptionSet, e.ctl.media.established, ms)
  }

  function OperationVerdict(e: Endpoint, operation: Operation, ok: bool): Option<TerminalReason> {
    var o := e.peer.oracle;
    var buffered := |e.peer.remote.pending|;
    if !ok then Some(PeerConnectionError)
    else
      match operation
      case Creating(_) => if o.Next() then None else Some(PeerConnectionError)
      case SettingLocal(_, _) => None
      case SettingRemote(t) =>
        if !AllAccepted(o, buffered) then Some(PeerConnectionError)
        else if t.SdpOffer? then None
        else QueueVerdict(o.(asked := o.asked + 2 * buffered), false, e.ctl.media.established, e.ctl.inbox.pending)
  }

  function AnswerVerdict(e: Endpoint, purpose: Purpose, ok: bool): Option<TerminalReason> {
    if purpose.ForBye? then None
    else if !ok then Some(SignalingError)
    else if purpose.ForDescription? || (purpose.ForRegister? && !e.ctl.negotiation.inFlight)
    then Released(e, e.ctl.inbox.pending)
    else None
  }

  function CallbackVerdict(e: Endpoint, c: CallbackTask): Option<TerminalReason> {
    match c
    case Opened => None
    case ErrorNotice => Some(SignalingError)
    case JoinDone(_, response) =>
      if response.None? then Some(SignalingError)
      else if !e.peer.oracle.Next() then Some(PeerConnectionError)
      else if !e.peer.oracle.Rest().Next() then Some(MediaError)
      else None
    case Inbound(m) =>
      if e.ctl.negotiation.ready && !e.ctl.negotiation.inFlight then Released(e, e.ctl.inbox.pending + [m]) else None
    case Done(task, ok) => AnswerVerdict(e, task.purpose, ok)
  }

  /** The reason for which an event ends a call that has not ended yet, if it does. */
  function Verdict(e: Endpoint, ev: Event): Option<TerminalReason>
    requires Enabled(e, ev)
  {
    match ev
    case Callback => CallbackVerdict(e, e.sig.callbacks[0])
    case OperationDone(i, ok, _) => OperationVerdict(e, e.peer.operations[i], ok)
    case ConnectionChange(st) => if st.FailedState? then Some(PeerConnectionError) else None
    case TimerFires(i) =>
      if e.thread.timers[i].kind.DurationTimer? then Some(LocalDurationReached)
      else if e.ctl.media.established then None
      else Some(StartupTimeout)
    case _ => None
  }

  /** The verdict of the first event of a run that has one. */
  function FirstVerdict(e: Endpoint, events: seq<Event>): Option<TerminalReason> {
    if events == [] then None
    else
      var before := events[..|events| - 1];
      var state := Run(e, before);
      if FirstVerdict(e, before).Some? then FirstVerdict(e, before)
      else if Enabled(state, Last(events)) then Verdict(state, Last(events))
      else None
  }

  /** The call in `f` ended for the reason `v`, or goes on. */
  predicate Ends(f: Endpoint, v: Option<TerminalReason>) {
    && f.ctl.ending.finished == v.Some?
    && (v.Some? ==> f.ctl.ending.attempts == [v.value])
  }

  predicate GoesOn(e: Endpoint) {
    !e.ctl.ending.finished && e.ctl.ending.attempts == []
  }

  lemma FinishEnds(e: Endpoint, reason: TerminalReason)
    requires GoesOn(e)
    ensures Ends(Finish(e, reason), Some(reason))
  {
  }

  /** What the pump is going to make of the queue. */
  function Outlook(e: Endpoint): Option<TerminalReason> {
    if CanPump(e) then Released(e, e.ctl.inbox.pending) else None
  }

  lemma CandidateOutlook(e: Endpoint)
    requires GoesOn(e) && HasWork(e) && e.ctl.inbox.pending != [] && e.ctl.inbox.pending[0].kind.Candidate?
    ensures var f := Act(e);
      if f.ctl.ending.finished then Ends(f, Outlook(e)) else Outlook(f) == Outlook(e) && GoesOn(f)
  {
    hide Finish;
    var t := Taken(e);
    var m := e.ctl.inbox.pending[0];
    FinishEnds(t.(peer := AddRemoteCandidate(t.peer, m).0), PeerConnectionError);
    var o := e.peer.oracle;
    assert AllAccepted(o, 1) <==> o.Next() && o.Rest().Next() by {
      assert o.Next() == o.verdicts(o.asked) && o.Rest().Next() == o.verdicts(o.asked + 1);
    }
  }

  lemma DescriptionOutlook(e: Endpoint)
    requires GoesOn(e) && HasWork(e) && e.ctl.inbox.pending != []
    requires e.ctl.inbox.pending[0].kind.Offer? || e.ctl.inbox.pending[0].kind.Answer?
    ensures var f := Act(e);
      if f.ctl.ending.finished then Ends(f, Outlook(e)) else Outlook(f) == Outlook(e) && GoesOn(f)
  {
    hide Finish;
    var t := Taken(e);
    var p := SetRemote(t.peer, SdpOffer, e.ctl.inbox.pending[0]).0;
    var f := t.(peer := p, ctl := SetInFlight(t.ctl.(state := Negotiating), false));
    FinishEnds(f, PeerConnectionError);
  }

  lemma ActOutlook(e: Endpoint)
    requires GoesOn(e) && HasWork(e)
    ensures var f := Act(e);
      if f.ctl.ending.finished then Ends(f, Outlook(e)) else Outlook(f) == Outlook(e) && GoesOn(f)
  {
    hide Finish, StartRemote, AddRemoteCandidate;
    if e.ctl.inbox.pending != [] {
      var m := e.ctl.inbox.pending[0];
      match m.kind
      case Candidate => CandidateOutlook(e);
      case Offer => DescriptionOutlook(e);
      case Answer => DescriptionOutlook(e);
      case Bye =>
        FinishEnds(Taken(e), if e.ctl.media.established then RemoteByeAfterEstablished else RemoteByeBeforeEstablished);
      case Unknown => FinishEnds(Taken(e), SignalingError);
    }
  }

  /** The pump, with all its turns, ends the call exactly as a reading of the queue says. */
  lemma {:induction false} PumpEnds(e: Endpoint)
    requires Alive(e) && GoesOn(e)
    ensures Ends(Pump(e), Outlook(e))
    decreases Work(e)
  {
    hide Act, Alive, Outlook;
    if HasWork(e) {
      ActOutlook(e);
      ActAlive(e);
      if !Act(e).ctl.ending.finished {
        PumpEnds(Act(e));
      }
    } else {
      NoOutlook(e);
    }
  }

  lemma NoOutlook(e: Endpoint)
    requires !HasWork(e)
    ensures Outlook(e).None?
  {
  }

  lemma {:induction false} ApplyAllAccepted(o: Oracle, r: RemoteSide, ms: seq<Message>)
    ensures var a := ApplyAll(o, r, ms);
      && a.ok == AllAccepted(o, |ms|)
      && (a.ok ==> a.oracle == o.(asked := o.asked + 2 * |ms|))
    decreases |ms|
  {
    if ms != [] {
      assert o.Next() == o.verdicts(o.asked) && o.Rest().Next() == o.verdicts(o.asked + 1);
      var a := ApplyCandidate(o, r, ms[0]);
      if a.ok {
        ApplyAllAccepted(a.oracle, a.remote, ms[1..]);
      }
    }
  }

  lemma OperationReply(p: Peer, i: nat, ok: bool, sdp: string)
    requires i < |p.operations|
    ensures var (q, reply) := CompleteOperation(p, i, ok, sdp);
      var o := p.oracle; var n := |p.remote.pending|;
      && (reply.ActionFailed? <==>
            (!ok || (p.operations[i].Creating? && !o.Next()) || (p.operations[i].SettingRemote? && !AllAccepted(o, n))))
      && (reply.RemoteAnswerSet? ==>
            p.operations[i] == SettingRemote(SdpAnswer) && q.remote.descriptionSet
            && q.oracle == o.(asked := o.asked + 2 * n))
      && (reply.Chained? ==> p.operations[i].Creating? || p.operations[i] == SettingRemote(SdpOffer))
  {
    hide ApplyAll, AllAccepted, Without, SerializeSessionDescription;
    ApplyAllAccepted(p.oracle, p.remote.(descriptionSet := true), p.remote.pending);
    ApplyAllFrame(p.oracle, p.remote.(descriptionSet := true), p.remote.pending);
  }

  lemma OperationEnds(e: Endpoint, i: nat, ok: bool, sdp: string)
    requires Alive(e) && GoesOn(e) && i < |e.peer.operations|
    ensures Ends(OnOperationDone(e, i, ok, sdp), OperationVerdict(e, e.peer.operations[i], ok))
  {
    hide Pump, Finish, CompleteOperation, AllAccepted, QueueVerdict;
    OperationReply(e.peer, i, ok, sdp);
    OperationFrame(e.peer, i, ok, sdp);
    var (p, reply) := CompleteOperation(e.peer, i, ok, sdp);
    var f := e.(peer := p, ctl := SetInFlight(e.ctl, false));
    match reply
    case Chained =>
    case ActionFailed => FinishEnds(f, PeerConnectionError);
    case RemoteAnswerSet =>
      AliveIdle(e, p);
      PumpEnds(f);
    case LocalDescriptionReady(_) =>
  }

  lemma AnswerEnds(e: Endpoint, purpose: Purpose, ok: bool)
    requires Alive(e) && GoesOn(e) && !purpose.ForBye? && !purpose.ForJoin? && !purpose.NoReply?
    requires purpose.ForRegister? ==> Joined(e) && (ok ==> e.ctl.negotiation.ready)
    requires purpose.ForDescription? ==> e.ctl.negotiation.inFlight
    ensures Ends(OnDone(e, purpose, ok), AnswerVerdict(e, purpose, ok))
  {
    hide Pump, Finish, QueueVerdict;
    match purpose
    case ForRegister =>
      PumpEnds(e);
      FinishEnds(e, SignalingError);
    case ForDescription =>
      PumpEnds(e.(ctl := SetInFlight(e.ctl, false)));
      FinishEnds(e.(ctl := SetInFlight(e.ctl, false)), SignalingError);
    case ForCandidate => FinishEnds(e, SignalingError);
  }

  lemma JoinEnds(e: Endpoint, response: Option<JoinResponse>)
    requires GoesOn(e) && !e.thread.quit
    ensures var o := e.peer.oracle;
      Ends(OnJoinComplete(e, response),
           if response.None? then Some(SignalingError)
           else if !o.Next() then Some(PeerConnectionError)
           else if !o.Rest().Next() then Some(MediaError)
           else None)
  {
    hide Finish, JoinQueue;
    FinishEnds(e, SignalingError);
    var f := e.(ctl := e.ctl.(joinResponse := response));
    var p := Initialize(f.peer).0;
    FinishEnds(f.(peer := p), PeerConnectionError);
    FinishEnds(f.(peer := StartMedia(p).0), MediaError);
  }

  /** What is known about the request that is being answered. */
  lemma AnswerFinds(e: Endpoint)
    requires Ordered(e) && Quiescent(e) && !e.thread.quit && e.sig.callbacks != [] && e.sig.callbacks[0].Done?
    ensures var purpose := e.sig.callbacks[0].task.purpose;
      && !purpose.ForJoin? && !purpose.NoReply?
      && (purpose.ForDescription? ==> e.ctl.negotiation.inFlight)
      && (purpose.ForRegister? ==> Joined(e))
      && (purpose.ForBye? ==> e.ctl.ending.finished)
  {
    TookFlight(e);
    CallbackHead(e);
    assert CallbackFits(e.sig.callbacks[0]);
    hide Ordered, Quiescent, Took;
  }

  lemma CallbackEnds(e: Endpoint)
    requires Ordered(e) && Quiescent(e) && GoesOn(e) && !e.thread.quit && e.sig.callbacks != []
    ensures Ends(RunCallback(e), CallbackVerdict(e, e.sig.callbacks[0]))
  {
    hide Ordered, Quiescent, Pump, Finish, OnDone, OnJoinComplete, QueueVerdict, AnswerVerdict;
    OrderedQueues(e);
    CallbackHead(e);
    TookRuns(e);
    var t := Took(e);
    match e.sig.callbacks[0]
    case Opened =>
    case Inbound(m) => PumpEnds(Enqueued(t, m));
    case ErrorNotice => FinishEnds(t, SignalingError);
    case JoinDone(_, response) => JoinEnds(t, response);
    case Done(task, ok) =>
      AnswerFinds(e);
      AnswerEnds(t, task.purpose, ok);
      SameVerdict(e, t, task.purpose, ok);
  }

  lemma SameVerdict(e: Endpoint, t: Endpoint, purpose: Purpose, ok: bool)
    requires t.peer == e.peer && t.ctl.media == e.ctl.media && t.ctl.inbox == e.ctl.inbox
    requires t.ctl.negotiation.inFlight == e.ctl.negotiation.inFlight
    ensures AnswerVerdict(t, purpose, ok) == AnswerVerdict(e, purpose, ok)
  {
  }

  lemma TimerEnds(config: AppConfig, e: Endpoint, i: nat)
    requires ClockFits(config, e) && GoesOn(e) && Enabled(e, TimerFires(i))
    ensures Ends(OnTimer(e, i), Verdict(e, TimerFires(i)))
  {
    hide Finish, EstablishedFits;
    var f := e.(thread := e.thread.(timers := Without(e.thread.timers, i)));
    FinishEnds(f, StartupTimeout);
    FinishEnds(f, LocalDurationReached);
  }

  lemma ChangeEnds(e: Endpoint, st: ConnectionState)
    requires GoesOn(e)
    ensures Ends(OnConnectionChange(e, st), if st.FailedState? then Some(PeerConnectionError) else None)
    ensures Ends(OnFrame(e), None)
  {
    hide Finish;
    FinishEnds(OnConnectionEdge(e, st), PeerConnectionError);
  }

  lemma EventEnds(config: AppConfig, e: Endpoint, ev: Event)
    requires Ordered(e) && Quiescent(e) && ClockFits(config, e) && Enabled(e, ev) && !e.ctl.ending.finished
    ensures Ends(Apply(e, ev), Verdict(e, ev))
  {
    hide Ordered, Quiescent, ClockFits, PartsFit, RunCallback, RunNetworkTask, OnOperationDone, OnConnectionChange,
      OnFrame, OnTimer, SerializeIceCandidate, OnSocketMessage, CallbackVerdict, OperationVerdict;
    OrderedQueues(e);
    NotQuit(e);
    match ev
    case Callback => CallbackEnds(e);
    case OperationDone(i, ok, sdp) => OperationEnds(e, i, ok, sdp);
    case ConnectionChange(st) => ChangeEnds(e, st);
    case VideoFrame => ChangeEnds(e, NewState);
    case TimerFires(i) => TimerEnds(config, e, i);
    case _ =>
  }

  /** What the process returns, by the reason for which the call ended. */
  function ProcessCode(reason: TerminalReason): int {
    match reason
    case LocalDurationReached => 0
    case RemoteByeAfterEstablished => 0
    case RemoteByeBeforeEstablished => 5
    case StartupTimeout => 7
    case SignalingError => 5
    case PeerConnectionError => 6
    case MediaError => 4
  }

  lemma EndedFor(e: Endpoint)
    requires Ordered(e)
    ensures !e.ctl.ending.finished ==> GoesOn(e)
    ensures e.ctl.ending.finished <==> e.ctl.ending.attempts != []
    ensures e.thread.quit ==> e.ctl.ending.finished
    ensures e.ctl.ending.exitCode
         == if e.thread.quit && e.ctl.ending.finished then ExitCodeForReason(e.ctl.ending.attempts[0])
            else RuntimeFailed
    ensures e.ctl.ending.finished ==> ReasonFits(e.ctl, e.ctl.ending.attempts[0])
  {
    hide QueuesFit, LogFits, LinkFits, WireFits, RegistersFit, ByeFits, PartsFit;
  }

  /** The reasons for which a call is asked to finish are only ever added to. */
  lemma ReasonsGrow(config: AppConfig, e: Endpoint, ev: Event)
    requires Ordered(e) && ClockFits(config, e) && Enabled(e, ev)
    ensures e.ctl.ending.attempts <= Apply(e, ev).ctl.ending.attempts
  {
    hide Ordered, ClockFits, RunCallback, RunNetworkTask, OnOperationDone, OnLocalCandidate, OnConnectionChange,
      OnFrame, OnTimer, SerializeIceCandidate, OnSocketMessage;
    OrderedQueues(e);
    match ev
    case Callback => ThreadSteady(e, ev);
    case OperationDone(_, _, _) => ThreadSteady(e, ev);
    case LocalCandidate(_, _, _) => ThreadSteady(e, ev);
    case ConnectionChange(_) => ApplyEffect(e, ev);
    case VideoFrame => ApplyEffect(e, ev);
    case TimerFires(_) => ApplyEffect(e, ev);
    case _ =>
  }

  lemma {:induction false} RunVerdict(config: AppConfig, verdicts: nat -> bool, events: seq<Event>)
    ensures var e := Run(Started(config, verdicts), events);
      var v := FirstVerdict(Started(config, verdicts), events);
      && e.ctl.ending.finished == v.Some?
      && (v.Some? ==> e.ctl.ending.attempts != [] && e.ctl.ending.attempts[0] == v.value)
  {
    hide Ordered, Quiescent, ClockFits, Apply, Started, Verdict;
    if events == [] {
      StartedGoesOn(config, verdicts);
    } else {
      var before := events[..|events| - 1];
      RunVerdict(config, verdicts, before);
      RunOrdered(config, verdicts, before);
      RunQuiescent(config, verdicts, before);
      RunClock(config, verdicts, before);
      var e := Run(Started(config, verdicts), before);
      if Enabled(e, Last(events)) {
        RunOrdered(config, verdicts, events);
        EndedFor(e);
        EndedFor(Apply(e, Last(events)));
        ReasonsGrow(config, e, Last(events));
        if !e.ctl.ending.finished {
          EventEnds(config, e, Last(events));
        }
      }
    }
  }

  lemma StartedGoesOn(config: AppConfig, verdicts: nat -> bool)
    ensures GoesOn(Started(config, verdicts))
  {
  }

  /** The exit code is a function of the trace: the call has ended exactly when some event so far has a verdict;
      once it has quit, its code is the one of the first verdict, whatever came later, and until then none has
      been written. */
  lemma ExitCodeByTrace(config: AppConfig, verdicts: nat -> bool, events: seq<Event>)
    ensures var e := Run(Started(config, verdicts), events);
      var v := FirstVerdict(Started(config, verdicts), events);
      && (e.ctl.ending.finished <==> v.Some?)
      && (e.thread.quit ==> v.Some? && e.ctl.ending.exitCode == ExitCodeForReason(v.value))
      && (e.thread.quit ==> e.ctl.ending.exitCode.Number() == ProcessCode(v.value))
      && (!e.thread.quit ==> e.ctl.ending.exitCode == RuntimeFailed && e.ctl.ending.exitCode.Number() == 8)
  {
    hide Ordered, Apply, Started, FirstVerdict;
    RunVerdict(config, verdicts, events);
    RunOrdered(config, verdicts, events);
    EndedFor(Run(Started(config, verdicts), events));
  }

  /** Success means that the call had been established, and the timeout that it never was. */
  lemma ExitCodeByEstablishment(config: AppConfig, verdicts: nat -> bool, events: seq<Event>)
    ensures var e := Run(Started(config, verdicts), events);
      && (e.ctl.ending.exitCode == Success ==> e.ctl.media.established)
      && (e.ctl.ending.exitCode == Timeout ==> !e.ctl.media.established)
  {
    hide Ordered, Apply, Started;
    RunOrdered(config, verdicts, events);
    EndedFor(Run(Started(config, verdicts), events));
  }
}
