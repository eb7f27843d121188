/** What can still happen once a call has ended. */
module AfterEnd {
  import opened Sequences
  import opened Common
  import opened PeerConnectionSpec
  import opened SignalingSpec
  import opened ControllerSpec
  import opened EndpointRuns
  import opened Lifecycle
  import opened Queues
  import opened Effects
  import opened WireOrder
  import opened Flight
  import opened Messages

  /** Negotiation continuations under way, and descriptions posted by them. */
  function Descriptions(e: Endpoint): nat {
    |e.peer.operations| + Count(IsDescription, e.sig.log)
  }

  /** The frozen part of the controller. */
  predicate Frozen(c: Controller, d: Controller) {
    && d.inbox == c.inbox && d.media == c.media && d.generations == c.generations
    && d.negotiation.offerStarted == c.negotiation.offerStarted && d.negotiation.ready == c.negotiation.ready
    && d.joinResponse == c.joinResponse
  }

  /** The end itself: the first reason and the moment stay, and a code once written is not written again. */
  predicate SameEnding(e: Endpoint, f: Endpoint) {
    && f.ctl.ending.finished && f.ctl.ending.at == e.ctl.ending.at
    && e.ctl.ending.attempts <= f.ctl.ending.attempts
    && (f.ctl.state == e.ctl.state || f.ctl.state.Finished?)
    && (e.thread.quit ==> f.thread.quit && f.ctl.state == e.ctl.state && f.ctl.ending.exitCode == e.ctl.ending.exitCode)
  }

  /** Of the peer client no new candidate is asked, and a description under way is the last one. */
  predicate WindsDown(e: Endpoint, f: Endpoint) {
    && f.peer.remote.offered == e.peer.remote.offered
    && e.sig.log <= f.sig.log
    && Descriptions(f) <= Descriptions(e)
    && (forall i | |e.sig.log| <= i < |f.sig.log| :: IsDescription(f.sig.log[i]) || f.sig.log[i].op.CloseSocket?)
  }

  predicate NoNewTimers(e: Endpoint, f: Endpoint) {
    forall t <- f.thread.timers :: t in e.thread.timers
  }

  predicate Absorbed(e: Endpoint, f: Endpoint) {
    Frozen(e.ctl, f.ctl) && SameEnding(e, f) && WindsDown(e, f) && NoNewTimers(e, f)
  }

  lemma AbsorbedTwice(e: Endpoint, f: Endpoint, g: Endpoint)
    requires Absorbed(e, f) && Absorbed(f, g)
    ensures Absorbed(e, g)
  {
    WindsDownTwice(e, f, g);
    hide WindsDown;
  }

  lemma WindsDownTwice(e: Endpoint, f: Endpoint, g: Endpoint)
    requires WindsDown(e, f) && WindsDown(f, g)
    ensures WindsDown(e, g)
  {
    hide Descriptions;
    forall i | |e.sig.log| <= i < |g.sig.log|
      ensures IsDescription(g.sig.log[i]) || g.sig.log[i].op.CloseSocket?
    {
      if i < |f.sig.log| {
        assert g.sig.log[i] == f.sig.log[i];
      }
    }
  }

  /** A late reason is recorded and changes nothing else. */
  lemma FinishAbsorbed(e: Endpoint, reason: TerminalReason)
    requires e.ctl.ending.finished
    ensures Absorbed(e, e) && Absorbed(e, Finish(e, reason)) && Absorbed(e, ActionDone(e, reason))
  {
    hide Count;
  }

  /** The pump does nothing any more. */
  lemma PumpAbsorbed(e: Endpoint)
    requires e.ctl.ending.finished
    ensures Pump(e) == e
  {
  }

  lemma OperationOffers(p: Peer, i: nat, ok: bool, sdp: string)
    requires i < |p.operations|
    ensures CompleteOperation(p, i, ok, sdp).0.remote.offered == p.remote.offered
  {
    hide ApplyAll, Without, SerializeSessionDescription;
    ApplyAllFrame(p.oracle, p.remote.(descriptionSet := true), p.remote.pending);
  }

  lemma OperationAbsorbed(e: Endpoint, i: nat, ok: bool, sdp: string)
    requires e.ctl.ending.finished && !e.thread.quit && i < |e.peer.operations|
    ensures Absorbed(e, OnOperationDone(e, i, ok, sdp))
  {
    hide Pump, CompleteOperation, Count;
    OperationOffers(e.peer, i, ok, sdp);
    OperationFrame(e.peer, i, ok, sdp);
    var (p, reply) := CompleteOperation(e.peer, i, ok, sdp);
    PumpAbsorbed(e.(peer := p, ctl := SetInFlight(e.ctl, false)));
    if reply.LocalDescriptionReady? {
      CountMore(IsDescription, e.sig.log, Last(Send(e, ForDescription, reply.json).sig.log));
    }
  }

  lemma DoneAbsorbed(e: Endpoint, purpose: Purpose, ok: bool)
    requires e.ctl.ending.finished && !e.thread.quit
    ensures Absorbed(e, OnDone(e, purpose, ok))
  {
    hide Pump, Finish, Count, Absorbed;
    FinishAbsorbed(e, SignalingError);
    match purpose
    case ForRegister =>
    case ForDescription => SentAbsorbed(e, ok);
    case ForCandidate =>
    case ForBye => CompleteAbsorbed(e);
    case ForJoin =>
    case NoReply =>
  }

  lemma SentAbsorbed(e: Endpoint, ok: bool)
    requires e.ctl.ending.finished
    ensures Absorbed(e, OnDescriptionSent(e, ok))
  {
    hide Pump, Count;
    PumpAbsorbed(e.(ctl := SetInFlight(e.ctl, false)));
  }

  lemma CompleteAbsorbed(e: Endpoint)
    requires e.ctl.ending.finished && !e.thread.quit
    ensures Absorbed(e, CompleteFinish(e, LocalDurationReached))
  {
    CountMore(IsDescription, e.sig.log, Last(Submit(e.sig, CloseSocket, NoReply, Malformed).log));
    hide Count;
  }

  lemma TookAbsorbed(e: Endpoint)
    requires e.ctl.ending.finished && e.sig.callbacks != []
    ensures Absorbed(e, Took(e)) && Took(e).ctl == e.ctl && Took(e).thread == e.thread
  {
    hide Count;
  }

  lemma CallbackAbsorbed(e: Endpoint)
    requires Ordered(e) && e.ctl.ending.finished && !e.thread.quit && e.sig.callbacks != []
    ensures Absorbed(e, RunCallback(e))
  {
    hide Ordered, Pump, Finish, OnDone, OnJoinComplete, Absorbed;
    OrderedQueues(e);
    CallbackHead(e);
    TookRuns(e);
    TookAbsorbed(e);
    var t := Took(e);
    FinishAbsorbed(t, SignalingError);
    match e.sig.callbacks[0]
    case Done(task, ok) =>
      DoneAbsorbed(t, task.purpose, ok);
      AbsorbedTwice(e, t, RunCallback(e));
    case _ =>
  }

  lemma NetworkAbsorbed(e: Endpoint, s: Signaling)
    requires e.ctl.ending.finished && s.log == e.sig.log
    ensures Absorbed(e, e.(sig := s))
  {
    hide Count;
  }

  lemma ReportAbsorbed(e: Endpoint, st: ConnectionState)
    requires e.ctl.ending.finished
    ensures Absorbed(e, OnConnectionChange(e, st)) && Absorbed(e, OnFrame(e))
  {
    hide Count;
  }

  lemma TimerAbsorbed(e: Endpoint, i: nat)
    requires e.ctl.ending.finished && i < |e.thread.timers|
    ensures Absorbed(e, OnTimer(e, i))
  {
    hide Count;
  }

  lemma ApplyAbsorbed(e: Endpoint, ev: Event)
    requires Ordered(e) && e.ctl.ending.finished && Enabled(e, ev)
    ensures Absorbed(e, Apply(e, ev))
  {
    hide Ordered, Absorbed, RunCallback, RunNetworkTask, OnOperationDone, OnConnectionChange, OnFrame, OnTimer,
      SerializeIceCandidate, OnSocketMessage;
    OrderedQueues(e);
    match ev
    case Network(o) =>
      NetworkHasShape(e.sig, o);
      NetworkAbsorbed(e, RunNetworkTask(e.sig, o));
    case Callback => CallbackAbsorbed(e);
    case OperationDone(i, ok, sdp) => OperationAbsorbed(e, i, ok, sdp);
    case ConnectionChange(st) => ReportAbsorbed(e, st);
    case VideoFrame => ReportAbsorbed(e, NewState);
    case TimerFires(i) => TimerAbsorbed(e, i);
    case LocalCandidate(_, _, _) => NetworkAbsorbed(e, e.sig);
    case ClockAdvances(to) => ClockAbsorbed(e, to);
    case _ => SocketAbsorbed(e, ev);
  }

  lemma ClockAbsorbed(e: Endpoint, to: nat)
    requires e.ctl.ending.finished
    ensures Absorbed(e, e.(thread := e.thread.(now := to)))
  {
    hide Count;
  }

  lemma SocketAbsorbed(e: Endpoint, ev: Event)
    requires e.ctl.ending.finished && Enabled(e, ev)
    requires ev.SocketOpen? || ev.SocketClose? || ev.SocketError? || ev.SocketMessage?
    ensures Absorbed(e, Apply(e, ev))
  {
    hide Count, ParseSignalingMessage, Absorbed;
    NetworkAbsorbed(e, Apply(e, ev).sig);
  }

  lemma {:induction false} RunAbsorbed(config: AppConfig, verdicts: nat -> bool, before: seq<Event>, after: seq<Event>)
    requires Run(Started(config, verdicts), before).ctl.ending.finished
    ensures Absorbed(Run(Started(config, verdicts), before), Run(Started(config, verdicts), before + after))
    decreases |after|
  {
    hide Ordered, Apply, Started, Absorbed;
    var e := Run(Started(config, verdicts), before);
    if after == [] {
      assert before + after == before;
      FinishAbsorbed(e, SignalingError);
    } else {
      var some := after[..|after| - 1];
      assert (before + after)[..|before + after| - 1] == before + some && Last(before + after) == Last(after);
      RunAbsorbed(config, verdicts, before, some);
      RunOrdered(config, verdicts, before + some);
      var f := Run(Started(config, verdicts), before + some);
      if Enabled(f, Last(after)) {
        EndStays(e, f);
        ApplyAbsorbed(f, Last(after));
        AbsorbedTwice(e, f, Apply(f, Last(after)));
      }
    }
  }

  lemma EndStays(e: Endpoint, f: Endpoint)
    requires Absorbed(e, f)
    ensures f.ctl.ending.finished
  {
  }

  lemma CompletedOnce(e: Endpoint)
    requires Ordered(e)
    ensures e.ctl.ending.completions == Bit(e.thread.quit) && (e.thread.quit <==> e.ctl.state.Finished?)
    ensures e.ctl.ending.finished ==> e.ctl.ending.attempts != []
  {
    hide QueuesFit, LogFits, LinkFits, WireFits, RegistersFit, ByeFits, PartsFit;
  }

  /** At most one description is under way when the call ends. */
  lemma DescriptionsAtEnd(e: Endpoint)
    requires QueuesFit(e.sig) && FlightFits(e) && !e.thread.quit
    ensures Descriptions(e) <= Count(IsDescription, e.sig.log) + 1
  {
    DescriptionsOutByHistory(e.sig);
    hide QueuesFit, Count;
  }

  /** The end is absorbing: from any moment at which the call has ended, whatever happens, it stays ended for the
      same reason; no message is queued or dispatched, no candidate handed on, no offer or timer started, nothing
      is established, and the only tasks still posted are the close and, while the bye is outstanding, at most
      one description whose making had begun. The phase goes only from stopping to finished, once. */
  lemma EndIsAbsorbing(config: AppConfig, verdicts: nat -> bool, before: seq<Event>, after: seq<Event>)
    requires Run(Started(config, verdicts), before).ctl.ending.finished
    ensures var e := Run(Started(config, verdicts), before);
      var f := Run(Started(config, verdicts), before + after);
      && Frozen(e.ctl, f.ctl) && SameEnding(e, f) && WindsDown(e, f) && NoNewTimers(e, f)
      && f.ctl.ending.attempts != [] && e.ctl.ending.attempts != []
      && f.ctl.ending.attempts[0] == e.ctl.ending.attempts[0]
      && f.ctl.ending.completions == Bit(f.thread.quit)
      && (!e.thread.quit ==> Count(IsDescription, f.sig.log) <= Count(IsDescription, e.sig.log) + 1)
  {
    hide Ordered, Apply, Started, Frozen, NoNewTimers, FlightFits, HasWork, Count, QueuesFit;
    RunAbsorbed(config, verdicts, before, after);
    RunOrdered(config, verdicts, before);
    RunOrdered(config, verdicts, before + after);
    RunQuiescent(config, verdicts, before);
    var e := Run(Started(config, verdicts), before);
    CompletedOnce(e);
    CompletedOnce(Run(Started(config, verdicts), before + after));
    OrderedQueues(e);
    if !e.thread.quit {
      DescriptionsAtEnd(e);
    }
  }
}
