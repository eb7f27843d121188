/** How long an ended call takes to quit, and what stays as it was then. */
module Shutdown {
  import opened Sequences
  import opened Common
  import opened PeerConnectionSpec
  import opened SignalingSpec
  import opened ControllerSpec
  import opened EndpointRuns
  import opened Lifecycle
  import opened Queues
  import opened Effects
  import opened WireOrder
  import opened Flight
  import opened Messages
  import opened RelayTexts
  import opened AfterEnd
  import opened Guarantees

  /** How many steps of the network thread a run makes. */
  function NetworkSteps(e: Endpoint, events: seq<Event>): nat {
    if events == [] then 0
    else
      var before := events[..|events| - 1];
      NetworkSteps(e, before) + Bit(Last(events).Network? && Enabled(Run(e, before), Last(events)))
  }

  /** How many callbacks a run runs. */
  function CallbackSteps(e: Endpoint, events: seq<Event>): nat {
    if events == [] then 0
    else
      var before := events[..|events| - 1];
      CallbackSteps(e, before) + Bit(Last(events).Callback? && Enabled(Run(e, before), Last(events)))
  }

  /** How many requests have left the network queue. */
  function Begun(s: Signaling): int {
    |s.log| - |s.network|
  }

  lemma NetworkAdvances(e: Endpoint, ev: Event)
    requires Ordered(e) && Enabled(e, ev)
    ensures Begun(Apply(e, ev).sig) == Begun(e.sig) + Bit(ev.Network?)
  {
    hide Ordered, QueuesFit, RunCallback, RunNetworkTask, OnOperationDone, OnConnectionChange, OnFrame, OnTimer,
      OnLocalCandidate, SerializeIceCandidate, ParseSignalingMessage;
    OrderedQueues(e);
    match ev
    case Network(o) => NetworkHasShape(e.sig, o);
    case Callback => CallbackQueues(e);
    case SocketOpen =>
    case SocketClose =>
    case SocketError =>
    case SocketMessage(_) =>
    case _ =>
      ApplyEffect(e, ev);
      EffectQueues(e, Apply(e, ev));
  }

  /** What was answered in `f`, and the first `k` of those that waited for their callback, are answered in `g`. */
  predicate Answers(f: Signaling, g: Signaling, k: nat) {
    if k <= |f.callbacks| then
      g.delivered == f.delivered + Collect(Answered, f.callbacks[..k]) && f.callbacks[k..] <= g.callbacks
    else
      f.delivered + Collect(Answered, f.callbacks) <= g.delivered
  }

  lemma CallbackDelivers(e: Endpoint)
    requires Ordered(e) && !e.thread.quit && e.sig.callbacks != []
    ensures RunCallback(e).sig.delivered == TakeCallback(e.sig).delivered
    ensures RunCallback(e).sig.callbacks == e.sig.callbacks[1..]
  {
    hide Ordered, Alive, Effect, RunCallback, SameSources;
    OrderedQueues(e);
    CallbackHead(e);
    if e.sig.callbacks[0].Opened? || ByeAnswered(e.sig.callbacks[0]) {
      OtherDelivers(e);
    } else {
      CallbackEffect(e);
      EffectDelivers(Took(e), RunCallback(e));
    }
  }

  lemma OtherDelivers(e: Endpoint)
    requires e.sig.callbacks != [] && (e.sig.callbacks[0].Opened? || ByeAnswered(e.sig.callbacks[0]))
    ensures RunCallback(e).sig.delivered == TakeCallback(e.sig).delivered
    ensures RunCallback(e).sig.callbacks == e.sig.callbacks[1..]
  {
  }

  lemma EffectDelivers(e: Endpoint, f: Endpoint)
    requires Effect(e, f)
    ensures f.sig.delivered == e.sig.delivered && f.sig.callbacks == e.sig.callbacks
  {
  }

  lemma OthersDeliver(e: Endpoint, ev: Event)
    requires Ordered(e) && Enabled(e, ev) && !ev.Callback?
    ensures var t := Apply(e, ev).sig; t.delivered == e.sig.delivered && e.sig.callbacks <= t.callbacks
  {
    hide Ordered, QueuesFit, RunNetworkTask, OnOperationDone, OnConnectionChange, OnFrame, OnTimer,
      OnLocalCandidate, SerializeIceCandidate, ParseSignalingMessage;
    OrderedQueues(e);
    match ev
    case Network(o) => NetworkHasShape(e.sig, o);
    case SocketOpen =>
    case SocketClose =>
    case SocketError =>
    case SocketMessage(_) =>
    case Callback =>
    case _ =>
      ApplyEffect(e, ev);
      EffectDelivers(e, Apply(e, ev));
  }

  /** The next callback of `f` is answered. */
  lemma AnswersNext(f: Signaling, g: Signaling, h: Signaling, k: nat)
    requires Answers(f, g, k) && g.callbacks != []
    requires h.delivered == TakeCallback(g).delivered && h.callbacks == g.callbacks[1..]
    ensures Answers(f, h, k + 1)
  {
    if k < |f.callbacks| {
      var c := f.callbacks[k];
      assert f.callbacks[k..][0] == c == g.callbacks[0];
      assert f.callbacks[..k + 1] == f.callbacks[..k] + [c];
      CollectAppend(Answered, f.callbacks[..k], [c]);
      assert Collect(Answered, [c]) == if Answered(c).Some? then [c.task] else [];
      assert f.callbacks[k + 1..] == f.callbacks[k..][1..];
      hide Collect;
    } else if k == |f.callbacks| {
      assert f.callbacks[..k] == f.callbacks;
    }
  }

  lemma AnswersStill(f: Signaling, g: Signaling, h: Signaling, k: nat)
    requires Answers(f, g, k) && h.delivered == g.delivered && g.callbacks <= h.callbacks
    ensures Answers(f, h, k)
  {
    hide Collect;
  }

  lemma AnswersNone(f: Signaling)
    ensures Answers(f, f, 0)
  {
  }

  lemma {:induction false} RunAdvances(config: AppConfig, verdicts: nat -> bool, before: seq<Event>, after: seq<Event>)
    ensures var e := Run(Started(config, verdicts), before);
      var f := Run(Started(config, verdicts), before + after);
      && Begun(f.sig) == Begun(e.sig) + NetworkSteps(e, after)
      && Answers(e.sig, f.sig, CallbackSteps(e, after))
    decreases |after|
  {
    hide Ordered, Apply, Enabled, Started, Answers, Begun;
    var e := Run(Started(config, verdicts), before);
    if after == [] {
      assert before + after == before;
      AnswersNone(e.sig);
    } else {
      var some := after[..|after| - 1];
      var ev := Last(after);
      assert (before + after)[..|before + after| - 1] == before + some && Last(before + after) == ev;
      RunAdvances(config, verdicts, before, some);
      RunOrdered(config, verdicts, before + some);
      RunAppend(Started(config, verdicts), before, some);
      var f := Run(Started(config, verdicts), before + some);
      if Enabled(f, ev) {
        NetworkAdvances(f, ev);
        if ev.Callback? {
          CallbackAdvances(e.sig, f, CallbackSteps(e, some));
        } else {
          OthersDeliver(f, ev);
          AnswersStill(e.sig, f.sig, Apply(f, ev).sig, CallbackSteps(e, some));
        }
      }
    }
  }

  lemma CallbackAdvances(s: Signaling, f: Endpoint, k: nat)
    requires Ordered(f) && Enabled(f, Callback) && Answers(s, f.sig, k)
    ensures Answers(s, Apply(f, Callback).sig, k + 1)
  {
    hide Ordered, RunCallback, Answers, TakeCallback;
    CallbackDelivers(f);
    AnswersNext(s, f.sig, RunCallback(f).sig, k);
  }

  lemma ByesByHistory(s: Signaling)
    requires QueuesFit(s)
    ensures Count(IsBye, s.log) == Count(IsBye, s.delivered + Collect(Answered, s.callbacks)) + Count(IsBye, s.network)
  {
    FilterTwice(IsBye, HasReply, s.log);
    FilterTwice(IsBye, HasReply, s.network);
    FilterAppend(IsBye, s.delivered + Collect(Answered, s.callbacks), Filter(HasReply, s.network));
  }

  /** Once everything posted before the end has left the network queue, no bye is in it. */
  lemma NoByeInNetwork(e: Endpoint, f: Endpoint)
    requires QueuesFit(f.sig) && WindsDown(e, f) && Begun(f.sig) >= |e.sig.log|
    ensures Count(IsBye, f.sig.network) == 0
  {
    hide Filter, Descriptions;
    forall t | t in f.sig.network
      ensures !IsBye(t)
    {
      var i :| 0 <= i < |f.sig.network| && f.sig.network[i] == t;
      assert t == f.sig.log[Begun(f.sig) + i];
      assert PurposeFits(t.op, t.purpose);
    }
    CountNone(IsBye, f.sig.network);
  }

  lemma AllAnswered(f: Signaling, g: Signaling, k: nat)
    requires Answers(f, g, k) && k >= |f.callbacks|
    ensures Count(IsBye, f.delivered + Collect(Answered, f.callbacks)) <= Count(IsBye, g.delivered)
  {
    assert f.callbacks[..|f.callbacks|] == f.callbacks;
    FilterPrefix(IsBye, f.delivered + Collect(Answered, f.callbacks), g.delivered);
  }

  lemma ByeSettles(e: Endpoint, f: Endpoint, g: Endpoint, k: nat)
    requires Ordered(f) && Ordered(g) && WindsDown(e, f) && f.ctl.ending.finished
    requires Begun(f.sig) >= |e.sig.log| && Answers(f.sig, g.sig, k) && k >= |f.sig.callbacks|
    requires f.thread.quit ==> g.thread.quit
    ensures g.thread.quit
  {
    hide Ordered, WindsDown, Answers, Count, Begun;
    OrderedQueues(f);
    if !f.thread.quit {
      EndedLocally(f);
      ByesByHistory(f.sig);
      NoByeInNetwork(e, f);
      AllAnswered(f.sig, g.sig, k);
      ByeDelivered(g);
    }
  }

  lemma ByeDelivered(e: Endpoint)
    requires Ordered(e) && Count(IsBye, e.sig.delivered) > 0
    ensures e.thread.quit
  {
    hide Alive, QueuesFit, LogFits, LinkFits, WireFits, RegistersFit, Count;
  }

  /** A bound on the shutdown, whatever else happens meanwhile: once a call has ended, and the network thread has
      made as many steps as requests were waiting for it, the call has quit by the time that the callbacks
      waiting then have run. */
  lemma EndedCallQuits(config: AppConfig, verdicts: nat -> bool,
                       before: seq<Event>, first: seq<Event>, second: seq<Event>)
    requires Run(Started(config, verdicts), before).ctl.ending.finished
    requires var e := Run(Started(config, verdicts), before);
      NetworkSteps(e, first) >= |e.sig.network|
    requires var f := Run(Started(config, verdicts), before + first);
      CallbackSteps(f, second) >= |f.sig.callbacks|
    ensures Run(Started(config, verdicts), before + first + second).thread.quit
  {
    hide Ordered, Apply, Enabled, Started, Answers, WindsDown, Frozen, NoNewTimers, NetworkSteps, CallbackSteps,
      Run;
    RunOrdered(config, verdicts, before + first);
    RunOrdered(config, verdicts, before + first + second);
    RunAdvances(config, verdicts, before, first);
    RunAdvances(config, verdicts, before + first, second);
    RunAbsorbed(config, verdicts, before, first);
    RunAbsorbed(config, verdicts, before + first, second);
    ByeSettles(Run(Started(config, verdicts), before),
               Run(Started(config, verdicts), before + first),
               Run(Started(config, verdicts), before + first + second),
               CallbackSteps(Run(Started(config, verdicts), before + first), second));
  }

  lemma QuitStep(e: Endpoint, ev: Event)
    requires e.thread.quit && Enabled(e, ev)
    ensures var f := Apply(e, ev); f.thread.quit && f.ctl == e.ctl && f.peer == e.peer
  {
    hide OnSocketMessage;
  }

  /** After the quit the controller and the peer client are as they were, whatever still happens: in particular the
      in-flight flag keeps its value for ever, although no continuation is left to lower it. */
  lemma {:induction false} QuitFreezes(config: AppConfig, verdicts: nat -> bool, before: seq<Event>, after: seq<Event>)
    requires Run(Started(config, verdicts), before).thread.quit
    ensures var e := Run(Started(config, verdicts), before);
      var f := Run(Started(config, verdicts), before + after);
      f.thread.quit && f.ctl == e.ctl && f.peer == e.peer && f.peer.operations == []
    decreases |after|
  {
    hide Ordered, Apply, Started;
    if after == [] {
      assert before + after == before;
      RunOrdered(config, verdicts, before);
      NothingOutstanding(Run(Started(config, verdicts), before));
    } else {
      var some := after[..|after| - 1];
      assert (before + after)[..|before + after| - 1] == before + some && Last(before + after) == Last(after);
      QuitFreezes(config, verdicts, before, some);
      var f := Run(Started(config, verdicts), before + some);
      if Enabled(f, Last(after)) {
        QuitStep(f, Last(after));
      }
    }
  }

  lemma NothingOutstanding(e: Endpoint)
    requires Ordered(e) && e.thread.quit
    ensures e.peer.operations == []
  {
    hide EndingFits, QueuesFit, LogFits, LinkFits, WireFits, RegistersFit, ByeFits;
  }

  /** The event runs the continuation for which the in-flight flag is up. */
  predicate ConcludesAction(e: Endpoint, ev: Event) {
    || ev.OperationDone?
    || (ev.Callback? && e.sig.callbacks != [] && e.sig.callbacks[0].Done? && IsDescription(e.sig.callbacks[0].task))
  }

  /** A handler that ends with the flag at `up`, if it quits. */
  predicate QuitsWith(f: Endpoint, up: bool) {
    f.thread.quit ==> f.ctl.negotiation.inFlight == up
  }

  lemma FinishFlag(e: Endpoint, reason: TerminalReason)
    ensures Finish(e, reason).ctl.negotiation == e.ctl.negotiation
  {
    hide ByeMessage;
  }

  lemma ActFlag(e: Endpoint)
    requires HasWork(e) && !e.thread.quit
    ensures Act(e).thread.quit ==> !Act(e).ctl.negotiation.inFlight
  {
    hide AddCandidate, ByeMessage;
  }

  /** The pump works only with the flag down, and what it starts does not quit. */
  lemma {:induction false} PumpFlag(e: Endpoint)
    requires Alive(e) && !e.thread.quit
    ensures Pump(e).thread.quit ==> !Pump(e).ctl.negotiation.inFlight && !e.ctl.negotiation.inFlight
    decreases Work(e)
  {
    hide Act, Alive;
    if HasWork(e) {
      ActFlag(e);
      ActAlive(e);
      if Act(e).thread.quit {
        QuitHasNoWork(Act(e));
      } else {
        PumpFlag(Act(e));
      }
    }
  }

  lemma QuitHasNoWork(e: Endpoint)
    requires Alive(e) && e.thread.quit
    ensures Pump(e) == e
  {
  }

  lemma OperationFlag(e: Endpoint, i: nat, ok: bool, sdp: string)
    requires Alive(e) && !e.thread.quit && i < |e.peer.operations|
    ensures QuitsWith(OnOperationDone(e, i, ok, sdp), false)
  {
    hide Pump, Finish, CompleteOperation, EndingFits;
    OperationFrame(e.peer, i, ok, sdp);
    var (p, reply) := CompleteOperation(e.peer, i, ok, sdp);
    var f := e.(peer := p, ctl := SetInFlight(e.ctl, false));
    if reply.RemoteAnswerSet? {
      AliveIdle(e, p);
      PumpFlag(f);
    } else if reply.ActionFailed? {
      FinishFlag(f, PeerConnectionError);
    }
  }

  lemma DoneFlag(e: Endpoint, purpose: Purpose, ok: bool)
    requires Alive(e) && !e.thread.quit
    requires purpose.ForRegister? && ok && !e.ctl.ending.finished ==> e.ctl.negotiation.ready
    ensures QuitsWith(OnDone(e, purpose, ok), e.ctl.negotiation.inFlight && !purpose.ForDescription?)
  {
    hide Pump, Finish;
    var f := e.(ctl := SetInFlight(e.ctl, false));
    match purpose
    case ForRegister =>
      PumpFlag(e);
      FinishFlag(e, SignalingError);
    case ForDescription =>
      PumpFlag(f);
      FinishFlag(f, SignalingError);
    case ForCandidate => FinishFlag(e, SignalingError);
    case _ =>
  }

  lemma JoinFlag(e: Endpoint, response: Option<JoinResponse>)
    ensures OnJoinComplete(e, response).ctl.negotiation == e.ctl.negotiation
  {
    hide Finish, JoinQueue;
    FinishFlag(e, SignalingError);
    var f := e.(ctl := e.ctl.(joinResponse := response));
    FinishFlag(f.(peer := Initialize(f.peer).0), PeerConnectionError);
    FinishFlag(f.(peer := StartMedia(Initialize(f.peer).0).0), MediaError);
  }

  lemma CallbackFlag(e: Endpoint)
    requires Ordered(e) && !e.thread.quit && e.sig.callbacks != []
    ensures QuitsWith(RunCallback(e), e.ctl.negotiation.inFlight && !ConcludesAction(e, Callback))
  {
    hide Ordered, Pump, Finish, OnDone, OnJoinComplete;
    OrderedQueues(e);
    CallbackHead(e);
    TookRuns(e);
    var t := Took(e);
    match e.sig.callbacks[0]
    case Opened =>
    case Inbound(m) => PumpFlag(Enqueued(t, m));
    case ErrorNotice => FinishFlag(t, SignalingError);
    case JoinDone(_, response) => JoinFlag(t, response);
    case Done(task, ok) => DoneFlag(t, task.purpose, ok);
  }

  lemma ReportFlag(e: Endpoint, st: ConnectionState)
    ensures OnConnectionChange(e, st).ctl.negotiation == e.ctl.negotiation
    ensures OnFrame(e).ctl.negotiation == e.ctl.negotiation
  {
    hide Finish;
    FinishFlag(OnConnectionEdge(e, st), PeerConnectionError);
  }

  lemma TimerFlag(e: Endpoint, i: nat)
    requires i < |e.thread.timers|
    ensures OnTimer(e, i).ctl.negotiation == e.ctl.negotiation
  {
    hide Finish;
    var f := e.(thread := e.thread.(timers := Without(e.thread.timers, i)));
    FinishFlag(f, StartupTimeout);
    FinishFlag(f, LocalDurationReached);
  }

  lemma ApplyFlag(e: Endpoint, ev: Event)
    requires Ordered(e) && !e.thread.quit && Enabled(e, ev)
    ensures QuitsWith(Apply(e, ev), e.ctl.negotiation.inFlight && !ConcludesAction(e, ev))
  {
    hide Ordered, RunCallback, RunNetworkTask, OnOperationDone, OnConnectionChange, OnFrame, OnTimer, OnSocketMessage,
      SerializeIceCandidate;
    OrderedQueues(e);
    match ev
    case Callback => CallbackFlag(e);
    case OperationDone(i, ok, sdp) => OperationFlag(e, i, ok, sdp);
    case ConnectionChange(st) => ReportFlag(e, st);
    case VideoFrame => ReportFlag(e, NewState);
    case TimerFires(i) => TimerFlag(e, i);
    case _ =>
  }

  /** Exactly when the flag is left up for ever: a call quits, at any event, and from then on the flag is up, with no
      continuation outstanding, if and only if it was up before that event and the event was not the continuation
      that lowers it. */
  lemma FlagAfterQuit(config: AppConfig, verdicts: nat -> bool, before: seq<Event>, ev: Event, after: seq<Event>)
    requires var e := Run(Started(config, verdicts), before);
      !e.thread.quit && Enabled(e, ev) && Apply(e, ev).thread.quit
    ensures var e := Run(Started(config, verdicts), before);
      var f := Run(Started(config, verdicts), before + [ev] + after);
      && (f.ctl.negotiation.inFlight <==> e.ctl.negotiation.inFlight && !ConcludesAction(e, ev))
      && f.peer.operations == [] && f.thread.quit
  {
    hide Started, Apply, Enabled, Ordered, ConcludesAction;
    var e := Run(Started(config, verdicts), before);
    RunOrdered(config, verdicts, before);
    ApplyFlag(e, ev);
    RunAppend(Started(config, verdicts), before, [ev]);
    RunOne(e, ev);
    QuitFreezes(config, verdicts, before + [ev], after);
  }
}
