/** Whether a description still goes out after the call has ended. */
module LastDescription {
  import opened Sequences
  import opened Common
  import opened PeerConnectionSpec
  import opened SignalingSpec
  import opened ControllerSpec
  import opened EndpointRuns
  import opened Lifecycle
  import opened Queues
  import opened Effects
  import opened WireOrder
  import opened Flight
  import opened Messages
  import opened Verdicts
  import opened AfterEnd

  /** The making of a description has begun, the call has not quit, and libwebrtc will not refuse what is left. */
  predicate MayStillPost(e: Endpoint) {
    && !e.thread.quit && e.peer.operations != []
    && var o := e.peer.oracle; var n := |e.peer.remote.pending|;
       match e.peer.operations[0]
       case SettingLocal(_, _) => true
       case Creating(_) => o.Next()
       case SettingRemote(t) => t.SdpOffer? && AllAccepted(o, n) && o.verdicts(o.asked + 2 * n)
  }

  /** The events that bring it out: what is outstanding succeeds, step by step. */
  function LastWords(e: Endpoint): seq<Event> {
    var done := OperationDone(0, true, "");
    if e.peer.operations == [] then []
    else
      match e.peer.operations[0]
      case SettingLocal(_, _) => [done]
      case Creating(_) => [done, done]
      case SettingRemote(_) => [done, done, done]
  }

  predicate AtMostOne(e: Endpoint) {
    |e.peer.operations| <= 1
  }

  function DescriptionsPosted(e: Endpoint): nat {
    Count(IsDescription, e.sig.log)
  }

  /** The state of the one operation, in which nothing else takes part. */
  ghost predicate SameOperation(e: Endpoint, f: Endpoint) {
    && DescriptionsPosted(f) == DescriptionsPosted(e)
    && if f.thread.quit then f.peer.operations == []
       else
         && !e.thread.quit && f.peer.operations == e.peer.operations && f.peer.oracle == e.peer.oracle
         && f.peer.remote.pending == e.peer.remote.pending
  }

  lemma SameMayPost(e: Endpoint, f: Endpoint)
    requires SameOperation(e, f)
    ensures MayStillPost(f) ==> MayStillPost(e)
  {
    hide AllAccepted, Count;
  }

  lemma OperationAnswers(p: Peer, ok: bool, sdp: string)
    requires |p.operations| == 1
    ensures var (q, reply) := CompleteOperation(p, 0, ok, sdp);
      var o := p.oracle; var n := |p.remote.pending|;
      && (!reply.Chained? ==> q.operations == [])
      && (reply.LocalDescriptionReady? <==> ok && p.operations[0].SettingLocal?)
      && (reply.Chained? <==>
            && ok
            && match p.operations[0]
               case Creating(_) => o.Next()
               case SettingRemote(t) => t.SdpOffer? && AllAccepted(o, n)
               case _ => false)
      && (reply.Chained? && p.operations[0].Creating? ==> |q.operations| == 1 && q.operations[0].SettingLocal?)
      && (reply.Chained? && p.operations[0].SettingRemote? ==>
            q.operations == [Creating(SdpAnswer)] && q.oracle == o.(asked := o.asked + 2 * n))
  {
    hide ApplyAll, AllAccepted, SerializeSessionDescription;
    assert Without(p.operations, 0) == [];
    ApplyAllAccepted(p.oracle, p.remote.(descriptionSet := true), p.remote.pending);
  }

  /** One completed operation of an ended call. */
  lemma OperationLast(e: Endpoint, ok: bool, sdp: string)
    requires e.ctl.ending.finished && !e.thread.quit && |e.peer.operations| == 1
    ensures var f := OnOperationDone(e, 0, ok, sdp);
      && f.ctl.ending.finished && !f.thread.quit && AtMostOne(f)
      && (MayStillPost(f) ==> MayStillPost(e))
      && (!MayStillPost(e) ==> DescriptionsPosted(f) == DescriptionsPosted(e))
      && (MayStillPost(e) && ok ==>
            if e.peer.operations[0].SettingLocal?
            then DescriptionsPosted(f) == DescriptionsPosted(e) + 1
            else
              && MayStillPost(f) && DescriptionsPosted(f) == DescriptionsPosted(e)
              && |LastWords(f)| == |LastWords(e)| - 1)
  {
    hide CompleteOperation, Count, AllAccepted, Pump;
    OperationAnswers(e.peer, ok, sdp);
    var (p, reply) := CompleteOperation(e.peer, 0, ok, sdp);
    PumpAbsorbed(e.(peer := p, ctl := SetInFlight(e.ctl, false)));
    if reply.LocalDescriptionReady? {
      CountMore(IsDescription, e.sig.log, Last(Send(e, ForDescription, reply.json).sig.log));
    }
    ChainedOperations(e.peer, ok, sdp);
  }

  lemma ChainedOperations(p: Peer, ok: bool, sdp: string)
    requires |p.operations| == 1
    ensures |CompleteOperation(p, 0, ok, sdp).0.operations| <= 1
  {
    OperationFrame(p, 0, ok, sdp);
    hide CompleteOperation;
  }

  /** A handler that leaves the peer client's operation alone, or closes it. */
  ghost predicate LeavesOperation(e: Endpoint, f: Endpoint) {
    && DescriptionsPosted(f) == DescriptionsPosted(e)
    && (e.thread.quit ==> f.thread.quit)
    && (f.thread.quit || (f.peer.operations == e.peer.operations && f.peer.oracle == e.peer.oracle
                          && f.peer.remote.pending == e.peer.remote.pending))
  }

  lemma LeftOperation(e: Endpoint, f: Endpoint)
    requires LeavesOperation(e, f) && Alive(f)
    ensures SameOperation(e, f)
  {
    hide EndingFits, Count;
  }

  lemma DoneLeaves(e: Endpoint, purpose: Purpose, ok: bool)
    requires e.ctl.ending.finished
    ensures LeavesOperation(e, OnDone(e, purpose, ok))
  {
    hide Pump, Count;
    PumpAbsorbed(e.(ctl := SetInFlight(e.ctl, false)));
    CountMore(IsDescription, e.sig.log, Last(Submit(e.sig, CloseSocket, NoReply, Malformed).log));
  }

  lemma CallbackLeaves(e: Endpoint)
    requires Ordered(e) && e.ctl.ending.finished && !e.thread.quit && e.sig.callbacks != []
    ensures LeavesOperation(e, RunCallback(e))
  {
    hide Ordered, Pump, OnDone, OnJoinComplete, Count;
    OrderedQueues(e);
    CallbackHead(e);
    TookRuns(e);
    match e.sig.callbacks[0]
    case JoinDone(_, _) => JoinIsPast(e);
    case Done(task, ok) => DoneLeaves(Took(e), task.purpose, ok);
    case _ =>
  }

  lemma JoinIsPast(e: Endpoint)
    requires e.ctl.ending.finished && e.sig.callbacks != [] && e.sig.callbacks[0].JoinDone?
    ensures RunCallback(e) == e.(sig := TakeCallback(e.sig))
  {
  }

  lemma ThreadLeaves(e: Endpoint, ev: Event)
    requires e.ctl.ending.finished && Enabled(e, ev)
    requires ev.ConnectionChange? || ev.VideoFrame? || ev.TimerFires? || ev.LocalCandidate? || ev.ClockAdvances?
    ensures LeavesOperation(e, Apply(e, ev))
  {
    hide Count, SerializeIceCandidate;
  }

  lemma ApplyLeaves(e: Endpoint, ev: Event)
    requires Ordered(e) && e.ctl.ending.finished && Enabled(e, ev) && !ev.OperationDone?
    ensures SameOperation(e, Apply(e, ev))
  {
    hide Ordered, Alive, LeavesOperation, SameOperation, RunCallback, RunNetworkTask, OnSocketMessage, OnTimer,
      OnConnectionChange, OnFrame, OnLocalCandidate, SerializeIceCandidate, Count;
    ApplyOrdered(e, ev);
    OrderedQueues(Apply(e, ev));
    match ev {
      case Network(o) =>
        OrderedQueues(e);
        NetworkHasShape(e.sig, o);
        SourcesLeave(e, RunNetworkTask(e.sig, o));
      case Callback => CallbackLeaves(e);
      case SocketOpen => SocketLeaves(e, ev);
      case SocketClose => SocketLeaves(e, ev);
      case SocketError => SocketLeaves(e, ev);
      case SocketMessage(_) => SocketLeaves(e, ev);
      case _ => ThreadLeaves(e, ev);
    }
    LeftOperation(e, Apply(e, ev));
  }

  lemma SourcesLeave(e: Endpoint, s: Signaling)
    requires s.log == e.sig.log
    ensures LeavesOperation(e, e.(sig := s))
  {
    hide Count;
  }

  lemma SocketLeaves(e: Endpoint, ev: Event)
    requires Enabled(e, ev) && (ev.SocketOpen? || ev.SocketClose? || ev.SocketError? || ev.SocketMessage?)
    ensures LeavesOperation(e, Apply(e, ev))
  {
    hide ParseSignalingMessage, LeavesOperation;
    SourcesLeave(e, Apply(e, ev).sig);
  }

  lemma OneUnderWay(e: Endpoint)
    requires Ordered(e) && Quiescent(e)
    ensures AtMostOne(e)
  {
    OrderedQueues(e);
    DescriptionsOutByHistory(e.sig);
    hide Count, QueuesFit, LogFits, LinkFits, WireFits, RegistersFit, ByeFits;
  }

  /** Once no description can go out, none ever does. */
  lemma {:induction false} NoneGoesOut(config: AppConfig, verdicts: nat -> bool, before: seq<Event>, after: seq<Event>)
    requires Run(Started(config, verdicts), before).ctl.ending.finished
    requires !MayStillPost(Run(Started(config, verdicts), before))
    ensures var f := Run(Started(config, verdicts), before + after);
      && !MayStillPost(f) && f.ctl.ending.finished
      && DescriptionsPosted(f) == DescriptionsPosted(Run(Started(config, verdicts), before))
    decreases |after|
  {
    hide Ordered, Quiescent, Apply, Started, MayStillPost, DescriptionsPosted;
    if after == [] {
      assert before + after == before;
    } else {
      var some := after[..|after| - 1];
      assert (before + after)[..|before + after| - 1] == before + some && Last(before + after) == Last(after);
      NoneGoesOut(config, verdicts, before, some);
      RunOrdered(config, verdicts, before + some);
      RunQuiescent(config, verdicts, before + some);
      var f := Run(Started(config, verdicts), before + some);
      if Enabled(f, Last(after)) {
        StepPostsNone(f, Last(after));
      }
    }
  }

  lemma StepPostsNone(e: Endpoint, ev: Event)
    requires Ordered(e) && Quiescent(e) && e.ctl.ending.finished && Enabled(e, ev) && !MayStillPost(e)
    ensures var f := Apply(e, ev);
      !MayStillPost(f) && f.ctl.ending.finished && DescriptionsPosted(f) == DescriptionsPosted(e)
  {
    hide Ordered, Quiescent, MayStillPost, DescriptionsPosted, OnOperationDone, Absorbed;
    OneUnderWay(e);
    ApplyAbsorbed(e, ev);
    EndStays(e, Apply(e, ev));
    if ev.OperationDone? {
      OperationLast(e, ev.ok, ev.sdp);
    } else {
      hide Apply;
      ApplyLeaves(e, ev);
      SameMayPost(e, Apply(e, ev));
    }
  }

  /** If one can go out, the success of what is outstanding brings it out, and it is the only one. */
  lemma {:induction false} LastWordsPost(e: Endpoint)
    requires e.ctl.ending.finished && AtMostOne(e) && MayStillPost(e)
    ensures DescriptionsPosted(Run(e, LastWords(e))) == DescriptionsPosted(e) + 1
    decreases |LastWords(e)|
  {
    hide AllAccepted, DescriptionsPosted, OnOperationDone;
    var done := OperationDone(0, true, "");
    var f := OnOperationDone(e, 0, true, "");
    OperationLast(e, true, "");
    assert Step(e, done) == f;
    RunOne(e, done);
    if e.peer.operations[0].SettingLocal? {
    } else {
      LastWordsPost(f);
      LastWordsGo(e, f);
      RunAppend(e, [done], LastWords(f));
    }
  }

  lemma LastWordsGo(e: Endpoint, f: Endpoint)
    requires |LastWords(f)| == |LastWords(e)| - 1
    ensures LastWords(e) == [OperationDone(0, true, "")] + LastWords(f)
  {
  }

  /** A description still goes out after the end in some continuation if and only if its making had begun, the call
      has not quit, and libwebrtc will not refuse what is left of it; then the continuation in which everything
      outstanding succeeds brings it out, exactly once. */
  lemma DescriptionAfterEnd(config: AppConfig, verdicts: nat -> bool, before: seq<Event>)
    requires Run(Started(config, verdicts), before).ctl.ending.finished
    ensures var e := Run(Started(config, verdicts), before);
      && ((exists after :: DescriptionsPosted(Run(Started(config, verdicts), before + after)) > DescriptionsPosted(e))
            <==> MayStillPost(e))
      && (MayStillPost(e) ==>
            DescriptionsPosted(Run(Started(config, verdicts), before + LastWords(e))) == DescriptionsPosted(e) + 1)
  {
    hide Ordered, Quiescent, Apply, Started, MayStillPost, DescriptionsPosted, LastWords, Run;
    var e := Run(Started(config, verdicts), before);
    if MayStillPost(e) {
      RunOrdered(config, verdicts, before);
      RunQuiescent(config, verdicts, before);
      OneUnderWay(e);
      LastWordsPost(e);
      RunAppend(Started(config, verdicts), before, LastWords(e));
    } else {
      forall after
        ensures DescriptionsPosted(Run(Started(config, verdicts), before + after)) == DescriptionsPosted(e)
      {
        NoneGoesOut(config, verdicts, before, after);
      }
    }
  }
}
