/** What the callers of the signaling client can rely on, over whole runs. */
module Guarantees {
  import opened Sequences
  import opened Common
  import opened SignalingSpec
  import opened ControllerSpec
  import opened EndpointRuns
  import opened Lifecycle
  import opened Queues
  import opened Effects
  import opened WireOrder
  import opened Messages
  import opened RelayTexts
  import opened Watchdog

  /** No two of the tasks are the same, and they are in the order they were posted. */
  predicate InPostingOrder(tasks: seq<NetTask>) {
    forall i, j | 0 <= i < j < |tasks| :: tasks[i].id < tasks[j].id
  }

  lemma {:induction false} FilterInPostingOrder(keep: NetTask -> bool, tasks: seq<NetTask>)
    requires InPostingOrder(tasks)
    ensures InPostingOrder(Filter(keep, tasks))
  {
    if tasks != [] {
      var rest := Filter(keep, tasks[1..]);
      FilterInPostingOrder(keep, tasks[1..]);
      forall t | t in rest
        ensures tasks[0].id < t.id
      {
        FilterMember(keep, tasks[1..], t);
      }
    }
  }

  lemma InOrderPosted(s: Signaling)
    requires QueuesFit(s)
    ensures InPostingOrder(s.log) && InPostingOrder(s.delivered)
  {
    hide Filter, Collect;
    FilterInPostingOrder(HasReply, s.log);
    assert s.delivered <= Filter(HasReply, s.log);
  }

  /** Exactly once and in order: the requests whose callback has run are the first ones posted, each once; the
      rest wait, in the same order, in the callback queue and then in the network queue, whatever the outcomes. */
  lemma ExactlyOnceInOrder(config: AppConfig, verdicts: nat -> bool, events: seq<Event>)
    ensures var s := Run(Started(config, verdicts), events).sig;
      && Filter(HasReply, s.log) == s.delivered + Collect(Answered, s.callbacks) + Filter(HasReply, s.network)
      && InPostingOrder(s.log) && InPostingOrder(s.delivered)
      && (s.callbacks == [] && s.network == [] ==> s.delivered == Filter(HasReply, s.log))
  {
    hide Apply, Started, Alive, LogFits, LinkFits, WireFits, RegistersFit, ByeFits;
    RunOrdered(config, verdicts, events);
    InOrderPosted(Run(Started(config, verdicts), events).sig);
  }

  /** One step of progress: running the network task at the head of its queue answers it, if it wants an
      answer, at the end of the callback queue, and puts at most its own frame on the wire. */
  lemma NetworkAnswersHead(config: AppConfig, verdicts: nat -> bool, events: seq<Event>, o: NetOutcome)
    requires OutcomeFits(Run(Started(config, verdicts), events).sig, o)
    ensures var s := Run(Started(config, verdicts), events).sig;
      var t := RunNetworkTask(s, o);
      && t.network == s.network[1..]
      && Collect(Answered, t.callbacks)
           == Collect(Answered, s.callbacks) + (if HasReply(s.network[0]) then [s.network[0]] else [])
      && (t.wire == s.wire || (HasReply(s.network[0]) && t.wire == s.wire + [FrameOf(s.network[0])]))
  {
    hide Apply, Started, Ordered, QueuesFit, RunNetworkTask;
    RunOrdered(config, verdicts, events);
    var s := Run(Started(config, verdicts), events).sig;
    OrderedQueues(Run(Started(config, verdicts), events));
    NetworkHasShape(s, o);
    if HasReply(s.network[0]) {
      CollectAppend(Answered, s.callbacks, [Last(RunNetworkTask(s, o).callbacks)]);
    }
  }

  /** The flag agrees with the socket: it is up only while the socket is, and as long as no close was asked for it is
      up whenever the socket is. */
  predicate FlagFits(s: Signaling) {
    && (s.link.websocketOpen ==> s.link.socket.Up?)
    && (s.link.socket.Up? && !s.link.closing ==> s.link.websocketOpen)
  }

  lemma ApplyFlagFits(e: Endpoint, ev: Event)
    requires Ordered(e) && Enabled(e, ev) && FlagFits(e.sig)
    ensures FlagFits(Apply(e, ev).sig)
  {
    hide Ordered, QueuesFit, RunCallback, RunNetworkTask, OnOperationDone, OnConnectionChange, OnFrame, OnTimer,
      OnLocalCandidate, SerializeIceCandidate, ParseSignalingMessage;
    OrderedQueues(e);
    match ev
    case Network(o) => NetworkHasShape(e.sig, o);
    case Callback => CallbackKeeps(e);
    case SocketOpen =>
    case SocketClose =>
    case SocketError =>
    case SocketMessage(_) =>
    case _ =>
      ApplyEffect(e, ev);
      EffectKeeps(e, Apply(e, ev));
  }

  lemma {:induction false} RunFlagFits(config: AppConfig, verdicts: nat -> bool, events: seq<Event>)
    ensures FlagFits(Run(Started(config, verdicts), events).sig)
  {
    hide Ordered, Apply;
    if events != [] {
      hide Started;
      RunFlagFits(config, verdicts, events[..|events| - 1]);
      RunOrdered(config, verdicts, events[..|events| - 1]);
      var e := Run(Started(config, verdicts), events[..|events| - 1]);
      if Enabled(e, Last(events)) {
        ApplyFlagFits(e, Last(events));
      }
    }
  }

  /** What sending does and what the sender is told, in every reachable state and for every request that carries a
      frame: one that needs the socket fails, with nothing put on the wire, if the flag is down; otherwise its frame
      leaves unless it is lost on the way, and success is reported exactly when it arrived and that is known. The
      flag is up only while the socket is. */
  lemma SendersAreTold(config: AppConfig, verdicts: nat -> bool, events: seq<Event>, sent: SendOutcome)
    requires OutcomeFits(Run(Started(config, verdicts), events).sig, SendOutcomeOf(sent))
    ensures var s := Run(Started(config, verdicts), events).sig;
      var head := s.network[0];
      var t := RunNetworkTask(s, SendOutcomeOf(sent));
      && (s.link.websocketOpen ==> s.link.socket.Up?)
      && (s.link.socket.Up? && !s.link.closing ==> s.link.websocketOpen)
      && t.network == s.network[1..] && t.link == s.link
      && if (head.op.RegisterClient? || head.op.SocketSend?) && !s.link.websocketOpen
         then t.wire == s.wire && t.callbacks == s.callbacks + [Done(head, false)]
         else
           && t.callbacks == s.callbacks + [Done(head, sent == Delivered)]
           && t.wire == s.wire + (if sent == Lost then []
                                  else if head.op.RegisterClient? then [RegisterFrame]
                                  else [MessageFrame(head.text)])
  {
    hide Apply, Started;
    RunFlagFits(config, verdicts, events);
  }

  /** While the join is on its way nothing else is, and nothing has happened yet. */
  lemma JoinIsAlone(e: Endpoint)
    requires Ordered(e) && e.sig.network != [] && e.sig.network[0].op.JoinRoom?
    ensures e.sig.callbacks == [] && e.sig.wire == [] && |e.sig.network| == 1
  {
    hide Alive, RegistersFit, ByeFits;
    HeadOfNetwork(e.sig);
    assert e.sig.network == e.sig.log;
    assert Collect(Answered, e.sig.callbacks) == [];
    NothingBeforeRegister(e.sig.wire);
  }

  lemma NothingBeforeRegister(wire: seq<Frame>)
    requires wire != [] ==> wire[0].RegisterFrame?
    ensures Count(IsRegisterFrame, wire) == 0 ==> wire == []
  {
  }

  /** The join has five ends: only the success hands anything over, namely the answer and the messages stored in the
      room, and the other four are all reported as failures. */
  lemma JoinersAreTold(config: AppConfig, verdicts: nat -> bool, events: seq<Event>, reply: JoinReply)
    requires OutcomeFits(Run(Started(config, verdicts), events).sig, JoinOutcome(reply))
    ensures var s := Run(Started(config, verdicts), events).sig;
      var t := RunNetworkTask(s, JoinOutcome(reply));
      && t.wire == s.wire && t.link == s.link && s.callbacks == [] && s.wire == [] && |s.network| == 1
      && match reply
         case Accepted(response) =>
           t.callbacks == [JoinDone(s.network[0], Some(response))] && t.stored == response.messages
         case _ => t.callbacks == [JoinDone(s.network[0], None)] && t.stored == []
  {
    hide Apply, Started, Alive, RegistersFit, Count, Collect;
    RunOrdered(config, verdicts, events);
    JoinIsAlone(Run(Started(config, verdicts), events));
  }

  /** Wire order: the register frame comes first and once, so it precedes every message; the join is the first
      task, the connect task the second, and each of them, the registration and the bye happen at most once. */
  lemma WireStartsWithRegister(config: AppConfig, verdicts: nat -> bool, events: seq<Event>)
    ensures var s := Run(Started(config, verdicts), events).sig;
      && (s.wire != [] ==> s.wire[0].RegisterFrame?)
      && Count(IsRegisterFrame, s.wire) <= Count(IsRegister, s.log) <= 1
      && (forall i | 0 <= i < |s.log| :: s.log[i].op.JoinRoom? <==> i == 0)
      && (forall i | 0 <= i < |s.log| :: s.log[i].op.ConnectWebSocket? ==> i == 1)
      && Count(IsBye, s.log) <= 1
  {
    hide Apply, Started, Alive, QueuesFit, Count;
    RunOrdered(config, verdicts, events);
  }

  /** The bye and the close: a bye is posted exactly when the call ended because its duration elapsed, at that
      very moment and after establishment; only a call that has quit posts the close task, as the last task of
      all, and then the bye, if there is one, has been answered. */
  lemma ByeThenClose(config: AppConfig, verdicts: nat -> bool, events: seq<Event>)
    ensures var e := Run(Started(config, verdicts), events);
      var s := e.sig;
      && (Count(IsBye, s.log) == 1 <==> ByLocal(e))
      && (Count(IsBye, s.log) == 1 ==> e.ctl.media.established && e.ctl.ending.at == DurationDeadline(e))
      && (forall i | 0 <= i < |s.log| && s.log[i].op.CloseSocket? :: i == |s.log| - 1 && e.thread.quit)
      && (e.thread.quit && Joined(e) ==> s.log != [] && Last(s.log).op.CloseSocket?)
      && Count(IsBye, s.delivered) == (if e.thread.quit then Count(IsBye, s.log) else 0)
  {
    hide Apply, Started, PartsFit, QueuesFit, LinkFits, WireFits, RegistersFit, Count, EstablishedFits;
    RunOrdered(config, verdicts, events);
    RunClock(config, verdicts, events);
    var e := Run(Started(config, verdicts), events);
    CloseIsLast(e.sig.log, e.thread.quit && Joined(e));
  }

  lemma CloseIsLast(log: seq<NetTask>, closed: bool)
    requires CloseFits(log, closed)
    ensures forall i | 0 <= i < |log| && log[i].op.CloseSocket? :: i == |log| - 1 && closed
  {
    if closed {
      var before := log[..|log| - 1];
      assert forall i | 0 <= i < |before| :: log[i] == before[i] && before[i] in before;
    }
  }

  /** At most one registration, although the socket may open again: an open event that follows the
      registration reaches a call that has ended. While closing, a close event raises no error. */
  lemma RegistersOnce(config: AppConfig, verdicts: nat -> bool, events: seq<Event>)
    ensures var e := Run(Started(config, verdicts), events);
      && Count(IsRegister, e.sig.log) <= 1
      && (e.sig.callbacks != [] && e.sig.callbacks[0].Opened? && Count(IsRegister, e.sig.log) == 1 ==>
            e.ctl.ending.finished && RunCallback(e).sig.log == e.sig.log)
      && (e.sig.link.closing ==> e.thread.quit && Step(e, SocketClose).sig.callbacks == e.sig.callbacks)
  {
    hide Apply, Started, Alive, QueuesFit, LogFits, WireFits, ByeFits, Count;
    RunOrdered(config, verdicts, events);
    var e := Run(Started(config, verdicts), events);
    CloseIsQuiet(e);
  }

  lemma CloseIsQuiet(e: Endpoint)
    ensures e.sig.link.closing ==> Step(e, SocketClose).sig.callbacks == e.sig.callbacks
  {
  }

  /** A call shown as connected has been established, and the phase tells whether the call has ended and quit. */
  lemma ConnectedIsEstablished(config: AppConfig, verdicts: nat -> bool, events: seq<Event>)
    ensures var e := Run(Started(config, verdicts), events);
      && (e.ctl.state.InCall? ==> e.ctl.media.established && !e.ctl.ending.finished)
      && (e.ctl.ending.finished <==> e.ctl.state.Stopping? || e.ctl.state.Finished?)
      && (e.thread.quit <==> e.ctl.state.Finished?)
  {
    hide Apply, Started, PartsFit, QueuesFit, LogFits, LinkFits, WireFits, RegistersFit, ByeFits;
    RunOrdered(config, verdicts, events);
  }

  /** The bye is never lost on the way: an ended call has quit by the time both queues have drained, whatever
      became of the requests in them. */
  lemma DrainedCallHasQuit(config: AppConfig, verdicts: nat -> bool, events: seq<Event>)
    ensures var e := Run(Started(config, verdicts), events);
      e.ctl.ending.finished && e.sig.network == [] && e.sig.callbacks == [] ==> e.thread.quit
  {
    hide Apply, Started, Alive, QueuesFit, LogFits, LinkFits, WireFits, RegistersFit, Count;
    RunOrdered(config, verdicts, events);
    var e := Run(Started(config, verdicts), events);
    EndedLocally(e);
    if e.sig.network == [] && e.sig.callbacks == [] {
      AllDelivered(e.sig);
    }
  }

  /** A call that has ended but not quit has ended because of its duration, and has posted a bye. */
  lemma EndedLocally(e: Endpoint)
    requires Ordered(e)
    ensures e.ctl.ending.finished && !e.thread.quit ==> Count(IsBye, e.sig.log) == 1
  {
    hide QueuesFit, LinkFits, WireFits, RegistersFit, ByeFits, Count;
  }

  lemma AllDelivered(s: Signaling)
    requires QueuesFit(s) && s.network == [] && s.callbacks == []
    ensures Count(IsBye, s.delivered) == Count(IsBye, s.log)
  {
    assert s.delivered == Filter(HasReply, s.log);
    FilterTwice(IsBye, HasReply, s.log);
  }

  /** The connection exists exactly from the join to the quit, and closing it leaves nothing behind. */
  lemma OpenUntilQuit(config: AppConfig, verdicts: nat -> bool, events: seq<Event>)
    ensures var e := Run(Started(config, verdicts), events);
      && (e.peer.open <==> Joined(e) && !e.thread.quit)
      && (e.thread.quit ==>
            && e.peer.operations == [] && e.peer.remote.pending == [] && !e.peer.remote.descriptionSet
            && !e.peer.reports.connected && !e.peer.reports.mediaSeen)
  {
    hide Apply, Started, QueuesFit, LogFits, LinkFits, WireFits, RegistersFit, ByeFits;
    RunOrdered(config, verdicts, events);
  }

  /** The closing flag is up exactly once the close has been run. */
  predicate ClosingFits(s: Signaling) {
    s.link.closing <==> s.log != [] && Last(s.log).op.CloseSocket? && s.network == []
  }

  lemma NetworkClosing(e: Endpoint, t: Signaling)
    requires QueuesFit(e.sig) && LogFits(e) && ClosingFits(e.sig) && e.sig.network != [] && NetworkShape(e.sig, t)
    ensures ClosingFits(t)
  {
    HeadOfNetwork(e.sig);
    CloseIsLast(e.sig.log, e.thread.quit && Joined(e));
    hide QueuesFit, LogFits;
  }

  lemma PostedClosing(e: Endpoint, t: Signaling)
    requires LinkFits(e) && ClosingFits(e.sig) && t.link.closing == e.sig.link.closing
    requires e.sig.log <= t.log && |t.network| - |t.log| == |e.sig.network| - |e.sig.log|
    requires t.log != e.sig.log ==> !e.thread.quit
    ensures ClosingFits(t)
  {
  }

  lemma ApplyClosing(e: Endpoint, ev: Event)
    requires Ordered(e) && Enabled(e, ev) && ClosingFits(e.sig)
    ensures ClosingFits(Apply(e, ev).sig)
  {
    hide Ordered, ClosingFits, QueuesFit, LogFits, RunCallback, RunNetworkTask, OnOperationDone, OnConnectionChange,
      OnFrame, OnTimer, OnLocalCandidate, SerializeIceCandidate, OnSocketOpen, OnSocketClose, OnSocketError,
      OnSocketMessage;
    OrderedQueues(e);
    OrderedLink(e);
    match ev {
      case Network(o) =>
        NetworkHasShape(e.sig, o);
        NetworkClosing(e, RunNetworkTask(e.sig, o));
      case Callback =>
        CallbackKeeps(e);
        CallbackQueues(e);
        PostedClosing(e, Apply(e, ev).sig);
      case SocketOpen =>
        SocketKeeps(e, ev);
        PostedClosing(e, Apply(e, ev).sig);
      case SocketClose =>
        SocketKeeps(e, ev);
        PostedClosing(e, Apply(e, ev).sig);
      case SocketError =>
        SocketKeeps(e, ev);
        PostedClosing(e, Apply(e, ev).sig);
      case SocketMessage(_) =>
        SocketKeeps(e, ev);
        PostedClosing(e, Apply(e, ev).sig);
      case ClockAdvances(_) =>
      case _ =>
        ApplyEffect(e, ev);
        EffectKeeps(e, Apply(e, ev));
        EffectQueues(e, Apply(e, ev));
        PostedClosing(e, Apply(e, ev).sig);
    }
  }

  lemma OrderedLink(e: Endpoint)
    requires Ordered(e)
    ensures LogFits(e) && LinkFits(e)
  {
  }

  lemma {:induction false} RunClosing(config: AppConfig, verdicts: nat -> bool, events: seq<Event>)
    ensures ClosingFits(Run(Started(config, verdicts), events).sig)
  {
    hide Ordered, Apply;
    if events != [] {
      hide Started, ClosingFits;
      RunClosing(config, verdicts, events[..|events| - 1]);
      RunOrdered(config, verdicts, events[..|events| - 1]);
      var e := Run(Started(config, verdicts), events[..|events| - 1]);
      if Enabled(e, Last(events)) {
        ApplyClosing(e, Last(events));
      }
    }
  }

  /** When the socket may close unheard: the closing flag is up exactly once the close, the last request of all, has
      been run by the network thread; then a close of the socket posts nothing, and before it posts an error. Running
      the close, or the connect, takes the open flag down. */
  lemma ClosingByHistory(config: AppConfig, verdicts: nat -> bool, events: seq<Event>)
    ensures var e := Run(Started(config, verdicts), events);
      var closed := e.sig.log != [] && Last(e.sig.log).op.CloseSocket? && e.sig.network == [];
      && (e.sig.link.closing <==> closed)
      && (Enabled(e, Network(Completed)) ==>
            var link := Apply(e, Network(Completed)).sig.link;
            && !link.websocketOpen
            && (if e.sig.network[0].op.CloseSocket? then link.closing && link.socket == e.sig.link.socket
                else e.sig.network[0].op.ConnectWebSocket? && !link.closing && link.socket == Down))
      && (Enabled(e, SocketClose) ==>
            Apply(e, SocketClose).sig.callbacks == e.sig.callbacks + (if closed then [] else [ErrorNotice]))
  {
    hide Started;
    RunClosing(config, verdicts, events);
  }
}
