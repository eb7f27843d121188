/** The order of tasks and frames over whole runs: join, connect, register, messages, bye, close. */
module WireOrder {
  import opened Sequences
  import opened Common
  import opened SignalingSpec
  import opened ControllerSpec
  import opened EndpointRuns
  import opened Lifecycle
  import opened Queues
  import opened Effects

  predicate IsMessage(t: NetTask) {
    t.purpose.ForDescription? || t.purpose.ForCandidate? || t.purpose.ForBye?
  }

  predicate IsBye(t: NetTask) {
    t.purpose.ForBye?
  }

  predicate IsRegister(t: NetTask) {
    t.op.RegisterClient?
  }

  /** The close task is the last one, and there once the call has quit a room it had joined. */
  predicate CloseFits(log: seq<NetTask>, closed: bool) {
    if closed then log != [] && Last(log).op.CloseSocket? && NoClose(log[..|log| - 1]) else NoClose(log)
  }

  predicate NoClose(log: seq<NetTask>) {
    forall t <- log :: !t.op.CloseSocket?
  }

  /** Everything ever posted, in terms of the controller's flags. */
  predicate LogFits(e: Endpoint) {
    var log := e.sig.log;
    && JoinFirst(log)
    && (!Joined(e) ==> |log| == 1)
    && (forall i | 0 <= i < |log| && i != 1 :: !log[i].op.ConnectWebSocket?)
    && (!e.ctl.negotiation.ready ==> forall t <- log :: !IsMessage(t))
    && Count(IsBye, log) == Bit(ByLocal(e))
    && CloseFits(log, e.thread.quit && Joined(e))
  }

  lemma EffectLog(e: Endpoint, f: Endpoint)
    requires LogFits(e) && Effect(e, f)
    requires EndingFits(e) && Alive(f) && !e.thread.quit
    ensures LogFits(f)
  {
    hide Count;
    if !Quiet(e, f) {
      var x := Last(f.sig.log);
      assert f.sig.log == e.sig.log + [x];
      assert f.sig.log[..|f.sig.log| - 1] == e.sig.log;
      CountMore(IsBye, e.sig.log, x);
    }
  }

  /** The bye's answer: the call completes and the close task follows everything else. */
  lemma ByeLog(e: Endpoint)
    requires LogFits(e) && Alive(e) && !e.thread.quit && e.ctl.ending.finished
    ensures LogFits(CompleteFinish(e, LocalDurationReached))
  {
    hide Count;
    var f := CompleteFinish(e, LocalDurationReached);
    assert f.sig.log[..|f.sig.log| - 1] == e.sig.log;
    CountMore(IsBye, e.sig.log, Last(f.sig.log));
  }

  /** The socket starts with the second task, and only a call that has quit closes it. */
  predicate LinkFits(e: Endpoint) {
    var s := e.sig;
    && (!s.link.socket.NotStarted? ==> |s.log| - |s.network| >= 2 && s.log[1].op.ConnectWebSocket?)
    && (s.link.socket.NotStarted? ==> forall c <- s.callbacks :: Answered(c).Some?)
    && (Joined(e) ==> s.delivered != [])
    && (s.link.closing ==> e.thread.quit)
  }

  /** Open events waiting ahead of the first error notice. */
  function OpensAhead(cs: seq<CallbackTask>): nat {
    if cs == [] || cs[0].ErrorNotice? then 0 else Bit(cs[0].Opened?) + OpensAhead(cs[1..])
  }

  lemma {:induction false} OpensAheadMore(cs: seq<CallbackTask>, c: CallbackTask)
    ensures OpensAhead(cs + [c]) == OpensAhead(cs) + Bit(c.Opened? && ErrorNotice !in cs)
  {
    if cs == [] {
    } else {
      assert (cs + [c])[1..] == cs[1..] + [c];
      OpensAheadMore(cs[1..], c);
      assert cs == [cs[0]] + cs[1..];
    }
  }

  /** Registrations made or about to be made: one as long as the socket is up, none after it failed. */
  predicate RegistersFit(e: Endpoint) {
    var made := Count(IsRegister, e.sig.log);
    var coming := OpensAhead(e.sig.callbacks);
    && made <= 1
    && (!e.ctl.ending.finished ==> made + coming <= 1)
    && (!e.ctl.ending.finished && ErrorNotice !in e.sig.callbacks ==> made + coming == Bit(e.sig.link.socket.Up?))
  }

  predicate IsRegisterFrame(f: Frame) {
    f.RegisterFrame?
  }

  /** The register frame comes first and once. */
  predicate WireFits(e: Endpoint) {
    var s := e.sig;
    && (s.wire != [] ==> s.wire[0].RegisterFrame?)
    && (e.ctl.negotiation.ready ==> s.wire != [])
    && (forall c <- s.callbacks :: Registered(c) ==> s.wire != [])
    && Count(IsRegisterFrame, s.wire) + Count(IsRegister, s.network) <= Count(IsRegister, s.log)
  }

  /** The bye has been answered exactly when the call has quit. */
  predicate ByeFits(e: Endpoint) {
    Count(IsBye, e.sig.delivered) == (if e.thread.quit then Count(IsBye, e.sig.log) else 0)
  }

  predicate Ordered(e: Endpoint) {
    Alive(e) && QueuesFit(e.sig) && LogFits(e) && LinkFits(e) && RegistersFit(e) && WireFits(e) && ByeFits(e)
  }

  /** A request that waits for its callback was posted. */
  lemma AnsweredWasPosted(s: Signaling)
    requires QueuesFit(s) && s.callbacks != [] && Answered(s.callbacks[0]).Some?
    ensures s.callbacks[0].task in s.log && CallbackFits(s.callbacks[0])
  {
    var task := s.callbacks[0].task;
    assert task in Collect(Answered, s.callbacks);
    FilterMember(HasReply, s.log, task);
  }

  lemma HeadIsFitting(e: Endpoint)
    requires QueuesFit(e.sig) && LogFits(e) && LinkFits(e) && e.sig.callbacks != []
    ensures HeadFits(e)
  {
    hide Filter, QueuesFit;
    var c := e.sig.callbacks[0];
    if Answered(c).Some? {
      AnsweredWasPosted(e.sig);
      if c.JoinDone? {
        JoinAnswerIsFirst(e.sig);
      } else if c.task.purpose.ForBye? {
        CountNone(IsBye, e.sig.log);
      }
    } else {
      assert c in e.sig.callbacks;
    }
  }

  /** Between taking an error notice and ending the call for it, only the registrations made count. */
  predicate RegistersMayFit(e: Endpoint, f: Endpoint) {
    RegistersFit(e) || (f.ctl.ending.finished && Count(IsRegister, e.sig.log) <= 1)
  }

  lemma PostsFit(e: Endpoint, f: Endpoint)
    requires LinkFits(e) && RegistersMayFit(e, f) && WireFits(e) && ByeFits(e) && LogFits(f)
    requires Posts(e, f) && Keeps(e, f) && !e.thread.quit && (Joined(f) && !Joined(e) ==> e.sig.delivered != [])
    ensures LinkFits(f) && RegistersFit(f) && WireFits(f) && ByeFits(f)
  {
    var x := Last(f.sig.log);
    assert f.sig.log == e.sig.log + [x];
    assert f.sig.network == e.sig.network + [x];
    CountMore(IsRegister, e.sig.log, x);
    CountMore(IsRegister, e.sig.network, x);
    hide Count, OpensAhead, LogFits;
    assert ByeFits(f) by {
      CountMore(IsBye, e.sig.log, x);
      assert Count(IsBye, f.sig.log) == Bit(ByLocal(f)) by {
        ByesInLog(f);
      }
    }
  }

  lemma ByesInLog(e: Endpoint)
    requires LogFits(e)
    ensures Count(IsBye, e.sig.log) == Bit(ByLocal(e))
  {
  }

  lemma QuietFit(e: Endpoint, f: Endpoint)
    requires LinkFits(e) && RegistersMayFit(e, f) && WireFits(e) && ByeFits(e) && LogFits(f)
    requires Quiet(e, f) && Keeps(e, f) && !e.thread.quit
    ensures LinkFits(f) && RegistersFit(f) && WireFits(f) && ByeFits(f)
  {
    ByesInLog(f);
    hide Count, OpensAhead, LogFits;
  }

  lemma QuietQueues(e: Endpoint, f: Endpoint)
    requires QueuesFit(e.sig) && Quiet(e, f)
    ensures QueuesFit(f.sig)
  {
  }

  lemma PostsQueues(e: Endpoint, f: Endpoint)
    requires QueuesFit(e.sig) && Posts(e, f)
    ensures QueuesFit(f.sig)
  {
    hide QueuesFit;
    var x := Last(f.sig.log);
    SubmitFits(e.sig, x.op, x.purpose, x.text);
  }

  lemma EffectOrdered(e: Endpoint, f: Endpoint)
    requires Alive(e) && QueuesFit(e.sig) && LogFits(e) && LinkFits(e) && WireFits(e) && ByeFits(e)
    requires RegistersMayFit(e, f) && Effect(e, f) && Alive(f) && !e.thread.quit
    requires Joined(f) && !Joined(e) ==> e.sig.delivered != []
    ensures Ordered(f)
  {
    hide EndingFits, PartsFit, LinkFits, RegistersFit, RegistersMayFit, WireFits, ByeFits, LogFits, QueuesFit, Keeps,
      Quiet, Posts;
    EffectLog(e, f);
    if Quiet(e, f) {
      QuietFit(e, f);
      QuietQueues(e, f);
    } else {
      PostsFit(e, f);
      PostsQueues(e, f);
    }
  }

  /** The effect of the task at the head of the network queue: either it is answered, and may leave a frame
      on the wire, or it changes the link. */
  predicate NetworkShape(s: Signaling, t: Signaling)
    requires s.network != []
  {
    var task := s.network[0];
    && t.log == s.log && t.delivered == s.delivered && t.heard == s.heard && t.network == s.network[1..]
    && (task.op.JoinRoom? || t.stored == s.stored)
    && if HasReply(task) then
         && t.link == s.link
         && |t.callbacks| == |s.callbacks| + 1
         && var c := Last(t.callbacks);
         && t.callbacks == s.callbacks + [c] && Answered(c) == Some(task) && (c.JoinDone? <==> task.op.JoinRoom?)
         && (t.wire == s.wire || (!task.op.JoinRoom? && t.wire == s.wire + [FrameOf(task)]))
         && (c.Done? && c.ok ==> t.wire == s.wire + [FrameOf(task)])
         && (c.JoinDone? ==> t.stored == HandedOver(c.response))
       else
         && t.callbacks == s.callbacks && t.wire == s.wire
         && t.link == (if task.op.ConnectWebSocket? then Link(false, false, Down) else Link(false, true, s.link.socket))
  }

  lemma NetworkHasShape(s: Signaling, o: NetOutcome)
    requires QueuesFit(s) && OutcomeFits(s, o)
    ensures NetworkShape(s, RunNetworkTask(s, o))
  {
    HeadOfNetwork(s);
    hide QueuesFit;
  }

  lemma {:induction false} NoOpens(cs: seq<CallbackTask>)
    requires forall c <- cs :: Answered(c).Some?
    ensures OpensAhead(cs) == 0 && ErrorNotice !in cs
  {
    if cs != [] {
      assert Answered(cs[0]).Some?;
      NoOpens(cs[1..]);
      assert cs == [cs[0]] + cs[1..];
    }
  }

  lemma NetworkLink(e: Endpoint, t: Signaling)
    requires QueuesFit(e.sig) && LinkFits(e) && LogFits(e) && e.sig.network != [] && NetworkShape(e.sig, t)
    ensures LinkFits(e.(sig := t))
  {
    HeadOfNetwork(e.sig);
    hide QueuesFit, Count;
    if e.sig.network[0].op.CloseSocket? {
      assert e.sig.network[0] in e.sig.log;
    }
  }

  lemma NetworkRegisters(e: Endpoint, t: Signaling)
    requires QueuesFit(e.sig) && LinkFits(e) && LogFits(e) && RegistersFit(e)
    requires e.sig.network != [] && NetworkShape(e.sig, t)
    ensures RegistersFit(e.(sig := t))
  {
    HeadOfNetwork(e.sig);
    hide QueuesFit, Count, OpensAhead;
    if HasReply(e.sig.network[0]) {
      OpensAheadMore(e.sig.callbacks, Last(t.callbacks));
    } else if e.sig.network[0].op.ConnectWebSocket? {
      NoOpens(e.sig.callbacks);
    }
  }

  /** A message leaves only after the register frame. */
  lemma NetworkWire(e: Endpoint, t: Signaling)
    requires QueuesFit(e.sig) && LogFits(e) && WireFits(e) && e.sig.network != [] && NetworkShape(e.sig, t)
    ensures WireFits(e.(sig := t))
  {
    HeadOfNetwork(e.sig);
    hide QueuesFit, Count;
    var task := e.sig.network[0];
    CountHead(IsRegister, e.sig.network);
    CountMore(IsRegisterFrame, e.sig.wire, FrameOf(task));
    assert task in e.sig.log;
  }

  /** The history of tasks does not depend on where they are. */
  lemma SameLogFits(e: Endpoint, t: Signaling)
    requires LogFits(e) && ByeFits(e) && t.log == e.sig.log && t.delivered == e.sig.delivered
    ensures LogFits(e.(sig := t)) && ByeFits(e.(sig := t))
  {
    hide Count;
  }

  lemma NetworkOrdered(e: Endpoint, o: NetOutcome)
    requires Ordered(e) && OutcomeFits(e.sig, o)
    ensures Ordered(e.(sig := RunNetworkTask(e.sig, o)))
  {
    var t := RunNetworkTask(e.sig, o);
    NetworkFits(e.sig, o);
    NetworkHasShape(e.sig, o);
    SameLogFits(e, t);
    SocketAlive(e, t);
    hide RunNetworkTask, LogFits, LinkFits, RegistersFit, WireFits, ByeFits, QueuesFit, NetworkShape, Alive;
    NetworkLink(e, t);
    NetworkRegisters(e, t);
    NetworkWire(e, t);
  }

  /** An event of the started socket: one notice is posted, or none while closing; an open needs the socket
      down, and one that takes the socket down is noticed as an error. */
  predicate SocketShape(s: Signaling, t: Signaling) {
    && !s.link.socket.NotStarted? && !t.link.socket.NotStarted?
    && t.log == s.log && t.delivered == s.delivered && t.network == s.network && t.wire == s.wire
    && t.link.closing == s.link.closing
    && if t.callbacks == s.callbacks then t.link.closing && t.link.socket.Down?
       else
         && |t.callbacks| == |s.callbacks| + 1
         && var c := Last(t.callbacks);
         && t.callbacks == s.callbacks + [c] && Answered(c).None?
         && (c.Opened? ==> s.link.socket.Down? && t.link.socket.Up?)
         && (c.Inbound? ==> t.link == s.link)
  }

  lemma SocketOrdered(e: Endpoint, t: Signaling)
    requires Ordered(e) && SocketShape(e.sig, t) && QueuesFit(t)
    ensures Ordered(e.(sig := t))
  {
    SameLogFits(e, t);
    SocketAlive(e, t);
    hide LogFits, QueuesFit, ByeFits, Count, OpensAhead;
    if t.callbacks != e.sig.callbacks {
      OpensAheadMore(e.sig.callbacks, Last(t.callbacks));
    }
  }

  lemma SocketHasShape(s: Signaling, f: SocketFrame)
    requires !s.link.socket.NotStarted?
    ensures s.link.socket.Down? ==> SocketShape(s, OnSocketOpen(s))
    ensures SocketShape(s, OnSocketClose(s)) && SocketShape(s, OnSocketError(s))
    ensures SocketShape(s, OnSocketMessage(s, f))
  {
    hide ParseSignalingMessage;
  }

  lemma SocketEventOrdered(e: Endpoint, ev: Event)
    requires Ordered(e) && Enabled(e, ev)
    requires ev.SocketOpen? || ev.SocketClose? || ev.SocketError? || ev.SocketMessage?
    ensures Ordered(Apply(e, ev))
  {
    hide Ordered, QueuesFit, SocketShape, OnSocketMessage, OnSocketOpen, OnSocketClose, OnSocketError;
    OrderedQueues(e);
    SocketFits(e.sig);
    SocketHasShape(e.sig, if ev.SocketMessage? then ev.frame else Garbled);
    match ev
    case SocketMessage(f) =>
      MessageFits(e.sig, f);
      SocketOrdered(e, OnSocketMessage(e.sig, f));
    case SocketOpen => SocketOrdered(e, OnSocketOpen(e.sig));
    case SocketClose => SocketOrdered(e, OnSocketClose(e.sig));
    case SocketError => SocketOrdered(e, OnSocketError(e.sig));
  }

  lemma OrderedQueues(e: Endpoint)
    requires Ordered(e)
    ensures QueuesFit(e.sig) && Alive(e)
  {
  }

  lemma TookOrdered(e: Endpoint)
    requires Ordered(e) && !e.thread.quit && e.sig.callbacks != []
    ensures HeadFits(e)
    ensures Alive(Took(e)) && QueuesFit(Took(e).sig) && LogFits(Took(e)) && LinkFits(Took(e)) && WireFits(Took(e))
    ensures Took(e).sig.delivered != [] || !Answered(e.sig.callbacks[0]).Some?
    ensures Joined(Took(e)) == Joined(e) && !Took(e).thread.quit
  {
    HeadIsFitting(e);
    TakeFits(e.sig);
    TookRuns(e);
    hide Alive, QueuesFit, Count;
    assert e.sig.callbacks[0] in e.sig.callbacks;
  }

  /** A callback other than the open event and the bye's answer. */
  lemma TookCounts(e: Endpoint)
    requires Ordered(e) && !e.thread.quit && e.sig.callbacks != []
    requires !e.sig.callbacks[0].Opened? && !ByeAnswered(e.sig.callbacks[0])
    ensures ByeFits(Took(e))
    ensures RegistersFit(Took(e)) || e.sig.callbacks[0].ErrorNotice?
  {
    hide Alive, QueuesFit, Count, LogFits, LinkFits, WireFits, OpensAhead;
    var c := e.sig.callbacks[0];
    if Answered(c).Some? {
      HeadAnswerFits(e.sig);
      CountMore(IsBye, e.sig.delivered, c.task);
    }
    if !c.ErrorNotice? {
      OpensAfter(e.sig.callbacks);
      assert e.sig.callbacks == [c] + e.sig.callbacks[1..];
    }
  }

  lemma HeadAnswerFits(s: Signaling)
    requires QueuesFit(s) && s.callbacks != []
    ensures CallbackFits(s.callbacks[0])
  {
  }

  lemma OpensAfter(cs: seq<CallbackTask>)
    requires cs != [] && !cs[0].Opened? && !cs[0].ErrorNotice?
    ensures OpensAhead(cs) == OpensAhead(cs[1..])
  {
  }

  lemma ErrorOrdered(e: Endpoint)
    requires Ordered(e) && !e.thread.quit && e.sig.callbacks != [] && e.sig.callbacks[0].ErrorNotice?
    ensures RegistersMayFit(Took(e), RunCallback(e))
  {
    hide Alive, QueuesFit, Count, LogFits, LinkFits, WireFits;
  }

  /** The open event uses up one of the opens that were coming. */
  lemma OpenedCounts(e: Endpoint)
    requires Ordered(e) && !e.thread.quit && e.sig.callbacks != [] && e.sig.callbacks[0].Opened?
    ensures ByeFits(Took(e)) && (e.ctl.ending.finished ==> RegistersFit(Took(e)))
    ensures !e.ctl.ending.finished ==> RegisterDue(Took(e))
  {
    hide Alive, QueuesFit, Count, LogFits, LinkFits, WireFits;
    assert e.sig.callbacks == [Opened] + e.sig.callbacks[1..];
  }

  /** A registration can be posted without exceeding what the socket's events allow. */
  predicate RegisterDue(e: Endpoint) {
    var made := Count(IsRegister, e.sig.log);
    var coming := OpensAhead(e.sig.callbacks);
    && made + coming == 0
    && (ErrorNotice !in e.sig.callbacks ==> e.sig.link.socket.Up?)
  }

  lemma RegisterPosted(e: Endpoint, f: Endpoint)
    requires LinkFits(e) && RegisterDue(e) && WireFits(e) && ByeFits(e) && LogFits(e)
    requires Joined(e) && !e.thread.quit && !e.ctl.ending.finished
    requires f == e.(ctl := e.ctl.(state := Registering), sig := Submit(e.sig, RegisterClient, ForRegister, Malformed))
    ensures LogFits(f) && LinkFits(f) && RegistersFit(f) && WireFits(f) && ByeFits(f)
  {
    hide Count, OpensAhead;
    var x := Last(f.sig.log);
    assert f.sig.log == e.sig.log + [x];
    CountMore(IsRegister, e.sig.log, x);
    CountMore(IsRegister, e.sig.network, x);
    CountMore(IsBye, e.sig.log, x);
  }

  lemma OpenedOrdered(e: Endpoint)
    requires Ordered(e) && !e.thread.quit && e.sig.callbacks != [] && e.sig.callbacks[0].Opened?
    ensures Ordered(RunCallback(e))
  {
    TookOrdered(e);
    OpenedCounts(e);
    CallbackAlive(e);
    OpenedJoined(e);
    var t := Took(e);
    hide Alive, Count, OpensAhead, QueuesFit, LogFits, LinkFits, WireFits, RegistersFit, ByeFits,
      RegisterDue, TakeCallback;
    if !e.ctl.ending.finished {
      SubmitFits(t.sig, RegisterClient, ForRegister, Malformed);
      RegisterPosted(t, RunCallback(e));
    }
  }

  /** The socket was only started after the join. */
  lemma OpenedJoined(e: Endpoint)
    requires Ordered(e) && e.sig.callbacks != [] && e.sig.callbacks[0].Opened?
    ensures Joined(e)
  {
    hide Alive, Count, OpensAhead, WireFits, RegistersFit, ByeFits;
    assert Answered(e.sig.callbacks[0]).None?;
  }

  lemma ByeCounts(e: Endpoint)
    requires Ordered(e) && !e.thread.quit && e.sig.callbacks != [] && ByeAnswered(e.sig.callbacks[0])
    ensures ByLocal(e) && Joined(e) && Count(IsBye, Took(e).sig.delivered) == 1 && RegistersFit(Took(e))
  {
    hide Alive, Count, OpensAhead, QueuesFit, WireFits, LinkFits;
    CountMore(IsBye, e.sig.delivered, e.sig.callbacks[0].task);
    AnsweredWasPosted(e.sig);
    CountNone(IsBye, e.sig.log);
    ByeJoined(e);
    ByeTaken(e);
  }

  /** The bye, once posted, is posted for a call that was joined. */
  lemma ByeJoined(e: Endpoint)
    requires Ordered(e) && Count(IsBye, e.sig.log) > 0
    ensures Joined(e)
  {
    hide Count, QueuesFit, WireFits, LinkFits, RegistersFit;
  }

  /** Taking an answer from the callback queue leaves the registrations as they were. */
  lemma ByeTaken(e: Endpoint)
    requires RegistersFit(e) && e.sig.callbacks != [] && ByeAnswered(e.sig.callbacks[0])
    ensures RegistersFit(Took(e))
  {
    hide Count;
    assert e.sig.callbacks == [e.sig.callbacks[0]] + e.sig.callbacks[1..];
    OpensSkip(e.sig.callbacks);
    hide OpensAhead;
  }

  lemma OpensSkip(cs: seq<CallbackTask>)
    requires cs != [] && Answered(cs[0]).Some?
    ensures OpensAhead(cs) == OpensAhead(cs[1..])
  {
  }

  lemma ClosePosted(e: Endpoint)
    requires LinkFits(e) && RegistersFit(e) && WireFits(e) && Joined(e) && e.ctl.ending.finished
    ensures var f := CompleteFinish(e, LocalDurationReached); LinkFits(f) && RegistersFit(f) && WireFits(f)
  {
    var f := CompleteFinish(e, LocalDurationReached);
    var x := Last(f.sig.log);
    CountMore(IsRegister, e.sig.log, x);
    CountMore(IsRegister, e.sig.network, x);
    hide Count, OpensAhead;
  }

  lemma ByeAnswerOrdered(e: Endpoint)
    requires Ordered(e) && !e.thread.quit && e.sig.callbacks != [] && ByeAnswered(e.sig.callbacks[0])
    ensures Ordered(RunCallback(e))
  {
    TookOrdered(e);
    ByeCounts(e);
    CallbackAlive(e);
    var t := Took(e);
    ClosePosted(t);
    ByeLog(t);
    TookRuns(e);
    ByesInLog(RunCallback(e));
    SubmitFits(t.sig, CloseSocket, NoReply, Malformed);
    hide Alive, Count, OpensAhead, QueuesFit, LogFits, LinkFits, WireFits, RegistersFit, TakeCallback;
  }

  lemma JoinOnlyByAnswer(e: Endpoint)
    requires Ordered(e) && !e.thread.quit && e.sig.callbacks != []
    ensures Joined(RunCallback(e)) && !Joined(e) ==> Answered(e.sig.callbacks[0]).Some?
  {
  }

  lemma RegistersMay(e: Endpoint, f: Endpoint)
    ensures RegistersFit(e) ==> RegistersMayFit(e, f)
  {
  }

  lemma OtherCallbackOrdered(e: Endpoint)
    requires Ordered(e) && !e.thread.quit && e.sig.callbacks != []
    requires !e.sig.callbacks[0].Opened? && !ByeAnswered(e.sig.callbacks[0])
    ensures Ordered(RunCallback(e))
  {
    hide RunCallback, Took, Ordered, Alive, Count, OpensAhead, QueuesFit, LogFits, LinkFits, WireFits, RegistersFit,
      ByeFits, Effect, Joined, HeadFits, Answered, RegistersMayFit;
    OrderedQueues(e);
    TookOrdered(e);
    TookCounts(e);
    JoinOnlyByAnswer(e);
    RegistersMay(Took(e), RunCallback(e));
    if e.sig.callbacks[0].ErrorNotice? {
      ErrorOrdered(e);
    }
    CallbackAlive(e);
    CallbackEffect(e);
    EffectOrdered(Took(e), RunCallback(e));
  }

  lemma CallbackOrdered(e: Endpoint)
    requires Ordered(e) && !e.thread.quit && e.sig.callbacks != []
    ensures Ordered(RunCallback(e))
  {
    hide RunCallback, Ordered;
    if e.sig.callbacks[0].Opened? {
      OpenedOrdered(e);
    } else if ByeAnswered(e.sig.callbacks[0]) {
      ByeAnswerOrdered(e);
    } else {
      OtherCallbackOrdered(e);
    }
  }

  lemma OnlyJoinedPeers(e: Endpoint, ev: Event)
    requires Alive(e) && Enabled(e, ev) && OnSignalingThread(ev)
    ensures Joined(Apply(e, ev)) ==> Joined(e)
  {
    if !Joined(e) {
      hide OnOperationDone, OnConnectionChange, OnFrame, SerializeIceCandidate;
    }
  }

  lemma ThreadOrdered(e: Endpoint, ev: Event)
    requires Ordered(e) && Enabled(e, ev) && OnSignalingThread(ev)
    ensures Ordered(Apply(e, ev))
  {
    hide Apply, Effect, RegistersMayFit, LogFits, LinkFits, WireFits, RegistersFit, ByeFits, Alive, QueuesFit;
    if e.thread.quit {
      assert ev.ClockAdvances?;
      ClockOrdered(e, ev.to);
    } else {
      RegistersMay(e, Apply(e, ev));
      ApplyAlive(e, ev);
      ApplyEffect(e, ev);
      OnlyJoinedPeers(e, ev);
      EffectOrdered(e, Apply(e, ev));
    }
  }

  lemma ClockOrdered(e: Endpoint, to: nat)
    requires Ordered(e) && Enabled(e, ClockAdvances(to))
    ensures Ordered(Apply(e, ClockAdvances(to)))
  {
    hide Count, OpensAhead, QueuesFit;
  }

  /** Every event keeps the queues, the log, the link, the wire and the controller in agreement. */
  lemma ApplyOrdered(e: Endpoint, ev: Event)
    requires Ordered(e) && Enabled(e, ev)
    ensures Ordered(Apply(e, ev))
  {
    hide Ordered, RunCallback, RunNetworkTask;
    match ev
    case Network(o) => NetworkOrdered(e, o);
    case Callback => CallbackOrdered(e);
    case SocketOpen => SocketEventOrdered(e, ev);
    case SocketClose => SocketEventOrdered(e, ev);
    case SocketError => SocketEventOrdered(e, ev);
    case SocketMessage(_) => SocketEventOrdered(e, ev);
    case _ => ThreadOrdered(e, ev);
  }

  lemma StartedOrdered(config: AppConfig, verdicts: nat -> bool)
    ensures Ordered(Started(config, verdicts))
  {
    SubmitFits(NewSignaling(), JoinRoom, ForJoin, Malformed);
    CountMore(IsRegister, [], Last(Started(config, verdicts).sig.log));
    CountMore(IsBye, [], Last(Started(config, verdicts).sig.log));
    CountNone(IsRegisterFrame, []);
  }

  lemma {:induction false} RunOrdered(config: AppConfig, verdicts: nat -> bool, events: seq<Event>)
    ensures Ordered(Run(Started(config, verdicts), events))
  {
    hide Ordered, Apply, Started;
    if events == [] {
      StartedOrdered(config, verdicts);
    } else {
      RunOrdered(config, verdicts, events[..|events| - 1]);
      var e := Run(Started(config, verdicts), events[..|events| - 1]);
      if Enabled(e, Last(events)) {
        ApplyOrdered(e, Last(events));
      }
    }
  }
}
