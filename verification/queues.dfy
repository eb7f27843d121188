/** The two FIFO queues on their own: requests are conserved, numbered and answered in order. */
module Queues {
  import opened Sequences
  import opened Common
  import opened SignalingSpec

  predicate HasReply(t: NetTask) {
    !t.purpose.NoReply?
  }

  /** The request a callback task answers, if it answers one. */
  function Answered(c: CallbackTask): Option<NetTask> {
    match c
    case JoinDone(task, _) => Some(task)
    case Done(task, _) => Some(task)
    case _ => None
  }

  predicate PurposeFits(op: NetOp, purpose: Purpose) {
    && (op.JoinRoom? <==> purpose.ForJoin?)
    && (op.RegisterClient? <==> purpose.ForRegister?)
    && (op.ConnectWebSocket? || op.CloseSocket? <==> purpose.NoReply?)
  }

  predicate CallbackFits(c: CallbackTask) {
    match c
    case JoinDone(task, _) => task.op.JoinRoom? && task.purpose.ForJoin?
    case Done(task, _) => !task.op.JoinRoom? && HasReply(task) && PurposeFits(task.op, task.purpose)
    case _ => true
  }

  predicate Numbered(log: seq<NetTask>) {
    forall i | 0 <= i < |log| :: log[i].id == i && PurposeFits(log[i].op, log[i].purpose)
  }

  predicate QueuesFit(s: Signaling) {
    && Numbered(s.log)
    && |s.network| <= |s.log| && s.network == s.log[|s.log| - |s.network|..]
    && (forall c <- s.callbacks :: CallbackFits(c))
    && Filter(HasReply, s.log) == s.delivered + Collect(Answered, s.callbacks) + Filter(HasReply, s.network)
  }

  lemma SubmitFits(s: Signaling, op: NetOp, purpose: Purpose, text: Text)
    requires QueuesFit(s) && PurposeFits(op, purpose)
    ensures QueuesFit(Submit(s, op, purpose, text))
  {
    var task := [NetTask(|s.log|, op, purpose, text)];
    FilterAppend(HasReply, s.log, task);
    FilterAppend(HasReply, s.network, task);
  }

  lemma PostFits(s: Signaling, c: CallbackTask)
    requires QueuesFit(s) && Answered(c).None?
    ensures QueuesFit(PostToCallbackThread(s, c))
  {
    CollectAppend(Answered, s.callbacks, [c]);
    assert CallbackFits(c);
  }

  /** A task with a reply leaves the network queue by entering the callback queue. */
  lemma AnswerFits(s: Signaling, c: CallbackTask, wire: seq<Frame>, stored: seq<Text>)
    requires QueuesFit(s) && s.network != [] && HasReply(s.network[0])
    requires Answered(c) == Some(s.network[0]) && CallbackFits(c)
    ensures QueuesFit(PostToCallbackThread(s.(network := s.network[1..], wire := wire, stored := stored), c))
  {
    CollectAppend(Answered, s.callbacks, [c]);
    assert s.log[|s.log| - |s.network|..][1..] == s.log[|s.log| - |s.network| + 1..];
  }

  lemma HeadOfNetwork(s: Signaling)
    requires QueuesFit(s) && s.network != []
    ensures var i := |s.log| - |s.network|; s.network[0] == s.log[i] && s.network[0].id == i
    ensures PurposeFits(s.network[0].op, s.network[0].purpose)
  {
  }

  lemma TransmitFits(s: Signaling, sent: SendOutcome)
    requires QueuesFit(s) && s.network != [] && HasReply(s.network[0]) && !s.network[0].op.JoinRoom?
    ensures QueuesFit(Transmit(s.(network := s.network[1..]), s.network[0], sent))
  {
    HeadOfNetwork(s);
    hide QueuesFit, PostToCallbackThread, FrameOf;
    var task := s.network[0];
    AnswerFits(s, Done(task, false), s.wire, s.stored);
    AnswerFits(s, Done(task, sent.Delivered?), if sent.Lost? then s.wire else s.wire + [FrameOf(task)], s.stored);
  }

  lemma NetworkFits(s: Signaling, o: NetOutcome)
    requires QueuesFit(s) && OutcomeFits(s, o)
    ensures QueuesFit(RunNetworkTask(s, o))
  {
    HeadOfNetwork(s);
    hide Transmit, Filter, Collect;
    var task := s.network[0];
    if task.op.JoinRoom? {
      AnswerFits(s, JoinDone(task, o.Response()), s.wire, HandedOver(o.Response()));
    } else if o.SendOutcomeOf? {
      TransmitFits(s, o.sent);
    } else {
      NoReplyFits(s);
    }
  }

  /** A task without a reply just leaves the network queue. */
  lemma NoReplyFits(s: Signaling)
    requires QueuesFit(s) && s.network != [] && !HasReply(s.network[0])
    ensures QueuesFit(s.(network := s.network[1..]))
  {
    assert s.log[|s.log| - |s.network|..][1..] == s.log[|s.log| - |s.network| + 1..];
  }

  lemma TakeFits(s: Signaling)
    requires QueuesFit(s) && s.callbacks != []
    ensures QueuesFit(TakeCallback(s))
  {
    var answered := if Answered(s.callbacks[0]).Some? then [Answered(s.callbacks[0]).value] else [];
    var rest := Collect(Answered, s.callbacks[1..]);
    assert Collect(Answered, s.callbacks) == answered + rest;
    hide Filter, Collect;
    assert s.delivered + (answered + rest) == (s.delivered + answered) + rest;
    assert forall c <- s.callbacks[1..] :: c in s.callbacks;
  }

  lemma MessageFits(s: Signaling, f: SocketFrame)
    requires QueuesFit(s)
    ensures QueuesFit(OnSocketMessage(s, f))
  {
    hide ParseSignalingMessage, PostToCallbackThread;
    PostFits(s, ErrorNotice);
    if f.Payload? {
      var t := s.(heard := s.heard + [f.text]);
      PostFits(t, ErrorNotice);
      match ParseSignalingMessage(f.text)
      case None =>
      case Some(m) => PostFits(t, Inbound(m));
    }
  }

  lemma SocketFits(s: Signaling)
    requires QueuesFit(s)
    ensures QueuesFit(OnSocketOpen(s)) && QueuesFit(OnSocketClose(s)) && QueuesFit(OnSocketError(s))
  {
    hide QueuesFit, PostToCallbackThread;
    SameQueues(s, Link(true, s.link.closing, Up));
    SameQueues(s, Link(false, s.link.closing, Down));
    PostFits(s.(link := Link(true, s.link.closing, Up)), Opened);
    PostFits(s.(link := Link(false, s.link.closing, Down)), ErrorNotice);
  }

  lemma SameQueues(s: Signaling, link: Link)
    requires QueuesFit(s)
    ensures QueuesFit(s.(link := link))
  {
  }

  predicate JoinFirst(log: seq<NetTask>) {
    && log != [] && log[0].op.JoinRoom?
    && forall i | 0 < i < |log| :: !log[i].op.JoinRoom?
  }

  /** The answer to the join is the first answer of all. */
  lemma JoinAnswerIsFirst(s: Signaling)
    requires QueuesFit(s) && JoinFirst(s.log)
    requires s.callbacks != [] && s.callbacks[0].JoinDone?
    ensures s.delivered == []
  {
    var task := s.callbacks[0].task;
    assert CallbackFits(s.callbacks[0]);
    var rest := Filter(HasReply, s.log[1..]);
    assert Filter(HasReply, s.log) == [s.log[0]] + rest;
    var all := s.delivered + [task] + (Collect(Answered, s.callbacks[1..]) + Filter(HasReply, s.network));
    assert Filter(HasReply, s.log) == all;
    if s.delivered != [] {
      assert all[|s.delivered|] == task;
      assert rest[|s.delivered| - 1] == task;
      FilterMember(HasReply, s.log[1..], task);
    }
  }
}
