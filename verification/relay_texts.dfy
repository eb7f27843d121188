/** The texts a peer sends and is handed: their kinds, their number and their order on the wire. */
module RelayTexts {
  import opened Sequences
  import opened Common
  import opened SignalingSpec
  import opened ControllerSpec
  import opened EndpointRuns
  import opened Lifecycle
  import opened Queues
  import opened Effects
  import opened WireOrder
  import opened Messages
  import opened NegotiationScript

  /** Every task carries the text its purpose asks for. */
  predicate TextFits(t: NetTask, initiator: bool) {
    match t.purpose
    case ForDescription => Carries(t.text, TypeOfSdp(OwnType(initiator)))
    case ForCandidate => Carries(t.text, Candidate)
    case ForBye => Carries(t.text, Bye)
    case _ => t.text.Malformed?
  }

  predicate TextsFit(e: Endpoint, initiator: bool) {
    forall t <- e.sig.log :: TextFits(t, initiator)
  }

  function TaskCarrying(kind: MessageType): NetTask -> bool {
    (t: NetTask) => Carries(t.text, kind)
  }

  function FrameCarrying(kind: MessageType): Frame -> bool {
    (f: Frame) => f.MessageFrame? && Carries(f.text, kind)
  }

  /** What leaves was posted, and is not posted any more. */
  predicate WireCounts(s: Signaling, kind: MessageType) {
    Count(FrameCarrying(kind), s.wire) + Count(TaskCarrying(kind), s.network) <= Count(TaskCarrying(kind), s.log)
  }

  predicate AllCounted(s: Signaling) {
    forall kind: MessageType :: WireCounts(s, kind)
  }

  /** Only the wire, the network queue and the history of tasks are counted. */
  lemma SameCounts(s: Signaling, t: Signaling)
    requires AllCounted(s) && t.wire == s.wire && t.network == s.network && t.log == s.log
    ensures AllCounted(t)
  {
    hide Count;
    forall kind: MessageType
      ensures WireCounts(t, kind)
    {
      assert WireCounts(s, kind);
    }
  }

  /** The text of a message for the other peer. */
  function TextOf(t: NetTask): Option<Text> {
    if IsMessage(t) then Some(t.text) else None
  }

  function PayloadOf(f: Frame): Option<Text> {
    if f.MessageFrame? then Some(f.text) else None
  }

  predicate AllOk(cs: seq<CallbackTask>) {
    forall c <- cs :: c.Done? ==> c.ok
  }

  /** Until the call ends, and as long as no send is known to have failed, no message is lost on the way out. */
  predicate SentFits(e: Endpoint) {
    !e.ctl.ending.finished && AllOk(e.sig.callbacks) ==>
      Collect(TextOf, e.sig.log) == Collect(PayloadOf, e.sig.wire) + Collect(TextOf, e.sig.network)
  }

  predicate ResponseFits(r: JoinResponse, e: Endpoint, initiator: bool) {
    r.messages == e.sig.stored && r.isInitiator == initiator
  }

  /** The join response, wherever it is, hands over the stored messages and gives the role. */
  predicate HandedFits(e: Endpoint, initiator: bool) {
    && (Joined(e) ==> ResponseFits(e.ctl.joinResponse.value, e, initiator))
    && (forall c <- e.sig.callbacks :: c.JoinDone? && c.response.Some? ==> ResponseFits(c.response.value, e, initiator))
    && (|e.sig.network| == |e.sig.log| ==> e.sig.stored == [] && e.sig.callbacks == [] && !Joined(e))
  }

  /** What a peer sends, wherever it is. */
  predicate Outgoing(e: Endpoint, initiator: bool) {
    TextsFit(e, initiator) && AllCounted(e.sig) && SentFits(e)
  }

  predicate Relayed(e: Endpoint, initiator: bool) {
    Outgoing(e, initiator) && HandedFits(e, initiator)
  }

  /** A task is posted. */
  lemma PostedRelayed(e: Endpoint, f: Endpoint, x: NetTask, initiator: bool)
    requires TextsFit(e, initiator) && AllCounted(e.sig)
    requires SentFits(e) || f.ctl.ending.finished
    requires TextFits(x, initiator)
    requires f.sig == e.sig.(log := e.sig.log + [x], network := e.sig.network + [x])
    requires e.ctl.ending.finished ==> f.ctl.ending.finished
    ensures TextsFit(f, initiator) && AllCounted(f.sig) && SentFits(f)
  {
    forall kind: MessageType
      ensures WireCounts(f.sig, kind)
    {
      assert WireCounts(e.sig, kind);
      CountMore(TaskCarrying(kind), e.sig.log, x);
      CountMore(TaskCarrying(kind), e.sig.network, x);
    }
    CollectAppend(TextOf, e.sig.log, [x]);
    CollectAppend(TextOf, e.sig.network, [x]);
    hide Count, Collect, TaskCarrying, FrameCarrying, TextFits;
  }

  /** The head of the network queue is run. */
  lemma NetworkCounts(s: Signaling, t: Signaling)
    requires AllCounted(s) && s.network != [] && NetworkShape(s, t)
    ensures AllCounted(t)
  {
    hide Carries;
    var task := s.network[0];
    forall kind: MessageType
      ensures WireCounts(t, kind)
    {
      assert WireCounts(s, kind);
      CountHead(TaskCarrying(kind), s.network);
      CountMore(FrameCarrying(kind), s.wire, FrameOf(task));
      hide Count;
    }
  }

  /** A frame carries the text of the request that sends it. */
  lemma FrameOfText(task: NetTask)
    requires PurposeFits(task.op, task.purpose)
    ensures PayloadOf(FrameOf(task)) == TextOf(task) || task.op.JoinRoom? || !HasReply(task)
    ensures task.op.JoinRoom? || !HasReply(task) ==> TextOf(task).None?
  {
  }

  lemma NetworkSent(e: Endpoint, t: Signaling)
    requires QueuesFit(e.sig) && SentFits(e) && e.sig.network != [] && NetworkShape(e.sig, t)
    ensures SentFits(e.(sig := t))
  {
    hide QueuesFit, FrameOf, TextOf, PayloadOf, Collect;
    HeadOfNetwork(e.sig);
    var task := e.sig.network[0];
    FrameOfText(task);
    var moved := if TextOf(task).Some? then [TextOf(task).value] else [];
    var sent := Collect(PayloadOf, e.sig.wire);
    var rest := Collect(TextOf, t.network);
    CollectHead(TextOf, e.sig.network);
    CollectMore(PayloadOf, e.sig.wire, FrameOf(task));
    if HasReply(task) {
      assert sent + (moved + rest) == (sent + moved) + rest;
      assert Last(t.callbacks) in t.callbacks;
      assert AllOk(t.callbacks) ==> AllOk(e.sig.callbacks);
    }
  }

  /** What an effect posts carries the text its purpose asks for. */
  lemma EffectText(e: Endpoint, f: Endpoint, initiator: bool)
    requires Follows(e.peer, initiator) && Posts(e, f)
    ensures TextFits(Last(f.sig.log), initiator)
  {
    SerializedTextsParse(SdpOffer, "", "", "", 0);
    var x := Last(f.sig.log);
    if x.purpose.ForDescription? {
      var op :| op in e.peer.operations && op.SettingLocal? && op.json == x.text;
      assert op == e.peer.operations[0];
    }
    hide Carries, ByeMessage;
  }

  lemma EffectOutgoing(e: Endpoint, f: Endpoint, initiator: bool)
    requires TextsFit(e, initiator) && AllCounted(e.sig)
    requires SentFits(e) || f.ctl.ending.finished
    requires Follows(e.peer, initiator) && Effect(e, f)
    ensures Outgoing(f, initiator)
  {
    hide Follows, MayPost, TextFits, Count, Collect;
    if Quiet(e, f) {
    } else {
      EffectText(e, f, initiator);
      PostedRelayed(e, f, Last(f.sig.log), initiator);
    }
  }

  lemma NetworkRelayed(e: Endpoint, o: NetOutcome, initiator: bool)
    requires Ordered(e) && Relayed(e, initiator) && OutcomeFits(e.sig, o)
    requires o.Response().Some? ==> o.Response().value.isInitiator == initiator
    ensures Relayed(e.(sig := RunNetworkTask(e.sig, o)), initiator)
  {
    hide Ordered, QueuesFit, WireCounts, SentFits, HandedFits, RunNetworkTask, JoinFirst;
    var t := RunNetworkTask(e.sig, o);
    OrderedQueues(e);
    NetworkHasShape(e.sig, o);
    NetworkCounts(e.sig, t);
    NetworkSent(e, t);
    OrderedJoin(e);
    if e.sig.network[0].op.JoinRoom? {
      JoinAnswer(e.sig, o);
    }
    NetworkHanded(e, t, initiator);
  }

  lemma NetworkHanded(e: Endpoint, t: Signaling, initiator: bool)
    requires QueuesFit(e.sig) && JoinFirst(e.sig.log) && HandedFits(e, initiator)
    requires e.sig.network != [] && NetworkShape(e.sig, t)
    requires e.sig.network[0].op.JoinRoom? && Last(t.callbacks).response.Some? ==>
      Last(t.callbacks).response.value.isInitiator == initiator
    ensures HandedFits(e.(sig := t), initiator)
  {
    HeadOfNetwork(e.sig);
    hide QueuesFit;
  }

  lemma JoinAnswer(s: Signaling, o: NetOutcome)
    requires OutcomeFits(s, o) && s.network[0].op.JoinRoom?
    ensures Last(RunNetworkTask(s, o).callbacks) == JoinDone(s.network[0], o.Response())
  {
  }

  lemma HeardRelayed(e: Endpoint, ev: Event, initiator: bool)
    requires Ordered(e) && Relayed(e, initiator) && Enabled(e, ev)
    requires ev.SocketOpen? || ev.SocketClose? || ev.SocketError? || ev.SocketMessage?
    ensures Relayed(Apply(e, ev), initiator)
  {
    hide Alive, QueuesFit, LogFits, WireFits, RegistersFit, ByeFits, Count, Collect, TextFits, ParseSignalingMessage;
    var t := Apply(e, ev).sig;
    SameCounts(e.sig, t);
    var notices := t.callbacks[|e.sig.callbacks|..];
    assert t.callbacks == e.sig.callbacks + notices;
    assert forall c <- notices :: !c.JoinDone? && !c.Done?;
    assert AllOk(t.callbacks) ==> AllOk(e.sig.callbacks);
  }

  /** An event of the socket posts no request and sends nothing. */
  lemma SocketKeeps(e: Endpoint, ev: Event)
    requires Enabled(e, ev) && (ev.SocketOpen? || ev.SocketClose? || ev.SocketError? || ev.SocketMessage?)
    ensures var t := Apply(e, ev).sig;
      && t.log == e.sig.log && t.network == e.sig.network && t.wire == e.sig.wire
      && t.link.closing == e.sig.link.closing
  {
    hide ParseSignalingMessage;
  }

  lemma OrderedJoin(e: Endpoint)
    requires Ordered(e)
    ensures JoinFirst(e.sig.log)
  {
  }

  /** A handler that effects nothing on the join response. */
  lemma EffectRelayed(e: Endpoint, f: Endpoint, initiator: bool)
    requires Relayed(e, initiator) && Follows(e.peer, initiator) && Effect(e, f) && (Joined(f) ==> Joined(e))
    ensures Relayed(f, initiator)
  {
    EffectOutgoing(e, f, initiator);
    EffectKeeps(e, f);
    hide Follows, MayPost, TextsFit, WireCounts, SentFits, Collect;
  }

  lemma ThreadRelayed(e: Endpoint, ev: Event, initiator: bool)
    requires Ordered(e) && Negotiates(e, initiator) && Relayed(e, initiator)
    requires Enabled(e, ev) && OnSignalingThread(ev)
    ensures Relayed(Apply(e, ev), initiator)
  {
    hide Ordered, Relayed, Apply, Effect, Follows;
    OrderedQueues(e);
    OnlyJoinedPeers(e, ev);
    ApplyEffect(e, ev);
    EffectRelayed(e, Apply(e, ev), initiator);
  }

  /** A request that failed ends the call, unless it has ended already. */
  lemma FailureEnds(e: Endpoint)
    requires Ordered(e) && !e.thread.quit && e.sig.callbacks != []
    requires e.sig.callbacks[0].Done? && !e.sig.callbacks[0].ok
    ensures RunCallback(e).ctl.ending.finished
  {
    hide Ordered, QueuesFit, Alive, Finish, Pump, OnInbound, OnJoinComplete;
    OrderedQueues(e);
    HeadAnswerFits(e.sig);
    CallbackHead(e);
    var t := e.(sig := TakeCallback(e.sig));
    AskedToFinish(t, SignalingError);
    AskedToFinish(t.(ctl := SetInFlight(t.ctl, false)), SignalingError);
  }

  lemma AskedToFinish(e: Endpoint, reason: TerminalReason)
    ensures Finish(e, reason).ctl.ending.finished
  {
    hide ByeMessage;
  }

  lemma TookRelayed(e: Endpoint, initiator: bool)
    requires Relayed(e, initiator) && e.sig.callbacks != []
    ensures var t := Took(e);
      && TextsFit(t, initiator) && AllCounted(t.sig) && HandedFits(t, initiator)
      && ((e.sig.callbacks[0].Done? && !e.sig.callbacks[0].ok) || SentFits(t))
  {
    assert e.sig.callbacks == [e.sig.callbacks[0]] + e.sig.callbacks[1..];
    SameCounts(e.sig, Took(e).sig);
    hide AllCounted, Collect, Count, TextFits;
  }

  /** The join response is the one the callback answers with. */
  lemma CallbackJoins(e: Endpoint)
    requires Ordered(e) && !e.thread.quit && e.sig.callbacks != [] && MessagesFit(e)
    ensures var f := RunCallback(e); var c := e.sig.callbacks[0];
      if c.JoinDone? then Joined(f) ==> f.ctl.joinResponse == c.response
      else f.ctl.joinResponse == e.ctl.joinResponse
  {
    hide Ordered, Pump, Finish, OnDone, OnJoinComplete, CandidatesFit, OfferedFits, InboxFits, HeardFits;
    var t := Took(e);
    OrderedQueues(e);
    CallbackHead(e);
    TookRuns(e);
    TookMessages(e);
    match e.sig.callbacks[0]
    case Opened =>
    case Inbound(m) =>
      if !e.ctl.ending.finished {
        InboundMessages(t, m);
        PumpCandidates(Enqueued(t, m));
      }
    case ErrorNotice => FinishMoved(t, SignalingError);
    case JoinDone(_, response) => JoinCompleteJoins(t, response);
    case Done(task, ok) => DoneMoved(t, task.purpose, ok);
  }

  lemma JoinCompleteJoins(e: Endpoint, response: Option<JoinResponse>)
    requires !Joined(e)
    ensures Joined(OnJoinComplete(e, response)) ==> OnJoinComplete(e, response).ctl.joinResponse == response
  {
    hide JoinQueue, Carries;
  }

  lemma HandedKept(e: Endpoint, f: Endpoint, initiator: bool)
    requires HandedFits(e, initiator) && f.sig.stored == e.sig.stored && f.sig.callbacks <= e.sig.callbacks
    requires |f.sig.network| - |f.sig.log| == |e.sig.network| - |e.sig.log|
    requires Joined(f) ==> |e.sig.network| != |e.sig.log| && ResponseFits(f.ctl.joinResponse.value, e, initiator)
    ensures HandedFits(f, initiator)
  {
  }

  /** The join response a callback installs hands over what was stored. */
  lemma CallbackHanded(e: Endpoint, initiator: bool)
    requires Ordered(e) && !e.thread.quit && e.sig.callbacks != [] && MessagesFit(e) && HandedFits(e, initiator)
    ensures HandedFits(RunCallback(e), initiator)
  {
    hide Ordered, RunCallback, MessagesFit;
    CallbackJoins(e);
    CallbackKeeps(e);
    CallbackQueues(e);
    var f := RunCallback(e);
    var t := Took(e);
    assert e.sig.callbacks == [e.sig.callbacks[0]] + t.sig.callbacks;
    HandedKept(t, f, initiator);
  }

  lemma CallbackQueues(e: Endpoint)
    requires Ordered(e) && !e.thread.quit && e.sig.callbacks != []
    ensures var f := RunCallback(e);
      f.sig.stored == e.sig.stored && |f.sig.network| - |f.sig.log| == |e.sig.network| - |e.sig.log|
  {
    hide Ordered, Pump, OnJoinComplete, OnRegisterComplete, OnDescriptionSent, OnCandidateSent, OnInbound, OnError;
    OrderedQueues(e);
    CallbackHead(e);
    if !e.sig.callbacks[0].Opened? && !ByeAnswered(e.sig.callbacks[0]) {
      CallbackEffect(e);
      EffectQueues(Took(e), RunCallback(e));
    }
  }

  lemma EffectQueues(e: Endpoint, f: Endpoint)
    requires Effect(e, f)
    ensures f.sig.stored == e.sig.stored && |f.sig.network| - |f.sig.log| == |e.sig.network| - |e.sig.log|
  {
  }

  lemma CallbackOutgoing(e: Endpoint, initiator: bool)
    requires Ordered(e) && !e.thread.quit && e.sig.callbacks != []
    requires Follows(e.peer, initiator) && Relayed(e, initiator)
    ensures Outgoing(RunCallback(e), initiator)
  {
    hide Ordered, Relayed, Outgoing, Effect, Follows, RunCallback;
    OrderedQueues(e);
    CallbackHead(e);
    TookRelayed(e, initiator);
    var c := e.sig.callbacks[0];
    if c.Opened? {
      OpenedOutgoing(e, initiator);
    } else if ByeAnswered(c) {
      ByeOutgoing(e, initiator);
    } else {
      if c.Done? && !c.ok {
        FailureEnds(e);
      }
      CallbackEffect(e);
      EffectOutgoing(Took(e), RunCallback(e), initiator);
    }
  }

  lemma OpenedOutgoing(e: Endpoint, initiator: bool)
    requires e.sig.callbacks != [] && e.sig.callbacks[0].Opened? && Relayed(e, initiator)
    ensures Outgoing(RunCallback(e), initiator)
  {
    TookRelayed(e, initiator);
    var t := Took(e);
    var x := Last(Submit(t.sig, RegisterClient, ForRegister, Malformed).log);
    hide TextsFit, WireCounts, SentFits, HandedFits;
    if RunCallback(e).sig != t.sig {
      PostedRelayed(t, RunCallback(e), x, initiator);
    }
  }

  lemma ByeOutgoing(e: Endpoint, initiator: bool)
    requires Ordered(e) && !e.thread.quit && e.sig.callbacks != [] && ByeAnswered(e.sig.callbacks[0])
    requires Relayed(e, initiator)
    ensures Outgoing(RunCallback(e), initiator)
  {
    hide Ordered, TextsFit, WireCounts, SentFits, HandedFits;
    ByeCounts(e);
    TookRelayed(e, initiator);
    var t := Took(e);
    var x := Last(Submit(t.sig, CloseSocket, NoReply, Malformed).log);
    PostedRelayed(t, RunCallback(e), x, initiator);
  }

  lemma ApplyRelayed(e: Endpoint, ev: Event, initiator: bool)
    requires Ordered(e) && MessagesFit(e) && Enabled(e, ev) && Negotiates(e, initiator) && Relayed(e, initiator)
    requires ev.Network? && ev.outcome.Response().Some? ==>
      ev.outcome.Response().value.isInitiator == initiator
    ensures Relayed(Apply(e, ev), initiator)
  {
    hide Ordered, MessagesFit, Relayed, RunCallback, RunNetworkTask;
    match ev
    case Network(o) => NetworkRelayed(e, o, initiator);
    case Callback => CallbackRelayed(e, initiator);
    case SocketOpen => HeardRelayed(e, ev, initiator);
    case SocketClose => HeardRelayed(e, ev, initiator);
    case SocketError => HeardRelayed(e, ev, initiator);
    case SocketMessage(_) => HeardRelayed(e, ev, initiator);
    case _ => ThreadRelayed(e, ev, initiator);
  }

  lemma CallbackRelayed(e: Endpoint, initiator: bool)
    requires Ordered(e) && !e.thread.quit && e.sig.callbacks != [] && MessagesFit(e)
    requires Negotiates(e, initiator) && Relayed(e, initiator)
    ensures Relayed(RunCallback(e), initiator)
  {
    hide Ordered, MessagesFit, RunCallback, HandedFits, TextsFit, WireCounts, SentFits, Follows;
    CallbackOutgoing(e, initiator);
    CallbackHanded(e, initiator);
  }
}
