/** Texts that are none of the four messages: one of another type ends the call, one that is no JSON does nothing. */
module StoredTexts {
  import opened Sequences
  import opened Common
  import opened PeerConnectionSpec
  import opened SignalingSpec
  import opened ControllerSpec
  import opened EndpointRuns
  import opened Lifecycle
  import opened Effects
  import opened WireOrder
  import opened Flight
  import opened Messages
  import opened JoinOrder

  /** A JSON text whose type is none of the four. */
  predicate Foreign(text: Text) {
    text.Json? && text.kind != "offer" && text.kind != "answer" && text.kind != "candidate" && text.kind != "bye"
  }

  predicate IsUnknown(m: Message) {
    m.kind.Unknown?
  }

  /** An unknown message, once dispatched, is the last that was, and has ended the call. */
  predicate UnknownEnds(e: Endpoint) {
    var dispatched := e.ctl.inbox.dispatched;
    forall i | 0 <= i < |dispatched| && IsUnknown(dispatched[i]) ::
      && i == |dispatched| - 1 && e.ctl.ending.finished
      && e.ctl.ending.attempts != [] && e.ctl.ending.attempts[0] == SignalingError
  }

  /** The call goes on, or nothing more is dispatched and the first reason stays. */
  predicate Harmless(e: Endpoint, f: Endpoint) {
    && f.ctl.inbox.dispatched == e.ctl.inbox.dispatched
    && e.ctl.ending.attempts <= f.ctl.ending.attempts
    && (e.ctl.ending.finished ==> f.ctl.ending.finished)
  }

  lemma HarmlessEnds(e: Endpoint, f: Endpoint)
    requires UnknownEnds(e) && Harmless(e, f)
    ensures UnknownEnds(f)
  {
  }

  lemma FinishHarmless(e: Endpoint, reason: TerminalReason)
    ensures Harmless(e, Finish(e, reason)) && Finish(e, reason).ctl.ending.finished
    ensures e.ctl.ending.attempts == [] ==> Finish(e, reason).ctl.ending.attempts == [reason]
  {
    hide ByeMessage;
  }

  lemma DispatchHarmless(e: Endpoint, m: Message)
    ensures Harmless(e, Dispatch(e, m))
  {
    hide Finish;
    FinishHarmless(e, RemoteByeAfterEstablished);
    FinishHarmless(e, RemoteByeBeforeEstablished);
    FinishHarmless(e, SignalingError);
    FinishHarmless(e.(peer := AddRemoteCandidate(e.peer, m).0), PeerConnectionError);
    var f := e.(ctl := SetInFlight(e.ctl.(state := Negotiating), false));
    FinishHarmless(f.(peer := SetRemote(e.peer, SdpOffer, m).0), PeerConnectionError);
    FinishHarmless(f.(peer := SetRemote(e.peer, SdpAnswer, m).0), PeerConnectionError);
  }

  lemma ActUnknown(e: Endpoint)
    requires Alive(e) && HasWork(e) && UnknownEnds(e)
    ensures UnknownEnds(Act(e))
  {
    hide Dispatch, PartsFit;
    if e.ctl.inbox.pending != [] {
      var m := e.ctl.inbox.pending[0];
      DispatchHarmless(Taken(e), m);
      if IsUnknown(m) {
        UnknownDispatched(Taken(e), m);
      }
    }
  }

  lemma UnknownDispatched(e: Endpoint, m: Message)
    requires e.ctl.ending.attempts == [] && IsUnknown(m)
    ensures var f := Dispatch(e, m); f.ctl.ending.finished && f.ctl.ending.attempts == [SignalingError]
  {
    hide Finish;
    FinishHarmless(e, SignalingError);
  }

  lemma {:induction false} PumpUnknown(e: Endpoint)
    requires Alive(e) && UnknownEnds(e)
    ensures UnknownEnds(Pump(e))
    decreases Work(e)
  {
    hide Act, Alive, UnknownEnds;
    if HasWork(e) {
      ActUnknown(e);
      ActAlive(e);
      PumpUnknown(Act(e));
    }
  }

  lemma OperationUnknown(e: Endpoint, i: nat, ok: bool, sdp: string)
    requires Alive(e) && !e.thread.quit && i < |e.peer.operations| && UnknownEnds(e)
    ensures UnknownEnds(OnOperationDone(e, i, ok, sdp))
  {
    hide Pump, Finish, CompleteOperation, EndingFits;
    var (p, reply) := CompleteOperation(e.peer, i, ok, sdp);
    OperationFrame(e.peer, i, ok, sdp);
    var f := e.(peer := p, ctl := SetInFlight(e.ctl, false));
    match reply
    case Chained =>
    case ActionFailed => FinishHarmless(f, PeerConnectionError);
    case RemoteAnswerSet =>
      AliveIdle(e, p);
      PumpUnknown(f);
    case LocalDescriptionReady(_) =>
  }

  lemma DoneUnknown(e: Endpoint, purpose: Purpose, ok: bool)
    requires Alive(e) && UnknownEnds(e)
    requires purpose.ForRegister? && ok && !e.ctl.ending.finished ==> e.ctl.negotiation.ready
    ensures UnknownEnds(OnDone(e, purpose, ok))
  {
    hide Pump, Finish;
    var f := e.(ctl := SetInFlight(e.ctl, false));
    match purpose
    case ForRegister =>
      PumpUnknown(e);
      FinishHarmless(e, SignalingError);
    case ForDescription =>
      PumpUnknown(f);
      FinishHarmless(f, SignalingError);
    case ForCandidate => FinishHarmless(e, SignalingError);
    case _ =>
  }

  lemma JoinHarmless(e: Endpoint, response: Option<JoinResponse>)
    ensures Harmless(e, OnJoinComplete(e, response))
  {
    hide Finish, JoinQueue;
    FinishHarmless(e, SignalingError);
    var f := e.(ctl := e.ctl.(joinResponse := response));
    FinishHarmless(f.(peer := Initialize(f.peer).0), PeerConnectionError);
    FinishHarmless(f.(peer := StartMedia(Initialize(f.peer).0).0), MediaError);
  }

  lemma CallbackUnknown(e: Endpoint)
    requires Ordered(e) && !e.thread.quit && e.sig.callbacks != [] && UnknownEnds(e)
    ensures UnknownEnds(RunCallback(e))
  {
    hide Ordered, Pump, Finish, OnDone, OnJoinComplete;
    OrderedQueues(e);
    CallbackHead(e);
    TookRuns(e);
    var t := Took(e);
    match e.sig.callbacks[0]
    case Opened =>
    case Inbound(m) => PumpUnknown(Enqueued(t, m));
    case ErrorNotice => FinishHarmless(t, SignalingError);
    case JoinDone(_, response) => JoinHarmless(t, response);
    case Done(task, ok) => DoneUnknown(t, task.purpose, ok);
  }

  lemma ReportHarmless(e: Endpoint, st: ConnectionState)
    ensures Harmless(e, OnConnectionChange(e, st)) && Harmless(e, OnFrame(e))
  {
    hide Finish;
    FinishHarmless(OnConnectionEdge(e, st), PeerConnectionError);
  }

  lemma TimerHarmless(e: Endpoint, i: nat)
    requires i < |e.thread.timers|
    ensures Harmless(e, OnTimer(e, i))
  {
    hide Finish;
    var f := e.(thread := e.thread.(timers := Without(e.thread.timers, i)));
    FinishHarmless(f, StartupTimeout);
    FinishHarmless(f, LocalDurationReached);
  }

  lemma ApplyUnknown(e: Endpoint, ev: Event)
    requires Ordered(e) && Enabled(e, ev) && UnknownEnds(e)
    ensures UnknownEnds(Apply(e, ev))
  {
    hide Ordered, RunCallback, RunNetworkTask, OnOperationDone, OnConnectionChange, OnFrame, OnTimer,
      OnSocketMessage, SerializeIceCandidate, UnknownEnds;
    OrderedQueues(e);
    match ev {
      case Callback => CallbackUnknown(e);
      case OperationDone(i, ok, sdp) => OperationUnknown(e, i, ok, sdp);
      case ConnectionChange(st) =>
        ReportHarmless(e, st);
        HarmlessEnds(e, Apply(e, ev));
      case VideoFrame =>
        ReportHarmless(e, NewState);
        HarmlessEnds(e, Apply(e, ev));
      case TimerFires(i) =>
        TimerHarmless(e, i);
        HarmlessEnds(e, Apply(e, ev));
      case _ => HarmlessEnds(e, Apply(e, ev));
    }
  }

  lemma {:induction false} RunUnknown(config: AppConfig, verdicts: nat -> bool, events: seq<Event>)
    ensures UnknownEnds(Run(Started(config, verdicts), events))
  {
    hide Ordered, Apply;
    if events != [] {
      hide Started, UnknownEnds;
      RunUnknown(config, verdicts, events[..|events| - 1]);
      RunOrdered(config, verdicts, events[..|events| - 1]);
      var e := Run(Started(config, verdicts), events[..|events| - 1]);
      if Enabled(e, Last(events)) {
        ApplyUnknown(e, Last(events));
      }
    }
  }

  /** A text of another type is read as an unknown message. */
  lemma ForeignIsUnknown(texts: seq<Text>, text: Text)
    requires text in texts && Foreign(text)
    ensures exists m :: m in Collect(ParseSignalingMessage, texts) && IsUnknown(m)
  {
    hide ParseSignalingMessage, Collect;
    TextsByType(text);
    CollectMember(ParseSignalingMessage, texts, text);
  }

  /** A stored text of another type waits in the queue as long as the call goes on; the turn of the pump that
      dispatches it ends the call for a signaling error, and is the last; so once the pump of a call that goes on has
      come to the end of the queue, no such text was stored. */
  lemma ForeignTextsEndTheCall(config: AppConfig, verdicts: nat -> bool, events: seq<Event>)
    ensures var e := Run(Started(config, verdicts), events);
      && UnknownEnds(e)
      && (JoinQueued(e) && !e.ctl.ending.finished ==>
            (exists text <- e.ctl.joinResponse.value.messages :: Foreign(text)) ==>
              exists m <- e.ctl.inbox.pending :: IsUnknown(m))
      && (Joined(e) && !e.ctl.ending.finished && e.ctl.negotiation.ready && !e.ctl.negotiation.inFlight ==>
            forall text <- e.ctl.joinResponse.value.messages :: !Foreign(text))
  {
    hide Started, Apply, Collect, CandidatesFit, OfferedFits, HeardFits, JoinQueue, Ordered, Foreign,
      ParseSignalingMessage;
    RunUnknown(config, verdicts, events);
    RunMessages(config, verdicts, events);
    NothingStranded(config, verdicts, events);
    var e := Run(Started(config, verdicts), events);
    if JoinQueued(e) && !e.ctl.ending.finished {
      forall text | text in e.ctl.joinResponse.value.messages && Foreign(text)
        ensures exists m <- e.ctl.inbox.pending :: IsUnknown(m)
      {
        ForeignWaits(e, text);
      }
    }
  }

  lemma ForeignWaits(e: Endpoint, text: Text)
    requires JoinQueued(e) && !e.ctl.ending.finished && InboxFits(e) && UnknownEnds(e)
    requires text in e.ctl.joinResponse.value.messages && Foreign(text)
    ensures exists m <- e.ctl.inbox.pending :: IsUnknown(m)
  {
    hide JoinQueue, ParseSignalingMessage, Collect;
    var r := e.ctl.joinResponse.value;
    ForeignIsUnknown(r.messages, text);
    var m :| m in Collect(ParseSignalingMessage, r.messages) && IsUnknown(m);
    JoinQueueOrder(r);
    var all := e.ctl.inbox.dispatched + e.ctl.inbox.pending;
    assert all == JoinQueue(r) + e.ctl.inbox.inbound;
    assert m in JoinQueue(r) && m in all;
    assert m !in e.ctl.inbox.dispatched;
  }

  predicate IsReadable(text: Text) {
    text.Json?
  }

  /** The texts that are JSON, in their order. */
  function Readable(texts: seq<Text>): seq<Text> {
    Filter(IsReadable, texts)
  }

  function PrunedResponse(response: Option<JoinResponse>): Option<JoinResponse> {
    if response.None? then None else Some(response.value.(messages := Readable(response.value.messages)))
  }

  function PrunedCallback(c: CallbackTask): CallbackTask {
    if c.JoinDone? then JoinDone(c.task, PrunedResponse(c.response)) else c
  }

  function PrunedCallbacks(cs: seq<CallbackTask>): seq<CallbackTask> {
    if cs == [] then [] else [PrunedCallback(cs[0])] + PrunedCallbacks(cs[1..])
  }

  /** The same event, with only the readable texts stored in the room. */
  function PrunedEvent(ev: Event): Event {
    match ev
    case Network(JoinOutcome(Accepted(r))) => Network(JoinOutcome(Accepted(r.(messages := Readable(r.messages)))))
    case _ => ev
  }

  function PrunedEvents(events: seq<Event>): seq<Event> {
    if events == [] then [] else PrunedEvents(events[..|events| - 1]) + [PrunedEvent(Last(events))]
  }

  /** The same state, but for the texts that are no JSON in the join response, wherever it is. */
  function Pruned(e: Endpoint): Endpoint {
    e.(ctl := e.ctl.(joinResponse := PrunedResponse(e.ctl.joinResponse)),
       sig := e.sig.(stored := Readable(e.sig.stored), callbacks := PrunedCallbacks(e.sig.callbacks)))
  }

  lemma {:induction false} ReadableParse(texts: seq<Text>)
    ensures Collect(ParseSignalingMessage, Readable(texts)) == Collect(ParseSignalingMessage, texts)
  {
    hide ParseSignalingMessage;
    if texts != [] {
      ReadableParse(texts[1..]);
      TextsByType(texts[0]);
      var first := if IsReadable(texts[0]) then [texts[0]] else [];
      assert Readable(texts) == first + Readable(texts[1..]);
      CollectAppend(ParseSignalingMessage, first, Readable(texts[1..]));
      CollectMore(ParseSignalingMessage, [], texts[0]);
    }
  }

  lemma {:induction false} PrunedMore(cs: seq<CallbackTask>, c: CallbackTask)
    ensures PrunedCallbacks(cs + [c]) == PrunedCallbacks(cs) + [PrunedCallback(c)]
  {
    hide PrunedCallback;
    if cs == [] {
      assert cs + [c] == [c];
    } else {
      assert (cs + [c])[0] == cs[0] && (cs + [c])[1..] == cs[1..] + [c];
      PrunedMore(cs[1..], c);
    }
  }

  lemma FinishPruned(e: Endpoint, reason: TerminalReason)
    ensures Finish(Pruned(e), reason) == Pruned(Finish(e, reason))
  {
    hide PrunedCallbacks, Readable, ByeMessage;
  }

  lemma StartRemotePruned(e: Endpoint, t: SdpType, m: Message)
    ensures StartRemote(Pruned(e), t, m) == Pruned(StartRemote(e, t, m))
  {
    hide PrunedCallbacks, Readable, Finish;
    var f := e.(ctl := SetInFlight(e.ctl.(state := Negotiating), false));
    FinishPruned(f.(peer := SetRemote(e.peer, t, m).0), PeerConnectionError);
  }

  lemma DispatchPruned(e: Endpoint, m: Message)
    ensures Dispatch(Pruned(e), m) == Pruned(Dispatch(e, m))
  {
    hide PrunedCallbacks, Readable, Finish, StartRemote, AddCandidate;
    FinishPruned(e, RemoteByeAfterEstablished);
    FinishPruned(e, RemoteByeBeforeEstablished);
    FinishPruned(e, SignalingError);
    FinishPruned(e.(peer := AddRemoteCandidate(e.peer, m).0), PeerConnectionError);
    StartRemotePruned(e, SdpOffer, m);
    StartRemotePruned(e, SdpAnswer, m);
  }

  lemma ActPruned(e: Endpoint)
    ensures HasWork(Pruned(e)) == HasWork(e)
    ensures HasWork(e) ==> Act(Pruned(e)) == Pruned(Act(e))
  {
    hide PrunedCallbacks, Readable, Dispatch;
    if HasWork(e) && e.ctl.inbox.pending != [] {
      DispatchPruned(Taken(e), e.ctl.inbox.pending[0]);
    }
  }

  lemma {:induction false} PumpPruned(e: Endpoint)
    requires Alive(e)
    ensures Pump(Pruned(e)) == Pruned(Pump(e))
    decreases Work(e)
  {
    hide Act, Alive, Pruned;
    ActPruned(e);
    if HasWork(e) {
      ActAlive(e);
      PumpPruned(Act(e));
    }
  }

  lemma OperationPruned(e: Endpoint, i: nat, ok: bool, sdp: string)
    requires Alive(e) && !e.thread.quit && i < |e.peer.operations|
    ensures OnOperationDone(Pruned(e), i, ok, sdp) == Pruned(OnOperationDone(e, i, ok, sdp))
  {
    hide PrunedCallbacks, Readable, Pump, Finish, CompleteOperation, EndingFits;
    var (p, reply) := CompleteOperation(e.peer, i, ok, sdp);
    OperationFrame(e.peer, i, ok, sdp);
    var f := e.(peer := p, ctl := SetInFlight(e.ctl, false));
    match reply
    case Chained =>
    case ActionFailed => FinishPruned(f, PeerConnectionError);
    case RemoteAnswerSet =>
      AliveIdle(e, p);
      PumpPruned(f);
    case LocalDescriptionReady(_) =>
  }

  lemma DonePruned(e: Endpoint, purpose: Purpose, ok: bool)
    requires Alive(e) && !e.thread.quit
    requires purpose.ForRegister? ==> Joined(e)
    ensures OnDone(Pruned(e), purpose, ok) == Pruned(OnDone(e, purpose, ok))
  {
    hide PrunedCallbacks, Readable, Pump, Finish;
    var f := e.(ctl := SetInFlight(e.ctl, false));
    match purpose
    case ForRegister =>
      PumpPruned(e.(ctl := e.ctl.(negotiation := e.ctl.negotiation.(ready := true))));
      FinishPruned(e, SignalingError);
    case ForDescription =>
      PumpPruned(f);
      FinishPruned(f, SignalingError);
    case ForCandidate => FinishPruned(e, SignalingError);
    case _ =>
  }

  lemma JoinPruned(e: Endpoint, response: Option<JoinResponse>)
    ensures OnJoinComplete(Pruned(e), PrunedResponse(response)) == Pruned(OnJoinComplete(e, response))
  {
    hide PrunedCallbacks, Readable, Finish, StableOrder, ParseSignalingMessage, Collect;
    FinishPruned(e, SignalingError);
    var f := e.(ctl := e.ctl.(joinResponse := response));
    FinishPruned(f.(peer := Initialize(f.peer).0), PeerConnectionError);
    FinishPruned(f.(peer := StartMedia(Initialize(f.peer).0).0), MediaError);
    if response.Some? {
      ReadableParse(response.value.messages);
    }
  }

  lemma TakePruned(e: Endpoint)
    requires e.sig.callbacks != []
    ensures Pruned(e).sig.callbacks != [] && Pruned(e).sig.callbacks[0] == PrunedCallback(e.sig.callbacks[0])
    ensures Pruned(e).(sig := TakeCallback(Pruned(e).sig)) == Pruned(e.(sig := TakeCallback(e.sig)))
  {
    hide Readable;
  }

  lemma CallbackPruned(e: Endpoint)
    requires Ordered(e) && !e.thread.quit && e.sig.callbacks != []
    ensures Pruned(e).sig.callbacks != [] && RunCallback(Pruned(e)) == Pruned(RunCallback(e))
  {
    hide Ordered, Pump, Finish, OnDone, OnJoinComplete, PrunedCallbacks, Readable;
    OrderedQueues(e);
    CallbackHead(e);
    TakePruned(e);
    var t := e.(sig := TakeCallback(e.sig));
    match e.sig.callbacks[0]
    case Opened =>
    case Inbound(m) => PumpPruned(Enqueued(t, m));
    case ErrorNotice => FinishPruned(t, SignalingError);
    case JoinDone(_, response) => JoinPruned(t, response);
    case Done(task, ok) => DonePruned(t, task.purpose, ok);
  }

  lemma ReportPruned(e: Endpoint, st: ConnectionState)
    ensures OnConnectionChange(Pruned(e), st) == Pruned(OnConnectionChange(e, st))
    ensures OnFrame(Pruned(e)) == Pruned(OnFrame(e))
  {
    hide Finish, PrunedCallbacks, Readable;
    FinishPruned(OnConnectionEdge(e, st), PeerConnectionError);
  }

  lemma TimerPruned(e: Endpoint, i: nat)
    requires i < |e.thread.timers|
    ensures OnTimer(Pruned(e), i) == Pruned(OnTimer(e, i))
  {
    hide Finish, PrunedCallbacks, Readable;
    var f := e.(thread := e.thread.(timers := Without(e.thread.timers, i)));
    FinishPruned(f, StartupTimeout);
    FinishPruned(f, LocalDurationReached);
  }

  lemma EnabledPruned(e: Endpoint, ev: Event)
    ensures Enabled(Pruned(e), PrunedEvent(ev)) == Enabled(e, ev)
  {
    hide Readable, PrunedResponse;
  }

  lemma NetworkPruned(e: Endpoint, o: NetOutcome)
    requires OutcomeFits(e.sig, o)
    ensures Enabled(Pruned(e), PrunedEvent(Network(o)))
    ensures Apply(Pruned(e), PrunedEvent(Network(o))) == Pruned(Apply(e, Network(o)))
  {
    hide Readable;
    NothingReadable();
    var t := RunNetworkTask(e.sig, o);
    if t.callbacks != e.sig.callbacks {
      PrunedMore(e.sig.callbacks, Last(t.callbacks));
    }
  }

  lemma NothingReadable()
    ensures Readable([]) == []
  {
  }

  lemma SocketPruned(e: Endpoint, ev: Event)
    requires Enabled(e, ev) && (ev.SocketOpen? || ev.SocketClose? || ev.SocketError? || ev.SocketMessage?)
    ensures Enabled(Pruned(e), ev) && Apply(Pruned(e), ev) == Pruned(Apply(e, ev))
  {
    hide Readable, ParseSignalingMessage;
    var t := Apply(e, ev).sig;
    if t.callbacks != e.sig.callbacks {
      PrunedMore(e.sig.callbacks, Last(t.callbacks));
    }
  }

  lemma ApplyPruned(e: Endpoint, ev: Event)
    requires Ordered(e) && Enabled(e, ev)
    ensures Enabled(Pruned(e), PrunedEvent(ev)) && Apply(Pruned(e), PrunedEvent(ev)) == Pruned(Apply(e, ev))
  {
    hide Ordered, RunCallback, RunNetworkTask, OnOperationDone, OnConnectionChange, OnFrame, OnTimer,
      OnSocketMessage, SerializeIceCandidate, PrunedCallbacks, Readable;
    OrderedQueues(e);
    EnabledPruned(e, ev);
    match ev
    case Network(o) => NetworkPruned(e, o);
    case Callback => CallbackPruned(e);
    case OperationDone(i, ok, sdp) => OperationPruned(e, i, ok, sdp);
    case ConnectionChange(st) => ReportPruned(e, st);
    case VideoFrame => ReportPruned(e, NewState);
    case TimerFires(i) => TimerPruned(e, i);
    case SocketOpen => SocketPruned(e, ev);
    case SocketClose => SocketPruned(e, ev);
    case SocketError => SocketPruned(e, ev);
    case SocketMessage(_) => SocketPruned(e, ev);
    case _ =>
  }

  /** What is no JSON among the stored texts does nothing: with those texts left out of the join response, every run
      goes through the same states, except for the texts themselves. */
  lemma {:induction false} MalformedTextsDoNothing(config: AppConfig, verdicts: nat -> bool, events: seq<Event>)
    ensures var first := Started(config, verdicts);
      Run(first, PrunedEvents(events)) == Pruned(Run(first, events))
  {
    hide Ordered, Apply, Enabled, PrunedEvent;
    var first := Started(config, verdicts);
    if events == [] {
      assert Pruned(first) == first;
    } else {
      hide Started, Pruned;
      var before := events[..|events| - 1];
      var pruned := PrunedEvents(events);
      assert pruned[..|pruned| - 1] == PrunedEvents(before) && Last(pruned) == PrunedEvent(Last(events));
      MalformedTextsDoNothing(config, verdicts, before);
      RunOrdered(config, verdicts, before);
      EnabledPruned(Run(first, before), Last(events));
      if Enabled(Run(first, before), Last(events)) {
        ApplyPruned(Run(first, before), Last(events));
      }
    }
  }
}
