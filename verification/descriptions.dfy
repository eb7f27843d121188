/** The descriptions a peer posts are those that its connection created. */
module Descriptions {
  import opened Sequences
  import opened Common
  import opened PeerConnectionSpec
  import opened SignalingSpec
  import opened ControllerSpec
  import opened EndpointRuns
  import opened Lifecycle
  import opened Queues
  import opened Effects
  import opened WireOrder
  import opened Flight
  import opened Messages
  import opened NegotiationScript
  import opened Outbox

  /** The descriptions a peer has posted, as the other peer reads them. */
  function PostedDescriptions(e: Endpoint): seq<Message> {
    Collect(ParseSignalingMessage, DescriptionTexts(e))
  }

  /** The description that libwebrtc hands over in an event, unless the peer client cannot write it down. */
  function NewDescription(e: Endpoint, ev: Event): seq<Message> {
    match ev
    case OperationDone(i, true, sdp) =>
      if Enabled(e, ev) && e.peer.operations[i].Creating? && e.peer.oracle.Next()
      then [Message(TypeOfSdp(e.peer.operations[i].t), sdp, "", "", 0)]
      else []
    case _ => []
  }

  /** The descriptions created in a run. */
  function Created(e: Endpoint, events: seq<Event>): seq<Message> {
    if events == [] then []
    else
      var before := events[..|events| - 1];
      Created(e, before) + NewDescription(Run(e, before), Last(events))
  }

  /** A description that was created is set next, in a text that reads as exactly that description. */
  lemma CreatedIsSet(p: Peer, i: nat, sdp: string)
    requires i < |p.operations| && p.operations[i].Creating? && p.oracle.Next()
    ensures var (q, reply) := CompleteOperation(p, i, true, sdp);
      var t := p.operations[i].t;
      && reply.Chained? && q.calls == p.calls + [SetLocalCall(t)] && q.operations != []
      && Last(q.operations).SettingLocal? && Last(q.operations).t == t
      && ParseSignalingMessage(Last(q.operations).json) == Some(Message(TypeOfSdp(t), sdp, "", "", 0))
  {
    hide ParseSignalingMessage, SerializeSessionDescription;
    SerializedTextsParse(p.operations[i].t, sdp, "", "", 0);
  }

  /** The description that is being set. */
  function BeingSet(p: Peer): seq<Text> {
    if p.operations != [] && p.operations[0].SettingLocal? then [p.operations[0].json] else []
  }

  /** What was created was posted, except one that is being set, or that was when the call ended. */
  predicate MadeFits(e: Endpoint, made: seq<Message>) {
    var posted := PostedDescriptions(e);
    var setting := Collect(ParseSignalingMessage, BeingSet(e.peer));
    && posted <= made && |made| <= |posted| + 1
    && |posted| == |DescriptionTexts(e)| && |setting| == |BeingSet(e.peer)|
    && (e.peer.operations != [] || !e.ctl.ending.finished ==> made == posted + setting)
  }

  /** Of the negotiation at most a beginning was made, in a call that goes on and that had nothing outstanding. */
  predicate Begins(e: Endpoint, f: Endpoint) {
    && (e.ctl.ending.finished ==> f.ctl.ending.finished)
    && (f.peer.operations == e.peer.operations
        || (f.peer.operations == [] && f.ctl.ending.finished)
        || (e.peer.operations == [] && !e.ctl.ending.finished && BeingSet(f.peer) == []))
  }

  lemma BegunFits(e: Endpoint, f: Endpoint, made: seq<Message>)
    requires MadeFits(e, made) && DescriptionTexts(f) == DescriptionTexts(e) && Begins(e, f)
    ensures MadeFits(f, made)
  {
    hide ParseSignalingMessage, DescriptionTexts;
    assert Collect(ParseSignalingMessage, []) == [];
  }

  lemma FinishBegins(e: Endpoint, reason: TerminalReason)
    ensures Begins(e, Finish(e, reason)) && Finish(e, reason).ctl.ending.finished
  {
    hide ByeMessage;
  }

  lemma StartRemoteBegins(e: Endpoint, t: SdpType, m: Message)
    requires CanPump(e) && e.peer.operations == []
    ensures var f := StartRemote(e, t, m); Begins(e, f) && !CanPump(f)
  {
    hide Finish;
    var f := e.(ctl := SetInFlight(e.ctl.(state := Negotiating), true));
    FinishBegins(f.(peer := SetRemote(f.peer, t, m).0, ctl := SetInFlight(f.ctl, false)), PeerConnectionError);
  }

  /** A turn of the pump begins something and stops, or leaves nothing outstanding. */
  lemma ActBegins(e: Endpoint)
    requires HasWork(e) && e.peer.operations == []
    ensures var f := Act(e); Begins(e, f) && (CanPump(f) ==> f.peer.operations == [])
  {
    hide Finish, StartRemote, AddCandidate;
    if e.ctl.inbox.pending != [] {
      var t := Taken(e);
      var m := e.ctl.inbox.pending[0];
      match m.kind
      case Bye =>
        FinishBegins(t, RemoteByeAfterEstablished);
        FinishBegins(t, RemoteByeBeforeEstablished);
      case Candidate => FinishBegins(t.(peer := AddRemoteCandidate(t.peer, m).0), PeerConnectionError);
      case Answer => StartRemoteBegins(t, SdpAnswer, m);
      case Offer => StartRemoteBegins(t, SdpOffer, m);
      case Unknown => FinishBegins(t, SignalingError);
    }
  }

  lemma {:induction false} PumpBegins(e: Endpoint)
    requires Alive(e) && (CanPump(e) ==> e.peer.operations == [])
    ensures Begins(e, Pump(e))
    decreases Work(e)
  {
    hide Act, Alive;
    if HasWork(e) {
      ActBegins(e);
      ActAlive(e);
      PumpBegins(Act(e));
      if !CanPump(Act(e)) {
        assert Pump(Act(e)) == Act(e);
      }
    }
  }

  /** With the flag down nothing is outstanding. */
  lemma IdleHasNone(e: Endpoint)
    requires Ordered(e) && Quiescent(e)
    ensures !e.ctl.negotiation.inFlight ==> e.peer.operations == []
    ensures |e.peer.operations| <= 1
  {
    OrderedQueues(e);
    DescriptionsOutByHistory(e.sig);
    NoneAfterQuit(e);
    hide Ordered, Count, QueuesFit;
  }

  lemma NoneAfterQuit(e: Endpoint)
    requires Ordered(e)
    ensures e.thread.quit ==> e.peer.operations == []
  {
    hide EndingFits, QueuesFit, LogFits, LinkFits, WireFits, RegistersFit, ByeFits;
  }

  lemma DoneBegins(e: Endpoint, purpose: Purpose, ok: bool)
    requires Alive(e) && (purpose.ForDescription? || !e.ctl.negotiation.inFlight ==> e.peer.operations == [])
    requires purpose.ForRegister? && ok && !e.ctl.ending.finished ==> e.ctl.negotiation.ready
    requires purpose.ForBye? ==> e.ctl.ending.finished
    ensures Begins(e, OnDone(e, purpose, ok))
  {
    hide Pump, Finish;
    var f := e.(ctl := SetInFlight(e.ctl, false));
    match purpose
    case ForRegister =>
      PumpBegins(e);
      FinishBegins(e, SignalingError);
    case ForDescription =>
      PumpBegins(f);
      FinishBegins(f, SignalingError);
    case ForCandidate => FinishBegins(e, SignalingError);
    case ForBye =>
    case ForJoin =>
    case NoReply =>
  }

  lemma JoinBegins(e: Endpoint, response: Option<JoinResponse>)
    requires e.peer.operations == []
    ensures Begins(e, OnJoinComplete(e, response))
  {
    hide Finish, JoinQueue;
    FinishBegins(e, SignalingError);
    var f := e.(ctl := e.ctl.(joinResponse := response));
    FinishBegins(f.(peer := Initialize(f.peer).0), PeerConnectionError);
    FinishBegins(f.(peer := StartMedia(Initialize(f.peer).0).0), MediaError);
  }

  lemma CallbackBegins(e: Endpoint)
    requires Ordered(e) && Quiescent(e) && !e.thread.quit && e.sig.callbacks != []
    ensures Begins(e, RunCallback(e))
  {
    hide Ordered, Quiescent, Pump, Finish, OnDone, OnJoinComplete;
    OrderedQueues(e);
    CallbackHead(e);
    TookRuns(e);
    IdleHasNone(e);
    var t := Took(e);
    match e.sig.callbacks[0]
    case Opened =>
    case Inbound(m) => PumpBegins(Enqueued(t, m));
    case ErrorNotice => FinishBegins(t, SignalingError);
    case JoinDone(_, response) => JoinBegins(t, response);
    case Done(task, ok) =>
      if task.purpose.ForDescription? {
        DescriptionAlone(e);
      }
      DoneBegins(t, task.purpose, ok);
  }

  lemma ReportBegins(e: Endpoint, st: ConnectionState)
    ensures Begins(e, OnConnectionChange(e, st)) && Begins(e, OnFrame(e))
  {
    hide Finish;
    FinishBegins(OnConnectionEdge(e, st), PeerConnectionError);
  }

  lemma TimerBegins(e: Endpoint, i: nat)
    requires i < |e.thread.timers|
    ensures Begins(e, OnTimer(e, i))
  {
    hide Finish;
    var f := e.(thread := e.thread.(timers := Without(e.thread.timers, i)));
    FinishBegins(f, StartupTimeout);
    FinishBegins(f, LocalDurationReached);
  }

  /** Every event but the end of an operation. */
  lemma ApplyBegins(e: Endpoint, ev: Event)
    requires Ordered(e) && Quiescent(e) && Enabled(e, ev) && !ev.OperationDone?
    ensures Begins(e, Apply(e, ev)) && DescriptionTexts(Apply(e, ev)) == DescriptionTexts(e)
  {
    hide Ordered, Quiescent, QueuesFit, RunCallback, RunNetworkTask, OnConnectionChange, OnFrame, OnTimer,
      SerializeIceCandidate, ParseSignalingMessage, Collect, Begins;
    OrderedQueues(e);
    match ev
    case Network(o) =>
      NetworkHasShape(e.sig, o);
      NothingBegins(e, Apply(e, ev));
    case Callback =>
      CallbackSilent(e);
      CallbackBegins(e);
    case ConnectionChange(st) =>
      ReportSilent(e, st);
      ReportBegins(e, st);
    case VideoFrame =>
      ReportSilent(e, NewState);
      ReportBegins(e, NewState);
    case TimerFires(i) =>
      TimerSilent(e, i);
      TimerBegins(e, i);
    case LocalCandidate(candidate, mid, mline) =>
      PostsSilently(e.sig, Route(e), ForCandidate, SerializeIceCandidate(candidate, mid, mline));
      NothingBegins(e, Apply(e, ev));
    case OperationDone(_, _, _) =>
    case SocketOpen => NothingBegins(e, Apply(e, ev));
    case SocketClose => NothingBegins(e, Apply(e, ev));
    case SocketError => NothingBegins(e, Apply(e, ev));
    case SocketMessage(_) => NothingBegins(e, Apply(e, ev));
    case ClockAdvances(_) => NothingBegins(e, Apply(e, ev));
  }

  lemma NothingBegins(e: Endpoint, f: Endpoint)
    requires f.peer.operations == e.peer.operations && f.ctl.ending == e.ctl.ending
    ensures Begins(e, f)
  {
  }

  /** The end of the one operation that is outstanding. */
  lemma OperationMakes(p: Peer, ok: bool, sdp: string)
    requires |p.operations| == 1
    ensures var (q, reply) := CompleteOperation(p, 0, ok, sdp);
      var made := if ok && p.operations[0].Creating? && p.oracle.Next()
                  then [Message(TypeOfSdp(p.operations[0].t), sdp, "", "", 0)] else [];
      && (reply.LocalDescriptionReady? <==> ok && p.operations[0].SettingLocal?)
      && (reply.LocalDescriptionReady? ==> BeingSet(p) == [reply.json])
      && (reply.RemoteAnswerSet? ==> BeingSet(p) == [])
      && (if reply.Chained? then
            && BeingSet(p) == [] && q.operations != []
            && Collect(ParseSignalingMessage, BeingSet(q)) == made && |BeingSet(q)| == |made|
          else q.operations == [] && made == [])
  {
    hide ParseSignalingMessage, SerializeSessionDescription, Flush;
    assert Without(p.operations, 0) == [];
    if ok && p.operations[0].Creating? && p.oracle.Next() {
      CreatedIsSet(p, 0, sdp);
      CollectMore(ParseSignalingMessage, [], CompleteOperation(p, 0, ok, sdp).0.operations[0].json);
    }
  }

  /** A chained operation goes on with what was created, if something was. */
  lemma ChainedMade(e: Endpoint, f: Endpoint, made: seq<Message>, more: seq<Message>)
    requires MadeFits(e, made) && e.peer.operations != [] && BeingSet(e.peer) == []
    requires DescriptionTexts(f) == DescriptionTexts(e)
    requires Collect(ParseSignalingMessage, BeingSet(f.peer)) == more && |BeingSet(f.peer)| == |more|
    ensures MadeFits(f, made + more)
  {
    hide ParseSignalingMessage, DescriptionTexts;
    assert Collect(ParseSignalingMessage, []) == [];
  }

  /** An operation that is over leaves what was created posted, or has ended the call. */
  lemma ConcludedMade(e: Endpoint, f: Endpoint, made: seq<Message>, ready: seq<Text>)
    requires MadeFits(e, made) && e.peer.operations != [] && f.peer.operations == []
    requires DescriptionTexts(f) == DescriptionTexts(e) + ready
    requires if ready == [] then f.ctl.ending.finished || BeingSet(e.peer) == [] else BeingSet(e.peer) == ready
    ensures MadeFits(f, made)
  {
    hide ParseSignalingMessage, DescriptionTexts;
    CollectAppend(ParseSignalingMessage, DescriptionTexts(e), ready);
    assert Collect(ParseSignalingMessage, []) == [];
  }

  lemma OperationMade(e: Endpoint, i: nat, ok: bool, sdp: string, made: seq<Message>)
    requires Ordered(e) && Quiescent(e) && Enabled(e, OperationDone(i, ok, sdp)) && MadeFits(e, made)
    ensures MadeFits(OnOperationDone(e, i, ok, sdp), made + NewDescription(e, OperationDone(i, ok, sdp)))
  {
    hide Ordered, Quiescent, CompleteOperation, ParseSignalingMessage, Pump, Finish, MadeFits, BeingSet, Collect,
      Begins;
    OrderedQueues(e);
    IdleHasNone(e);
    OperationSilent(e, i, ok, sdp);
    OperationMakes(e.peer, ok, sdp);
    OperationFrame(e.peer, i, ok, sdp);
    var (p, reply) := CompleteOperation(e.peer, i, ok, sdp);
    var f := e.(peer := p, ctl := SetInFlight(e.ctl, false));
    var more := NewDescription(e, OperationDone(i, ok, sdp));
    assert made + [] == made;
    match reply
    case Chained => ChainedMade(e, OnOperationDone(e, i, ok, sdp), made, more);
    case LocalDescriptionReady(json) => ConcludedMade(e, OnOperationDone(e, i, ok, sdp), made, [json]);
    case ActionFailed =>
      FinishEmpties(f, PeerConnectionError);
      ConcludedMade(e, OnOperationDone(e, i, ok, sdp), made, []);
    case RemoteAnswerSet =>
      AliveIdle(e, p);
      PumpBegins(f);
      ConcludedMade(e, f, made, []);
      PumpSilent(f);
      BegunFits(f, Pump(f), made);
  }

  lemma FinishEmpties(e: Endpoint, reason: TerminalReason)
    requires e.peer.operations == []
    ensures Finish(e, reason).peer.operations == [] && Finish(e, reason).ctl.ending.finished
  {
    hide ByeMessage;
  }

  lemma ApplyMade(e: Endpoint, ev: Event, made: seq<Message>)
    requires Ordered(e) && Quiescent(e) && Enabled(e, ev) && MadeFits(e, made)
    ensures MadeFits(Apply(e, ev), made + NewDescription(e, ev))
  {
    hide Ordered, Quiescent, MadeFits, Begins, OnOperationDone, DescriptionTexts;
    if ev.OperationDone? {
      OperationMade(e, ev.i, ev.ok, ev.sdp, made);
    } else {
      hide Apply;
      ApplyBegins(e, ev);
      BegunFits(e, Apply(e, ev), made);
      assert made + [] == made;
    }
  }

  lemma StartedMade(config: AppConfig, verdicts: nat -> bool)
    ensures MadeFits(Started(config, verdicts), [])
  {
    NothingPosted(config, verdicts);
  }

  lemma {:induction false} RunMade(config: AppConfig, verdicts: nat -> bool, events: seq<Event>)
    ensures MadeFits(Run(Started(config, verdicts), events), Created(Started(config, verdicts), events))
  {
    hide Ordered, Quiescent, Apply, Started, NewDescription, MadeFits;
    if events == [] {
      StartedMade(config, verdicts);
    } else {
      var before := events[..|events| - 1];
      RunMade(config, verdicts, before);
      RunOrdered(config, verdicts, before);
      RunQuiescent(config, verdicts, before);
      var e := Run(Started(config, verdicts), before);
      if Enabled(e, Last(events)) {
        ApplyMade(e, Last(events), Created(Started(config, verdicts), before));
      } else {
        DisabledMakes(e, Last(events));
        assert Created(Started(config, verdicts), before) + [] == Created(Started(config, verdicts), before);
      }
    }
  }

  lemma DisabledMakes(e: Endpoint, ev: Event)
    ensures !Enabled(e, ev) ==> NewDescription(e, ev) == []
  {
  }

  /** The descriptions posted, as the other peer reads them, are those that were created, in their order, each at most
      once and with the text that libwebrtc gave; none is missing except one that is being set, or was when the call
      ended. */
  lemma CreatedArePosted(config: AppConfig, verdicts: nat -> bool, events: seq<Event>)
    ensures var first := Started(config, verdicts); var e := Run(first, events);
      var posted := PostedDescriptions(e); var made := Created(first, events);
      && posted <= made && |made| <= |posted| + 1 && |posted| == |DescriptionTexts(e)|
      && (e.peer.operations == [] && !e.ctl.ending.finished ==> posted == made)
  {
    hide Started, Apply, Created, DescriptionTexts, ParseSignalingMessage;
    RunMade(config, verdicts, events);
    assert Collect(ParseSignalingMessage, []) == [];
  }
}
