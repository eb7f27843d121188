/** Concrete runs: what the theorems describe does happen. */
module Scenarios {
  import opened Sequences
  import opened Common
  import opened PeerConnectionSpec
  import opened SignalingSpec
  import opened ControllerSpec
  import opened EndpointRuns
  import opened LastDescription

  const JOIN := NetTask(0, JoinRoom, ForJoin, Malformed)
  const CONNECT := NetTask(1, ConnectWebSocket, NoReply, Malformed)
  const REGISTER := NetTask(2, RegisterClient, ForRegister, Malformed)

  /** libwebrtc never refuses anything. */
  function AllWell(): nat -> bool {
    (n: nat) => true
  }

  /** From the start to the answer of the registration, everything going well. */
  function RegisteringEvents(r: JoinResponse): seq<Event> {
    [Network(JoinOutcome(Accepted(r))), Callback, Network(Completed), SocketOpen, Callback,
     Network(SendOutcomeOf(Delivered))]
  }

  /** The state then: the answer to the registration waits for the callback thread. */
  function RegisterSent(c: AppConfig, r: JoinResponse): Endpoint {
    Endpoint(
      Controller(c, Some(r), CallState.Registering, Negotiation(false, false, false), Inbox(JoinQueue(r), [], []),
                 CallMedia(false, false, false, 0), Generations(1, 0), Ending(false, RuntimeFailed, [], 0, 0)),
      Peer(Oracle(AllWell(), 2), true, [], [], RemoteSide(false, [], [], [], false, []), Reports(false, false, [])),
      Signaling([], [Done(REGISTER, true)], Link(true, false, Up), [JOIN, CONNECT, REGISTER], [JOIN], [RegisterFrame],
                r.messages, []),
      SignalingThread(0, [Timer(StartupTimer, 1, Seconds(c.timeoutSeconds))], false))
  }

  /** Half-way there: the connect task has run. */
  function Connecting(c: AppConfig, r: JoinResponse): Endpoint {
    var e := RegisterSent(c, r);
    e.(ctl := e.ctl.(state := ConnectingSocket),
       sig := e.sig.(callbacks := [], link := Link(false, false, Down), log := [JOIN, CONNECT], wire := []))
  }

  lemma ConnectingReached(c: AppConfig, r: JoinResponse)
    ensures var events := RegisteringEvents(r);
      Step(Step(Step(Started(c, AllWell()), events[0]), events[1]), events[2]) == Connecting(c, r)
  {
    hide JoinQueue;
  }

  lemma RegisteringReached(c: AppConfig, r: JoinResponse)
    ensures Run(Started(c, AllWell()), RegisteringEvents(r)) == RegisterSent(c, r)
  {
    hide JoinQueue, Started;
    var e0 := Started(c, AllWell());
    var events := RegisteringEvents(r);
    var e3 := Connecting(c, r);
    ConnectingReached(c, r);
    assert Step(Step(Step(e3, events[3]), events[4]), events[5]) == RegisterSent(c, r);
    assert events == [events[0], events[1], events[2]] + [events[3], events[4], events[5]];
    RunThree(e0, events[0], events[1], events[2]);
    RunThree(e3, events[3], events[4], events[5]);
    RunAppend(e0, [events[0], events[1], events[2]], [events[3], events[4], events[5]]);
  }

  /** The own answer, written. */
  function AnswerText(): Text {
    SerializeSessionDescription(SdpAnswer, "answer")
  }

  /** A peer that found an offer stored in the room makes an answer and is setting it. */
  function AnsweringEvents(): seq<Event> {
    [Callback, OperationDone(0, true, ""), OperationDone(0, true, "answer")]
  }

  /** The state then, with the messages `more` that were stored behind the offer. */
  function Answering(c: AppConfig, r: JoinResponse, offer: Message, more: seq<Message>): Endpoint {
    var e := RegisterSent(c, r);
    Endpoint(
      e.ctl.(state := Negotiating, negotiation := Negotiation(true, true, false), inbox := Inbox(more, [], [offer])),
      Peer(Oracle(AllWell(), 4), true, [SettingLocal(SdpAnswer, AnswerText())],
           [SetRemoteCall(SdpOffer), CreateCall(SdpAnswer), SetLocalCall(SdpAnswer)],
           RemoteSide(true, [], [], [], false, [offer]), Reports(false, false, [])),
      e.sig.(callbacks := [], delivered := [JOIN, REGISTER]),
      e.thread)
  }

  /** The pump has handed the stored offer to the connection. */
  function OfferTaken(c: AppConfig, r: JoinResponse, offer: Message, more: seq<Message>): Endpoint {
    var e := Answering(c, r, offer, more);
    e.(peer := Peer(Oracle(AllWell(), 3), true, [SettingRemote(SdpOffer)], [SetRemoteCall(SdpOffer)],
                    RemoteSide(false, [], [], [], false, [offer]), Reports(false, false, [])))
  }

  lemma OfferTakenReached(c: AppConfig, r: JoinResponse, offer: Message, more: seq<Message>)
    requires JoinQueue(r) == [offer] + more && offer.kind.Offer?
    ensures Step(RegisterSent(c, r), Callback) == OfferTaken(c, r, offer, more)
  {
    hide JoinQueue, AnswerText;
    var e := RegisterSent(c, r);
    var t := e.(sig := TakeCallback(e.sig), ctl := e.ctl.(negotiation := Negotiation(true, false, false)));
    assert ([offer] + more)[1..] == more;
    assert Act(t) == OfferTaken(c, r, offer, more);
    assert Pump(t) == Pump(Act(t)) == Act(t);
  }

  lemma AnsweringReached(c: AppConfig, r: JoinResponse, offer: Message, more: seq<Message>)
    requires JoinQueue(r) == [offer] + more && offer.kind.Offer?
    ensures Run(RegisterSent(c, r), AnsweringEvents()) == Answering(c, r, offer, more)
  {
    hide JoinQueue, SerializeSessionDescription;
    var e := OfferTaken(c, r, offer, more);
    OfferTakenReached(c, r, offer, more);
    var events := AnsweringEvents();
    assert Step(Step(e, events[1]), events[2]) == Answering(c, r, offer, more);
    RunThree(RegisterSent(c, r), events[0], events[1], events[2]);
  }

  /** The connection comes up and the first frame arrives while the answer is still being set; then it is posted. */
  function EstablishingEvents(): seq<Event> {
    [ConnectionChange(Connected), VideoFrame]
  }

  function PostingEvents(): seq<Event> {
    [OperationDone(0, true, ""), Network(SendOutcomeOf(Delivered))]
  }

  function Established(c: AppConfig, r: JoinResponse, offer: Message): Endpoint {
    var e := Answering(c, r, offer, []);
    e.(ctl := e.ctl.(state := InCall, media := CallMedia(true, true, true, 0), generations := Generations(2, 1)),
       peer := e.peer.(reports := Reports(true, true, [StateSeen(Connected), FrameSeen])),
       thread := e.thread.(timers := e.thread.timers + [Timer(DurationTimer, 1, Seconds(c.callDurationSeconds))]))
  }

  lemma EstablishedReached(c: AppConfig, r: JoinResponse, offer: Message)
    ensures Run(Answering(c, r, offer, []), EstablishingEvents()) == Established(c, r, offer)
  {
    hide JoinQueue, AnswerText;
    RunTwo(Answering(c, r, offer, []), ConnectionChange(Connected), VideoFrame);
  }

  /** The request that posts the answer. */
  function AnswerTask(r: JoinResponse): NetTask {
    NetTask(3, if r.isInitiator then RoomPost else SocketSend, ForDescription, AnswerText())
  }

  function AnswerPosted(c: AppConfig, r: JoinResponse, offer: Message): Endpoint {
    var e := Established(c, r, offer);
    e.(peer := e.peer.(operations := []),
       sig := e.sig.(callbacks := [Done(AnswerTask(r), true)], log := e.sig.log + [AnswerTask(r)],
                     wire := e.sig.wire + [MessageFrame(AnswerText())]))
  }

  lemma AnswerPostedReached(c: AppConfig, r: JoinResponse, offer: Message)
    ensures Run(Established(c, r, offer), PostingEvents()) == AnswerPosted(c, r, offer)
  {
    hide JoinQueue, AnswerText;
    RunTwo(Established(c, r, offer), PostingEvents()[0], PostingEvents()[1]);
  }

  /** The first thirteen events of both ways back from connected to negotiating. */
  function ConnectedEvents(r: JoinResponse): seq<Event> {
    RegisteringEvents(r) + AnsweringEvents() + EstablishingEvents() + PostingEvents()
  }

  lemma ConnectedReached(c: AppConfig, r: JoinResponse, offer: Message)
    requires JoinQueue(r) == [offer] && offer.kind.Offer?
    ensures Run(Started(c, AllWell()), ConnectedEvents(r)) == AnswerPosted(c, r, offer)
  {
    hide JoinQueue, Started, RegisterSent, Answering, Established, AnswerPosted, RegisteringEvents, AnsweringEvents,
      EstablishingEvents, PostingEvents, Run;
    var e := Started(c, AllWell());
    RegisteringReached(c, r);
    AnsweringReached(c, r, offer, []);
    EstablishedReached(c, r, offer);
    AnswerPostedReached(c, r, offer);
    RunAppend(e, RegisteringEvents(r), AnsweringEvents());
    RunAppend(e, RegisteringEvents(r) + AnsweringEvents(), EstablishingEvents());
    RunAppend(e, RegisteringEvents(r) + AnsweringEvents() + EstablishingEvents(), PostingEvents());
  }

  function OfferText(): Text {
    SerializeSessionDescription(SdpOffer, "offer")
  }

  function OfferMessage(): Message {
    Message(Offer, "offer", "", "", 0)
  }

  lemma OfferIsRead()
    ensures ParseSignalingMessage(OfferText()) == Some(OfferMessage())
  {
    SerializedTextsParse(SdpOffer, "offer", "", "", 0);
  }

  lemma OfferIsQueued(initiator: bool)
    ensures JoinQueue(JoinResponse(initiator, [OfferText()])) == [OfferMessage()]
  {
    OfferIsRead();
    hide ParseSignalingMessage, OfferText;
    var ms := [OfferMessage()];
    assert Collect(ParseSignalingMessage, [OfferText()][1..]) == [];
    assert Collect(ParseSignalingMessage, [OfferText()]) == ms;
    assert OfPriority(0, ms) == ms;
    assert OfPriority(1, ms) == [] && OfPriority(2, ms) == [] && OfPriority(3, ms) == [];
  }

  /** One way back, for any configuration: an initiator that finds an offer stored in the room answers it, is
      connected meanwhile, and once its answer is posted starts the offer it still owes. Fourteen events, and no
      message is received or dispatched after the connected phase began. */
  lemma OwnOfferStepsBack(c: AppConfig)
    ensures var e := Run(Started(c, AllWell()), ConnectedEvents(JoinResponse(true, [OfferText()])));
      && e.ctl.state.InCall? && Enabled(e, Callback)
      && Step(e, Callback).ctl.state.Negotiating? && Step(e, Callback).ctl.inbox == e.ctl.inbox
      && !Step(e, Callback).ctl.ending.finished
  {
    hide Started, JoinQueue, OfferText, AnswerText, ConnectedEvents;
    var r := JoinResponse(true, [OfferText()]);
    OfferIsQueued(true);
    ConnectedReached(c, r, OfferMessage());
    var e := AnswerPosted(c, r, OfferMessage());
    var t := e.(sig := TakeCallback(e.sig), ctl := SetInFlight(e.ctl, false));
    assert Pump(t) == Pump(Act(t)) == Act(t);
  }

  /** The other way, for any configuration: the callee is connected, and a second offer comes in. */
  lemma LateOfferStepsBack(c: AppConfig)
    ensures var r := JoinResponse(false, [OfferText()]);
      var e := Run(Started(c, AllWell()), ConnectedEvents(r) + [Callback, SocketMessage(Payload(OfferText()))]);
      && e.ctl.state.InCall? && Enabled(e, Callback)
      && Step(e, Callback).ctl.state.Negotiating? && !Step(e, Callback).ctl.ending.finished
  {
    hide Started, JoinQueue, OfferText, AnswerText, ConnectedEvents;
    var r := JoinResponse(false, [OfferText()]);
    OfferIsRead();
    OfferIsQueued(false);
    ConnectedReached(c, r, OfferMessage());
    var e := AnswerPosted(c, r, OfferMessage());
    RunAppend(Started(c, AllWell()), ConnectedEvents(r), [Callback, SocketMessage(Payload(OfferText()))]);
    RunTwo(e, Callback, SocketMessage(Payload(OfferText())));
    SecondOffer(c, r);
  }

  lemma SecondOffer(c: AppConfig, r: JoinResponse)
    requires !r.isInitiator && ParseSignalingMessage(OfferText()) == Some(OfferMessage())
    ensures var e := Step(Step(AnswerPosted(c, r, OfferMessage()), Callback), SocketMessage(Payload(OfferText())));
      && e.ctl.state.InCall? && Enabled(e, Callback)
      && Step(e, Callback).ctl.state.Negotiating? && !Step(e, Callback).ctl.ending.finished
  {
    hide JoinQueue, OfferText, AnswerText, ParseSignalingMessage;
    var e := AnswerPosted(c, r, OfferMessage());
    var t := e.(sig := TakeCallback(e.sig), ctl := SetInFlight(e.ctl, false));
    assert Step(e, Callback) == t;
    var f := Step(t, SocketMessage(Payload(OfferText())));
    assert f.sig.callbacks == [Inbound(OfferMessage())] && f.ctl == t.ctl && f.peer == t.peer;
    var g := Enqueued(f.(sig := TakeCallback(f.sig)), OfferMessage());
    assert g.ctl.inbox.pending == [OfferMessage()];
    assert Pump(g) == Pump(Act(g)) == Act(g);
  }

  /** The call duration elapses while the answer is still being set. */
  function ElapsingEvents(c: AppConfig): seq<Event> {
    [ClockAdvances(Seconds(c.callDurationSeconds)), TimerFires(1)]
  }

  lemma EndsWhileSetting(c: AppConfig, r: JoinResponse, offer: Message)
    requires ValidateConfig(c).None?
    ensures var e := Run(Established(c, r, offer), ElapsingEvents(c));
      e.ctl.ending.finished && e.ctl.ending.attempts == [LocalDurationReached] && MayStillPost(e)
  {
    hide JoinQueue, AnswerText, ByeMessage;
    var to := Seconds(c.callDurationSeconds);
    var e := Established(c, r, offer);
    var f := e.(thread := e.thread.(now := to));
    RunTwo(e, ClockAdvances(to), TimerFires(1));
    assert Step(e, ClockAdvances(to)) == f;
    assert Step(f, TimerFires(1)) == OnTimer(f, 1);
  }

  /** For every validated configuration there is a run in which the call ends, and its answer goes out afterwards. */
  lemma AnswerAfterTheEnd(c: AppConfig)
    requires ValidateConfig(c).None?
    ensures var r := JoinResponse(true, [OfferText()]);
      var before := RegisteringEvents(r) + AnsweringEvents() + EstablishingEvents() + ElapsingEvents(c);
      var e := Run(Started(c, AllWell()), before);
      var f := Run(Started(c, AllWell()), before + LastWords(e));
      && e.ctl.ending.finished && DescriptionsPosted(f) == DescriptionsPosted(e) + 1
  {
    hide Started, JoinQueue, OfferText, AnswerText, RegisteringEvents, AnsweringEvents, EstablishingEvents,
      ElapsingEvents, RegisterSent, Answering, Established, Run, MayStillPost, DescriptionsPosted, LastWords,
      ValidateConfig;
    var r := JoinResponse(true, [OfferText()]);
    var first := Started(c, AllWell());
    OfferIsQueued(true);
    RegisteringReached(c, r);
    AnsweringReached(c, r, OfferMessage(), []);
    EstablishedReached(c, r, OfferMessage());
    EndsWhileSetting(c, r, OfferMessage());
    RunAppend(first, RegisteringEvents(r), AnsweringEvents());
    RunAppend(first, RegisteringEvents(r) + AnsweringEvents(), EstablishingEvents());
    RunAppend(first, RegisteringEvents(r) + AnsweringEvents() + EstablishingEvents(), ElapsingEvents(c));
    DescriptionAfterEnd(c, AllWell(),
                        RegisteringEvents(r) + AnsweringEvents() + EstablishingEvents() + ElapsingEvents(c));
  }

  /** The socket fails while the stored offer is being set: the call quits with the in-flight flag up, and no
      continuation outstanding that could lower it. */
  lemma FlagLeftUp(c: AppConfig)
    ensures var r := JoinResponse(true, [OfferText()]);
      var e := Run(Started(c, AllWell()), RegisteringEvents(r) + [Callback, SocketError, Callback]);
      e.thread.quit && e.ctl.negotiation.inFlight && e.peer.operations == []
  {
    hide Started, JoinQueue, OfferText, AnswerText, RegisteringEvents;
    var r := JoinResponse(true, [OfferText()]);
    OfferIsQueued(true);
    RegisteringReached(c, r);
    OfferTakenReached(c, r, OfferMessage(), []);
    RunAppend(Started(c, AllWell()), RegisteringEvents(r), [Callback, SocketError, Callback]);
    RunThree(RegisterSent(c, r), Callback, SocketError, Callback);
    SocketFailure(OfferTaken(c, r, OfferMessage(), []));
  }

  lemma SocketFailure(e: Endpoint)
    requires !e.thread.quit && !e.ctl.ending.finished && e.sig.callbacks == [] && e.sig.link.socket.Up?
    ensures var f := Step(Step(e, SocketError), Callback);
      f.thread.quit && f.ctl.negotiation == e.ctl.negotiation && f.peer.operations == []
  {
  }
}
