/** One complete negotiation of two peers, event by event: quiet rooms exist. */
module Rehearsal {
  import opened Sequences
  import opened Common
  import opened PeerConnectionSpec
  import opened SignalingSpec
  import opened ControllerSpec
  import opened EndpointRuns
  import opened RelayTexts
  import opened TwoPeers
  import opened Convergence
  import opened Settling
  import opened Completion
  import opened Scenarios

  /** The room with one of its peers replaced. */
  function With(r: Room, initiator: bool, e: Endpoint): Room {
    if initiator then r.(caller := e) else r.(callee := e)
  }

  function AllAt(initiator: bool, events: seq<Event>): (all: seq<RoomEvent>)
    ensures |all| == |events|
  {
    if events == [] then [] else AllAt(initiator, events[..|events| - 1]) + [At(initiator, Last(events))]
  }

  /** The event does not concern the relay, but for the role it gives. */
  predicate Private(ev: Event, initiator: bool) {
    ev.Callback? || ev.OperationDone? || ev.LocalCandidate? || ev.SocketOpen?
    || (ev.Network? && (ev.outcome.JoinOutcome? ==> ev.outcome.reply == Accepted(JoinResponse(initiator, []))))
  }

  lemma PrivateStep(r: Room, initiator: bool, ev: Event)
    requires Given(r, initiator) <= |Payloads(Other(r, initiator))| && Private(ev, initiator)
    ensures RoomStep(r, At(initiator, ev)) == With(r, initiator, Step(Own(r, initiator), ev))
  {
    hide Apply, Enabled, Payloads;
    var given := Given(r, initiator);
    assert Brings(ev) == [];
    assert Payloads(Other(r, initiator))[given..given] == [];
  }

  /** A peer's private events take place in the room as they do on their own. */
  lemma {:induction false} PrivateRun(r: Room, initiator: bool, events: seq<Event>)
    requires Given(r, initiator) <= |Payloads(Other(r, initiator))|
    requires forall ev <- events :: Private(ev, initiator)
    ensures RoomRun(r, AllAt(initiator, events)) == With(r, initiator, Run(Own(r, initiator), events))
  {
    hide Step, RoomStep, Payloads, Private;
    if events != [] {
      var n := |events| - 1;
      PrivateRun(r, initiator, events[..n]);
      assert Last(events) in events;
      var all := AllAt(initiator, events);
      assert all[..|all| - 1] == AllAt(initiator, events[..n]);
      PrivateStep(With(r, initiator, Run(Own(r, initiator), events[..n])), initiator, Last(events));
    }
  }

  lemma {:induction false} RoomAppend(r: Room, before: seq<RoomEvent>, after: seq<RoomEvent>)
    ensures RoomRun(r, before + after) == RoomRun(RoomRun(r, before), after)
    decreases |after|
  {
    hide RoomStep;
    if after == [] {
      assert before + after == before;
    } else {
      var all := before + after;
      assert all[..|all| - 1] == before + after[..|after| - 1] && Last(all) == Last(after);
      RoomAppend(r, before, after[..|after| - 1]);
    }
  }

  function StoredCandidate(): Text {
    SerializeIceCandidate("candidate", "0", 0)
  }

  function CandidateMessage(): Message {
    Message(Candidate, "", "candidate", "0", 0)
  }

  /** The caller joins an empty room. */
  function CallerJoin(): JoinResponse {
    JoinResponse(true, [])
  }

  /** The callee finds the caller's messages stored, the candidate before the offer. */
  function CalleeJoin(): JoinResponse {
    JoinResponse(false, [StoredCandidate(), OfferText()])
  }

  /** The caller offers, and gathers a candidate while the offer is being set. */
  function OfferingEvents(): seq<Event> {
    [Callback, OperationDone(0, true, "offer"), LocalCandidate("candidate", "0", 0)]
  }

  function OfferSettingEvents(): seq<Event> {
    [OperationDone(0, true, ""), Network(SendOutcomeOf(Delivered)), Network(SendOutcomeOf(Delivered))]
  }

  const CANDIDATE_TASK := NetTask(3, RoomPost, ForCandidate, StoredCandidate())
  const OFFER_TASK := NetTask(4, RoomPost, ForDescription, OfferText())

  function Offering(c: AppConfig): Endpoint {
    var e := RegisterSent(c, CallerJoin());
    Endpoint(
      e.ctl.(state := Negotiating, negotiation := Negotiation(true, true, true), inbox := Inbox([], [], [])),
      Peer(Oracle(AllWell(), 3), true, [SettingLocal(SdpOffer, OfferText())],
           [CreateCall(SdpOffer), SetLocalCall(SdpOffer)], RemoteSide(false, [], [], [], false, []),
           Reports(false, false, [])),
      e.sig.(callbacks := [], delivered := [JOIN, REGISTER], network := [CANDIDATE_TASK],
             log := e.sig.log + [CANDIDATE_TASK]),
      e.thread)
  }

  function OfferOut(c: AppConfig): Endpoint {
    var e := Offering(c);
    e.(peer := e.peer.(operations := []),
       sig := e.sig.(network := [], callbacks := [Done(CANDIDATE_TASK, true), Done(OFFER_TASK, true)],
                     log := e.sig.log + [OFFER_TASK],
                     wire := [RegisterFrame, MessageFrame(StoredCandidate()), MessageFrame(OfferText())]))
  }

  /** The caller has nothing left to do but to wait for the answer. */
  function Waiting(c: AppConfig): Endpoint {
    var e := OfferOut(c);
    e.(ctl := SetInFlight(e.ctl, false),
       sig := e.sig.(callbacks := [], delivered := e.sig.delivered + [CANDIDATE_TASK, OFFER_TASK]))
  }

  lemma NothingQueued()
    ensures JoinQueue(CallerJoin()) == []
  {
    assert Collect(ParseSignalingMessage, []) == [];
  }

  lemma OfferStarted(c: AppConfig)
    requires JoinQueue(CallerJoin()) == []
    ensures var e := RegisterSent(c, CallerJoin());
      Step(e, Callback) == StartOffer(
        e.(sig := TakeCallback(e.sig), ctl := e.ctl.(negotiation := Negotiation(true, false, false))))
  {
    hide JoinQueue;
    var e := RegisterSent(c, CallerJoin());
    var t := e.(sig := TakeCallback(e.sig), ctl := e.ctl.(negotiation := Negotiation(true, false, false)));
    assert Pump(t) == Pump(Act(t)) == Act(t);
  }

  lemma OfferingReached(c: AppConfig)
    ensures Run(RegisterSent(c, CallerJoin()), OfferingEvents()) == Offering(c)
  {
    NothingQueued();
    OfferStarted(c);
    hide JoinQueue, StoredCandidate;
    var e := RegisterSent(c, CallerJoin());
    var events := OfferingEvents();
    assert SerializeSessionDescription(SdpOffer, "offer") == OfferText();
    assert SerializeIceCandidate("candidate", "0", 0) == StoredCandidate();
    hide SerializeSessionDescription, SerializeIceCandidate, OfferText;
    assert Step(Step(Step(e, events[0]), events[1]), events[2]) == Offering(c);
    RunThree(e, events[0], events[1], events[2]);
  }

  lemma OfferOutReached(c: AppConfig)
    ensures Run(Offering(c), OfferSettingEvents()) == OfferOut(c)
  {
    hide StoredCandidate, OfferText;
    RunThree(Offering(c), OfferSettingEvents()[0], OfferSettingEvents()[1], OfferSettingEvents()[2]);
  }

  lemma WaitingReached(c: AppConfig)
    ensures Run(OfferOut(c), [Callback, Callback]) == Waiting(c)
  {
    hide StoredCandidate, OfferText;
    var e := OfferOut(c);
    var f := e.(sig := TakeCallback(e.sig));
    assert Step(e, Callback) == f;
    var g := f.(sig := TakeCallback(f.sig), ctl := SetInFlight(f.ctl, false));
    assert Pump(g) == g;
    RunTwo(e, Callback, Callback);
  }

  /** Everything the caller does until its offer is out. */
  function CallerEvents(): seq<Event> {
    RegisteringEvents(CallerJoin()) + OfferingEvents() + OfferSettingEvents() + [Callback, Callback]
  }

  lemma CallerWaits(c: AppConfig)
    ensures Run(Started(c, AllWell()), CallerEvents()) == Waiting(c)
  {
    hide Started, RegisterSent, Offering, OfferOut, Waiting, RegisteringEvents, OfferingEvents, OfferSettingEvents, Run;
    var e := Started(c, AllWell());
    RegisteringReached(c, CallerJoin());
    OfferingReached(c);
    OfferOutReached(c);
    WaitingReached(c);
    RunAppend(e, RegisteringEvents(CallerJoin()), OfferingEvents());
    RunAppend(e, RegisteringEvents(CallerJoin()) + OfferingEvents(), OfferSettingEvents());
    RunAppend(e, RegisteringEvents(CallerJoin()) + OfferingEvents() + OfferSettingEvents(), [Callback, Callback]);
  }

  lemma MessagesAreRead()
    ensures ParseSignalingMessage(StoredCandidate()) == Some(CandidateMessage())
    ensures ParseSignalingMessage(OfferText()) == Some(OfferMessage())
  {
    SerializedTextsParse(SdpOffer, "offer", "candidate", "0", 0);
  }

  /** The stored offer is put before the stored candidate. */
  lemma OfferComesFirst()
    ensures JoinQueue(CalleeJoin()) == [OfferMessage()] + [CandidateMessage()]
  {
    MessagesAreRead();
    hide ParseSignalingMessage, OfferText, StoredCandidate;
    var texts := [StoredCandidate(), OfferText()];
    var ms := [CandidateMessage(), OfferMessage()];
    assert texts[1..] == [OfferText()] && texts[1..][1..] == [];
    assert Collect(ParseSignalingMessage, texts[1..][1..]) == [];
    assert Collect(ParseSignalingMessage, texts[1..]) == [OfferMessage()];
    assert Collect(ParseSignalingMessage, texts) == ms;
    assert ms[1..] == [OfferMessage()] && ms[1..][1..] == [];
    assert OfPriority(0, ms) == [OfferMessage()] && OfPriority(1, ms) == [CandidateMessage()];
    assert OfPriority(2, ms) == [] && OfPriority(3, ms) == [];
  }

  /** The callee posts its answer, and then turns to the candidate. */
  function AnswerPostingEvents(): seq<Event> {
    [OperationDone(0, true, ""), Network(SendOutcomeOf(Delivered)), Callback]
  }

  function AnswerDone(c: AppConfig): Endpoint {
    var e := Answering(c, CalleeJoin(), OfferMessage(), [CandidateMessage()]);
    e.(ctl := SetInFlight(e.ctl, false).(inbox := Inbox([], [], [OfferMessage(), CandidateMessage()])),
       peer := e.peer.(operations := [], oracle := Oracle(AllWell(), 6),
                       remote := RemoteSide(true, [], [CandidateMessage()], [CandidateMessage()], false,
                                            [OfferMessage()])),
       sig := e.sig.(log := e.sig.log + [AnswerTask(CalleeJoin())],
                     delivered := e.sig.delivered + [AnswerTask(CalleeJoin())],
                     wire := [RegisterFrame, MessageFrame(AnswerText())]))
  }

  lemma AnswerDoneReached(c: AppConfig)
    ensures Run(Answering(c, CalleeJoin(), OfferMessage(), [CandidateMessage()]), AnswerPostingEvents())
         == AnswerDone(c)
  {
    hide JoinQueue, AnswerText, StoredCandidate, OfferText;
    var e := Answering(c, CalleeJoin(), OfferMessage(), [CandidateMessage()]);
    var events := AnswerPostingEvents();
    AnswerOutReached(c);
    CandidateTaken(AnswerOut(c), AnswerTask(CalleeJoin()));
    hide Answering, Step;
    RunThree(e, events[0], events[1], events[2]);
  }

  function AnswerOut(c: AppConfig): Endpoint {
    var e := Answering(c, CalleeJoin(), OfferMessage(), [CandidateMessage()]);
    var task := AnswerTask(CalleeJoin());
    e.(peer := e.peer.(operations := []),
       sig := e.sig.(callbacks := [Done(task, true)], log := e.sig.log + [task],
                     wire := [RegisterFrame, MessageFrame(AnswerText())]))
  }

  lemma AnswerOutReached(c: AppConfig)
    ensures var e := Answering(c, CalleeJoin(), OfferMessage(), [CandidateMessage()]);
      Step(Step(e, AnswerPostingEvents()[0]), AnswerPostingEvents()[1]) == AnswerOut(c)
  {
    hide JoinQueue, AnswerText, StoredCandidate, OfferText;
  }

  /** The answer is out, and the pump goes on to the candidate, which needs no buffer any more. */
  lemma CandidateTaken(e: Endpoint, task: NetTask)
    requires e.sig.callbacks == [Done(task, true)] && task.purpose.ForDescription? && !e.thread.quit
    requires e.ctl.inbox.pending == [CandidateMessage()] && e.peer.remote.descriptionSet
    requires !e.ctl.ending.finished && e.ctl.negotiation.ready && e.ctl.joinResponse.Some? && !Initiator(e)
    requires e.peer.oracle.Next() && e.peer.oracle.Rest().Next()
    ensures var r := e.peer.remote; var inbox := e.ctl.inbox;
      Step(e, Callback) == e.(
        ctl := SetInFlight(e.ctl, false).(
          inbox := inbox.(pending := [], dispatched := inbox.dispatched + [CandidateMessage()])),
        peer := e.peer.(oracle := e.peer.oracle.Rest().Rest(),
                        remote := r.(offered := r.offered + [CandidateMessage()],
                                     applied := r.applied + [CandidateMessage()])),
        sig := TakeCallback(e.sig))
  {
    var t := e.(sig := TakeCallback(e.sig), ctl := SetInFlight(e.ctl, false));
    assert Pump(t) == Pump(Act(t)) == Act(t);
  }

  /** The callee's first event, and everything after it. */
  function CalleeFirst(): Event {
    Network(JoinOutcome(Accepted(CalleeJoin())))
  }

  function CalleeRest(): seq<Event> {
    RegisteringEvents(CalleeJoin())[1..] + AnsweringEvents() + AnswerPostingEvents()
  }

  lemma CalleeAnswers(c: AppConfig)
    ensures Run(Step(Started(c, AllWell()), CalleeFirst()), CalleeRest()) == AnswerDone(c)
  {
    hide Started, Step, RegisterSent, Answering, AnswerDone, AnsweringEvents, AnswerPostingEvents, Run, JoinQueue,
      CalleeJoin;
    var e := Started(c, AllWell());
    var r := CalleeJoin();
    var joining := RegisteringEvents(r);
    OfferComesFirst();
    RegisteringReached(c, r);
    AnsweringReached(c, r, OfferMessage(), [CandidateMessage()]);
    AnswerDoneReached(c);
    RunAppend(e, joining, AnsweringEvents());
    RunAppend(e, joining + AnsweringEvents(), AnswerPostingEvents());
    RunOne(e, CalleeFirst());
    assert joining + AnsweringEvents() + AnswerPostingEvents() == [CalleeFirst()] + CalleeRest();
    RunAppend(e, [CalleeFirst()], CalleeRest());
  }

  function AnswerMessage(): Message {
    Message(Answer, "answer", "", "", 0)
  }

  /** The answer reaches the caller, which sets it. */
  function Concluded(c: AppConfig): Endpoint {
    var e := Waiting(c);
    e.(ctl := e.ctl.(inbox := Inbox([], [AnswerMessage()], [AnswerMessage()])),
       peer := Peer(Oracle(AllWell(), 4), true, [],
                    [CreateCall(SdpOffer), SetLocalCall(SdpOffer), SetRemoteCall(SdpAnswer)],
                    RemoteSide(true, [], [], [], false, [AnswerMessage()]), Reports(false, false, [])),
       sig := e.sig.(heard := [AnswerText()]))
  }

  /** The answer has been handed to the connection. */
  function AnswerTaken(c: AppConfig): Endpoint {
    var e := Concluded(c);
    e.(ctl := SetInFlight(e.ctl, true),
       peer := e.peer.(operations := [SettingRemote(SdpAnswer)], remote := e.peer.remote.(descriptionSet := false)))
  }

  lemma AnswerTakenReached(c: AppConfig)
    requires ParseSignalingMessage(AnswerText()) == Some(AnswerMessage())
    ensures Step(Step(Waiting(c), SocketMessage(Payload(AnswerText()))), Callback) == AnswerTaken(c)
  {
    hide JoinQueue, AnswerText, StoredCandidate, OfferText, ParseSignalingMessage;
    var e := Waiting(c);
    var f := Step(e, SocketMessage(Payload(AnswerText())));
    assert f == e.(sig := e.sig.(heard := [AnswerText()], callbacks := [Inbound(AnswerMessage())]));
    var g := Enqueued(f.(sig := TakeCallback(f.sig)), AnswerMessage());
    assert g.ctl.inbox.pending == [AnswerMessage()];
    assert Pump(g) == Pump(Act(g)) == Act(g);
  }

  lemma ConcludedReached(c: AppConfig)
    ensures Run(Step(Waiting(c), SocketMessage(Payload(AnswerText()))), [Callback, OperationDone(0, true, "")])
         == Concluded(c)
  {
    SerializedTextsParse(SdpAnswer, "answer", "", "", 0);
    assert ParseSignalingMessage(AnswerText()) == Some(AnswerMessage());
    hide JoinQueue, AnswerText, StoredCandidate, OfferText, ParseSignalingMessage;
    AnswerTakenReached(c);
    assert Step(AnswerTaken(c), OperationDone(0, true, "")) == Concluded(c);
    hide Step, Waiting, AnswerTaken;
    RunTwo(Step(Waiting(c), SocketMessage(Payload(AnswerText()))), Callback, OperationDone(0, true, ""));
  }

  /** The whole exchange. */
  function RoomEvents(): seq<RoomEvent> {
    AllAt(true, CallerEvents()) + [AtCallee(CalleeFirst())] + AllAt(false, CalleeRest())
    + [AtCaller(SocketMessage(Payload(AnswerText())))] + AllAt(true, [Callback, OperationDone(0, true, "")])
  }

  lemma EmptyWires(c1: AppConfig, c2: AppConfig)
    ensures Payloads(Started(c1, AllWell())) == [] && Payloads(Started(c2, AllWell())) == []
  {
  }

  lemma CallerWire(c: AppConfig)
    ensures Payloads(Waiting(c)) == [StoredCandidate(), OfferText()] == Payloads(Concluded(c))
  {
    hide StoredCandidate, OfferText;
    var wire := [RegisterFrame, MessageFrame(StoredCandidate()), MessageFrame(OfferText())];
    assert wire[1..] == [MessageFrame(StoredCandidate()), MessageFrame(OfferText())];
    assert wire[1..][1..] == [MessageFrame(OfferText())] && wire[1..][1..][1..] == [];
    assert Collect(PayloadOf, wire[1..][1..][1..]) == [];
    assert Collect(PayloadOf, wire[1..][1..]) == [OfferText()];
    assert Collect(PayloadOf, wire[1..]) == [StoredCandidate(), OfferText()];
  }

  lemma CalleeWire(c: AppConfig)
    ensures Payloads(AnswerDone(c)) == [AnswerText()]
  {
    hide AnswerText;
    var wire := [RegisterFrame, MessageFrame(AnswerText())];
    assert wire[1..] == [MessageFrame(AnswerText())] && wire[1..][1..] == [];
    assert Collect(PayloadOf, wire[1..][1..]) == [];
    assert Collect(PayloadOf, wire[1..]) == [AnswerText()];
  }

  lemma PrivateEvents()
    ensures forall ev <- CallerEvents() :: Private(ev, true)
    ensures forall ev <- CalleeRest() :: Private(ev, false)
  {
    hide StoredCandidate, OfferText;
  }

  /** Quiet rooms exist: for any two configurations this exchange ends in one, with the candidate applied. */
  lemma QuietRoomExists(c1: AppConfig, c2: AppConfig)
    ensures var r := RoomRun(NewRoom(c1, AllWell(), c2, AllWell()), RoomEvents());
      QuietRoom(r) && r.callee.peer.remote.applied == [CandidateMessage()]
  {
    hide Started, Waiting, AnswerDone, Concluded, CallerEvents, CalleeRest, StoredCandidate, OfferText, AnswerText,
      Private, RoomStep, Step, Payloads, RoomRun, QuietRoom, CalleeFirst;
    var r0 := NewRoom(c1, AllWell(), c2, AllWell());
    EmptyWires(c1, c2);
    PrivateEvents();
    CallerWaits(c1);
    PrivateRun(r0, true, CallerEvents());
    var r1 := Room(Waiting(c1), Started(c2, AllWell()), 0, 0);
    CallerWire(c1);
    CalleeWire(c2);
    CalleeJoins(c1, c2);
    var r2 := Room(Waiting(c1), Step(Started(c2, AllWell()), CalleeFirst()), 0, 2);
    CalleeAnswers(c2);
    PrivateRun(r2, false, CalleeRest());
    var r3 := Room(Waiting(c1), AnswerDone(c2), 0, 2);
    CallerHears(c1, c2);
    var r4 := Room(Step(Waiting(c1), SocketMessage(Payload(AnswerText()))), AnswerDone(c2), 1, 2);
    ConcludedReached(c1);
    PrivateEnd();
    PrivateRun(r4, true, [Callback, OperationDone(0, true, "")]);
    RoomChain(r0, r1, r2, r3, r4);
    ConclusionIsQuiet(c1, c2);
  }

  lemma PrivateEnd()
    ensures forall ev <- [Callback, OperationDone(0, true, "")] :: Private(ev, true)
  {
  }

  lemma CalleeJoins(c1: AppConfig, c2: AppConfig)
    requires Payloads(Waiting(c1)) == [StoredCandidate(), OfferText()]
    ensures RoomStep(Room(Waiting(c1), Started(c2, AllWell()), 0, 0), AtCallee(CalleeFirst()))
         == Room(Waiting(c1), Step(Started(c2, AllWell()), CalleeFirst()), 0, 2)
  {
    hide Payloads, Waiting, StoredCandidate, OfferText, Apply;
    assert [StoredCandidate(), OfferText()][0..2] == [StoredCandidate(), OfferText()];
  }

  lemma CallerHears(c1: AppConfig, c2: AppConfig)
    requires Payloads(AnswerDone(c2)) == [AnswerText()]
    ensures var ev := SocketMessage(Payload(AnswerText()));
      RoomStep(Room(Waiting(c1), AnswerDone(c2), 0, 2), AtCaller(ev))
        == Room(Step(Waiting(c1), ev), AnswerDone(c2), 1, 2)
  {
    hide Payloads, AnswerDone, AnswerText, StoredCandidate, OfferText, Apply;
    assert [AnswerText()][0..1] == [AnswerText()];
  }

  lemma RoomOne(r: Room, rev: RoomEvent)
    ensures RoomRun(r, [rev]) == RoomStep(r, rev)
  {
    hide RoomStep;
    assert [rev][..0] == [];
    assert RoomRun(r, []) == r;
  }

  lemma RoomChain(r0: Room, r1: Room, r2: Room, r3: Room, r4: Room)
    requires RoomRun(r0, AllAt(true, CallerEvents())) == r1
    requires RoomStep(r1, AtCallee(CalleeFirst())) == r2
    requires RoomRun(r2, AllAt(false, CalleeRest())) == r3
    requires RoomStep(r3, AtCaller(SocketMessage(Payload(AnswerText())))) == r4
    ensures RoomRun(r0, RoomEvents()) == RoomRun(r4, AllAt(true, [Callback, OperationDone(0, true, "")]))
  {
    hide RoomStep, RoomRun, CallerEvents, CalleeRest, CalleeFirst, AnswerText, AllAt;
    var a := AllAt(true, CallerEvents());
    var b := [AtCallee(CalleeFirst())];
    var c := AllAt(false, CalleeRest());
    var d := [AtCaller(SocketMessage(Payload(AnswerText())))];
    var e := AllAt(true, [Callback, OperationDone(0, true, "")]);
    RoomAppend(r0, a, b);
    RoomOne(r1, b[0]);
    RoomAppend(r0, a + b, c);
    RoomAppend(r0, a + b + c, d);
    RoomOne(r3, d[0]);
    RoomAppend(r0, a + b + c + d, e);
  }

  lemma ConclusionIsQuiet(c1: AppConfig, c2: AppConfig)
    ensures var r := Room(Concluded(c1), AnswerDone(c2), 1, 2);
      QuietRoom(r) && r.callee.peer.remote.applied == [CandidateMessage()]
  {
    CallerWire(c1);
    CalleeWire(c2);
    hide Payloads, AnswerText, StoredCandidate, OfferText, JoinQueue;
  }

  /** Both peers join an empty room, open their sockets and register. */
  function MeetingEvents(): seq<RoomEvent> {
    AllAt(true, RegisteringEvents(JoinResponse(true, []))) + AllAt(false, RegisteringEvents(JoinResponse(false, [])))
  }

  lemma RegisteringIsPrivate(initiator: bool)
    ensures forall ev <- RegisteringEvents(JoinResponse(initiator, [])) :: Private(ev, initiator)
  {
  }

  lemma NoPayloads(c: AppConfig, r: JoinResponse)
    ensures Payloads(RegisterSent(c, r)) == []
  {
    hide JoinQueue;
    assert [RegisterFrame][1..] == [];
    assert Collect(PayloadOf, [RegisterFrame][1..]) == [];
  }

  /** Smooth rooms exist, with the whole negotiation still to be made: so it is when both have registered. */
  lemma SmoothRoomExists(c1: AppConfig, c2: AppConfig)
    ensures var r := RoomRun(NewRoom(c1, AllWell(), c2, AllWell()), MeetingEvents());
      SmoothRoom(r) && r.caller.peer.calls == [] && r.callee.peer.calls == []
  {
    hide Started, RegisteringEvents, Private, RoomStep, Step, Payloads, RoomRun, JoinQueue;
    var r0 := NewRoom(c1, AllWell(), c2, AllWell());
    var join := JoinResponse(true, []);
    var other := JoinResponse(false, []);
    EmptyWires(c1, c2);
    RegisteringIsPrivate(true);
    RegisteringIsPrivate(false);
    RegisteringReached(c1, join);
    RegisteringReached(c2, other);
    PrivateRun(r0, true, RegisteringEvents(join));
    var r1 := Room(RegisterSent(c1, join), Started(c2, AllWell()), 0, 0);
    NoPayloads(c1, join);
    PrivateRun(r1, false, RegisteringEvents(other));
    RoomAppend(r0, AllAt(true, RegisteringEvents(join)), AllAt(false, RegisteringEvents(other)));
  }
}
