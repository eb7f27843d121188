/** Two peers in one room, joined by a relay that loses nothing, repeats nothing and keeps each sender's order. */
module TwoPeers {
  import opened Sequences
  import opened Common
  import opened SignalingSpec
  import opened ControllerSpec
  import opened JoinOrder
  import opened EndpointRuns
  import opened Lifecycle
  import opened Queues
  import opened Effects
  import opened WireOrder
  import opened Flight
  import opened Messages
  import opened NegotiationScript
  import opened Progress
  import opened RelayTexts

  /** The two peers, and how many of the other's messages the relay has handed to each. */
  datatype Room = Room(caller: Endpoint, callee: Endpoint, toCaller: nat, toCallee: nat)

  datatype RoomEvent = AtCaller(ev: Event) | AtCallee(ev: Event)

  /** The messages that a peer has got as far as the relay. */
  function Payloads(e: Endpoint): seq<Text> {
    Collect(PayloadOf, e.sig.wire)
  }

  /** The messages an event hands to a peer: the stored ones with the join, then one by one on the socket. */
  function Brings(ev: Event): seq<Text> {
    match ev
    case Network(JoinOutcome(Accepted(r))) => r.messages
    case SocketMessage(Payload(text)) => [text]
    case _ => []
  }

  /** The relay gives the roles, and hands over the next messages of the other peer, whatever their number. */
  predicate RelayAllows(other: Endpoint, given: nat, initiator: bool, ev: Event) {
    var next := Brings(ev);
    && given + |next| <= |Payloads(other)| && Payloads(other)[given..given + |next|] == next
    && (ev.Network? && ev.outcome.Response().Some? ==>
          ev.outcome.Response().value.isInitiator == initiator)
  }

  function RoomStep(r: Room, rev: RoomEvent): Room {
    match rev
    case AtCaller(ev) =>
      if Enabled(r.caller, ev) && RelayAllows(r.callee, r.toCaller, true, ev)
      then r.(caller := Apply(r.caller, ev), toCaller := r.toCaller + |Brings(ev)|)
      else r
    case AtCallee(ev) =>
      if Enabled(r.callee, ev) && RelayAllows(r.caller, r.toCallee, false, ev)
      then r.(callee := Apply(r.callee, ev), toCallee := r.toCallee + |Brings(ev)|)
      else r
  }

  function RoomRun(r: Room, events: seq<RoomEvent>): Room {
    if events == [] then r else RoomStep(RoomRun(r, events[..|events| - 1]), Last(events))
  }

  function NewRoom(c1: AppConfig, v1: nat -> bool, c2: AppConfig, v2: nat -> bool): Room {
    Room(Started(c1, v1), Started(c2, v2), 0, 0)
  }

  /** One peer on its own. */
  predicate PeerFits(e: Endpoint, initiator: bool) {
    && Ordered(e) && Quiescent(e) && MessagesFit(e)
    && Negotiates(e, initiator) && ProgressFits(e, initiator) && Relayed(e, initiator)
  }

  /** What a peer was handed is what the other one got to the relay, up to a point. */
  predicate HandedBy(e: Endpoint, other: Endpoint, given: nat) {
    given <= |Payloads(other)| && e.sig.stored + e.sig.heard == Payloads(other)[..given]
  }

  predicate RoomFits(r: Room) {
    && PeerFits(r.caller, true) && PeerFits(r.callee, false)
    && HandedBy(r.caller, r.callee, r.toCaller) && HandedBy(r.callee, r.caller, r.toCallee)
  }

  function Own(r: Room, initiator: bool): Endpoint {
    if initiator then r.caller else r.callee
  }

  function Other(r: Room, initiator: bool): Endpoint {
    Own(r, !initiator)
  }

  function Given(r: Room, initiator: bool): nat {
    if initiator then r.toCaller else r.toCallee
  }

  lemma {:induction false} PayloadsOfKind(wire: seq<Frame>, kind: MessageType)
    ensures Count(OfKind(kind), Collect(ParseSignalingMessage, Collect(PayloadOf, wire)))
         == Count(FrameCarrying(kind), wire)
  {
    hide ParseSignalingMessage;
    if wire != [] {
      PayloadsOfKind(wire[1..], kind);
      var f := wire[0];
      var first := if f.MessageFrame? then [f.text] else [];
      var rest := Collect(PayloadOf, wire[1..]);
      CollectHead(PayloadOf, wire);
      CollectAppend(ParseSignalingMessage, first, rest);
      FilterAppend(OfKind(kind), Collect(ParseSignalingMessage, first), Collect(ParseSignalingMessage, rest));
      CountHead(FrameCarrying(kind), wire);
      OneOfKind(f, kind);
      hide Collect, Filter, FrameCarrying, OfKind;
    }
  }

  lemma OneOfKind(f: Frame, kind: MessageType)
    ensures |Filter(OfKind(kind), Collect(ParseSignalingMessage, if f.MessageFrame? then [f.text] else []))|
         == Bit(FrameCarrying(kind)(f))
  {
    hide ParseSignalingMessage;
    if f.MessageFrame? {
      CollectMore(ParseSignalingMessage, [], f.text);
    }
  }

  lemma CountPrefix<T>(keep: T -> bool, xs: seq<T>, ys: seq<T>)
    requires xs <= ys
    ensures Count(keep, xs) <= Count(keep, ys)
  {
    FilterPrefix(keep, xs, ys);
  }

  /** Messages received, sorted or not, are at most as many of a kind as were handed over. */
  lemma ReceivedBound(e: Endpoint, initiator: bool, came: seq<Message>, kind: MessageType)
    requires HandedFits(e, initiator) && came <= Collect(ParseSignalingMessage, e.sig.heard)
    ensures Count(OfKind(kind), JoinPart(e) + came)
         <= Count(OfKind(kind), Collect(ParseSignalingMessage, e.sig.stored + e.sig.heard))
  {
    hide ParseSignalingMessage, StableOrder;
    var stored := Collect(ParseSignalingMessage, e.sig.stored);
    var heard := Collect(ParseSignalingMessage, e.sig.heard);
    CollectAppend(ParseSignalingMessage, e.sig.stored, e.sig.heard);
    FilterAppend(OfKind(kind), stored, heard);
    FilterAppend(OfKind(kind), JoinPart(e), came);
    CountPrefix(OfKind(kind), came, heard);
    if JoinQueued(e) {
      OrderKeeps(OfKind(kind), QueuedMessagePriority(kind), stored);
    }
  }

  /** Everything received, in terms of what the other peer ever posted. */
  lemma ReceivedWasPosted(e: Endpoint, other: Endpoint, given: nat, initiator: bool,
                          came: seq<Message>, kind: MessageType)
    requires HandedFits(e, initiator) && HandedBy(e, other, given) && WireCounts(other.sig, kind)
    requires came <= Collect(ParseSignalingMessage, e.sig.heard)
    ensures Count(OfKind(kind), JoinPart(e) + came) <= Count(TaskCarrying(kind), other.sig.log)
  {
    hide HandedFits, ParseSignalingMessage, JoinPart;
    ReceivedBound(e, initiator, came, kind);
    CollectPrefix(ParseSignalingMessage, Payloads(other)[..given], Payloads(other));
    CountPrefix(OfKind(kind), Collect(ParseSignalingMessage, Payloads(other)[..given]),
                Collect(ParseSignalingMessage, Payloads(other)));
    PayloadsOfKind(other.sig.wire, kind);
  }

  lemma {:induction false} CountSame<T>(p: T -> bool, q: T -> bool, xs: seq<T>)
    requires forall x <- xs :: p(x) == q(x)
    ensures Count(p, xs) == Count(q, xs)
  {
    if xs != [] {
      CountSame(p, q, xs[1..]);
      CountHead(p, xs);
      CountHead(q, xs);
    }
  }

  /** The descriptions a peer posts are all of its own type. */
  lemma PostedKinds(e: Endpoint, initiator: bool)
    requires TextsFit(e, initiator)
    ensures Count(TaskCarrying(TypeOfSdp(OwnType(initiator))), e.sig.log) == Count(IsDescription, e.sig.log)
    ensures Count(TaskCarrying(TypeOfSdp(OwnType(!initiator))), e.sig.log) == 0
  {
    var own := TaskCarrying(TypeOfSdp(OwnType(initiator)));
    var foreign := TaskCarrying(TypeOfSdp(OwnType(!initiator)));
    forall t <- e.sig.log
      ensures own(t) == IsDescription(t) && !foreign(t)
    {
      assert TextFits(t, initiator);
    }
    CountSame(own, IsDescription, e.sig.log);
    CountNone(foreign, e.sig.log);
  }

  /** The caller is offered nothing and answered once, after its offer was posted; the callee is offered once. */
  lemma ReceivedAsExpected(r: Room, initiator: bool, came: seq<Message>)
    requires RoomFits(r)
    requires came <= Collect(ParseSignalingMessage, Own(r, initiator).sig.heard)
    ensures Expected(JoinPart(Own(r, initiator)) + came, Own(r, initiator).sig.log, initiator)
  {
    var e := Own(r, initiator);
    var other := Other(r, initiator);
    var given := Given(r, initiator);
    hide Ordered, Quiescent, MessagesFit, ProgressFits, Follows, ParseSignalingMessage, JoinPart, Count, HandedBy,
      HandedFits, WireCounts, SentFits, TextsFit;
    PostedKinds(other, !initiator);
    ReceivedWasPosted(e, other, given, initiator, came, Offer);
    ReceivedWasPosted(e, other, given, initiator, came, Answer);
    if initiator {
      AnsweredAfterOffer(r);
    }
  }

  /** An answer was posted only if an offer was received, hence posted. */
  lemma AnsweredAfterOffer(r: Room)
    requires RoomFits(r)
    ensures Count(IsDescription, r.callee.sig.log) > 0 ==> Count(IsDescription, r.caller.sig.log) > 0
  {
    var e := r.callee;
    hide Ordered, Quiescent, ProgressFits, Follows, ParseSignalingMessage, JoinPart, Count, HandedBy, HandedFits,
      WireCounts, SentFits, TextsFit, CandidatesFit, OfferedFits, Collect;
    PostedKinds(r.caller, true);
    ReceivedWasPosted(e, r.caller, r.toCallee, false, e.ctl.inbox.inbound, Offer);
    CountPrefix(OfKind(Offer), e.ctl.inbox.dispatched, e.ctl.inbox.dispatched + e.ctl.inbox.pending);
  }

  /** What an event hands over is what it adds to the stored and heard texts. */
  lemma BringsHeard(e: Endpoint, ev: Event, initiator: bool)
    requires Ordered(e) && MessagesFit(e) && HandedFits(e, initiator) && Enabled(e, ev)
    ensures var f := Apply(e, ev); f.sig.stored + f.sig.heard == e.sig.stored + e.sig.heard + Brings(ev)
    ensures e.sig.wire <= Apply(e, ev).sig.wire
  {
    hide Ordered, MessagesFit, HandedFits, RunCallback, RunNetworkTask, OnOperationDone, OnLocalCandidate, OnFrame,
      OnConnectionChange, OnTimer, ParseSignalingMessage;
    match ev
    case Network(o) => NetworkBrings(e, o, initiator);
    case Callback =>
      CallbackKeeps(e);
      CallbackQueues(e);
    case SocketOpen =>
    case SocketClose =>
    case SocketError =>
    case SocketMessage(_) =>
      assert e.sig.stored + (e.sig.heard + Brings(ev)) == e.sig.stored + e.sig.heard + Brings(ev);
    case _ =>
      OrderedQueues(e);
      ApplyEffect(e, ev);
      EffectKeeps(e, Apply(e, ev));
      EffectQueues(e, Apply(e, ev));
  }

  lemma NetworkBrings(e: Endpoint, o: NetOutcome, initiator: bool)
    requires Ordered(e) && MessagesFit(e) && HandedFits(e, initiator) && OutcomeFits(e.sig, o)
    ensures var t := RunNetworkTask(e.sig, o);
      && t.stored + t.heard == e.sig.stored + e.sig.heard + Brings(Network(o)) && e.sig.wire <= t.wire
  {
    hide Ordered, MessagesFit, HandedFits, QueuesFit, RunNetworkTask, ParseSignalingMessage;
    OrderedQueues(e);
    OrderedJoin(e);
    NetworkHasShape(e.sig, o);
    HeadOfNetwork(e.sig);
    if e.sig.network[0].op.JoinRoom? {
      JoinAnswer(e.sig, o);
      NothingBrought(e, initiator);
    }
  }

  /** Before the join has run nothing was handed over and nothing heard. */
  lemma NothingBrought(e: Endpoint, initiator: bool)
    requires Ordered(e) && MessagesFit(e) && HandedFits(e, initiator) && |e.sig.network| == |e.sig.log|
    ensures e.sig.stored == [] && e.sig.heard == []
  {
    hide Alive, QueuesFit, LogFits, WireFits, RegistersFit, ByeFits, CandidatesFit, OfferedFits, InboxFits;
  }

  lemma InboxAsExpected(r: Room, initiator: bool)
    requires RoomFits(r)
    ensures var e := Own(r, initiator);
      Expected(Received(e), e.sig.log, initiator) && HeadAsExpected(e, initiator)
  {
    var e := Own(r, initiator);
    var inbound := e.ctl.inbox.inbound;
    hide Ordered, Quiescent, Negotiates, ProgressFits, ParseSignalingMessage, JoinPart, Expected, HandedBy,
      WireCounts, SentFits, TextsFit, CandidatesFit, OfferedFits;
    ReceivedAsExpected(r, initiator, inbound);
    if e.sig.callbacks != [] && e.sig.callbacks[0].Inbound? && !e.ctl.ending.finished {
      var m := e.sig.callbacks[0].m;
      assert Collect(BroughtIn, e.sig.callbacks) == [m] + Collect(BroughtIn, e.sig.callbacks[1..]);
      assert inbound + [m] <= Collect(ParseSignalingMessage, e.sig.heard);
      ReceivedAsExpected(r, initiator, inbound + [m]);
      assert Received(Enqueued(e, m)) == Received(e) + [m];
      assert JoinPart(e) + (inbound + [m]) == (JoinPart(e) + inbound) + [m];
    }
  }

  lemma PeerStepFits(r: Room, initiator: bool, ev: Event)
    requires RoomFits(r) && Enabled(Own(r, initiator), ev)
    requires RelayAllows(Other(r, initiator), Given(r, initiator), initiator, ev)
    ensures PeerFits(Apply(Own(r, initiator), ev), initiator)
  {
    var e := Own(r, initiator);
    hide Ordered, Quiescent, MessagesFit, Negotiates, ProgressFits, Relayed, HandedBy, Expected, Received, Apply;
    InboxAsExpected(r, initiator);
    ApplyOrdered(e, ev);
    ApplyFlight(e, ev);
    ApplyMessages(e, ev);
    ApplyNegotiates(e, ev, initiator);
    ApplyProgress(e, ev, initiator);
    ApplyRelayed(e, ev, initiator);
  }

  lemma HandedStep(e: Endpoint, other: Endpoint, given: nat, initiator: bool, ev: Event)
    requires PeerFits(e, initiator) && HandedBy(e, other, given) && Enabled(e, ev)
    requires RelayAllows(other, given, initiator, ev)
    ensures HandedBy(Apply(e, ev), other, given + |Brings(ev)|)
  {
    hide Ordered, Quiescent, MessagesFit, Negotiates, ProgressFits, TextsFit, WireCounts, SentFits, HandedFits, Apply,
      Payloads, Brings;
    BringsHeard(e, ev, initiator);
  }

  lemma HandedFromGrowing(e: Endpoint, other: Endpoint, other': Endpoint, given: nat)
    requires HandedBy(e, other, given) && other.sig.wire <= other'.sig.wire
    ensures HandedBy(e, other', given)
  {
    CollectPrefix(PayloadOf, other.sig.wire, other'.sig.wire);
  }

  lemma RoomStepFits(r: Room, rev: RoomEvent)
    requires RoomFits(r)
    ensures RoomFits(RoomStep(r, rev))
  {
    hide PeerFits, HandedBy, Apply, Enabled, RelayAllows;
    var initiator := rev.AtCaller?;
    var e := Own(r, initiator);
    var other := Other(r, initiator);
    if Enabled(e, rev.ev) && RelayAllows(other, Given(r, initiator), initiator, rev.ev) {
      PeerStepFits(r, initiator, rev.ev);
      HandedStep(e, other, Given(r, initiator), initiator, rev.ev);
      WireGrows(e, rev.ev, initiator);
      HandedFromGrowing(other, e, Apply(e, rev.ev), Given(r, !initiator));
    }
  }

  lemma WireGrows(e: Endpoint, ev: Event, initiator: bool)
    requires PeerFits(e, initiator) && Enabled(e, ev)
    ensures e.sig.wire <= Apply(e, ev).sig.wire
  {
    hide Ordered, Quiescent, MessagesFit, Negotiates, ProgressFits, TextsFit, WireCounts, SentFits, HandedFits, Apply;
    BringsHeard(e, ev, initiator);
  }

  lemma StartedPeer(config: AppConfig, verdicts: nat -> bool, initiator: bool)
    ensures PeerFits(Started(config, verdicts), initiator)
  {
    hide Ordered, Quiescent, MessagesFit, Negotiates, ProgressFits, Relayed, Started;
    StartedOrdered(config, verdicts);
    StartedFlight(config, verdicts);
    StartedMessages(config, verdicts);
    StartedNegotiates(config, verdicts, initiator);
    StartedProgress(config, verdicts, initiator);
    StartedRelayed(config, verdicts, initiator);
  }

  lemma StartedNegotiates(config: AppConfig, verdicts: nat -> bool, initiator: bool)
    ensures Negotiates(Started(config, verdicts), initiator)
  {
    CountMore(IsDescription, [], Last(Started(config, verdicts).sig.log));
    hide Count, Carries;
  }

  lemma StartedProgress(config: AppConfig, verdicts: nat -> bool, initiator: bool)
    ensures ProgressFits(Started(config, verdicts), initiator)
  {
    CountMore(IsDescription, [], Last(Started(config, verdicts).sig.log));
    hide Count;
  }

  lemma StartedRelayed(config: AppConfig, verdicts: nat -> bool, initiator: bool)
    ensures Relayed(Started(config, verdicts), initiator)
  {
    var x := Last(Started(config, verdicts).sig.log);
    assert Started(config, verdicts).sig.log == [x] == Started(config, verdicts).sig.network;
    assert Collect(PayloadOf, []) == [];
    CountNone(FrameCarrying(Offer), []);
    CountNone(FrameCarrying(Answer), []);
    hide Count, Collect, Carries;
  }

  lemma {:induction false} RoomRunFits(c1: AppConfig, v1: nat -> bool, c2: AppConfig, v2: nat -> bool,
                                       events: seq<RoomEvent>)
    ensures RoomFits(RoomRun(NewRoom(c1, v1, c2, v2), events))
  {
    hide PeerFits, RoomStep, Started;
    if events == [] {
      StartedPeer(c1, v1, true);
      StartedPeer(c2, v2, false);
      NothingHanded(c1, v1, c2, v2);
      NothingHanded(c2, v2, c1, v1);
    } else {
      hide HandedBy;
      RoomRunFits(c1, v1, c2, v2, events[..|events| - 1]);
      RoomStepFits(RoomRun(NewRoom(c1, v1, c2, v2), events[..|events| - 1]), Last(events));
    }
  }

  lemma NothingHanded(c1: AppConfig, v1: nat -> bool, c2: AppConfig, v2: nat -> bool)
    ensures HandedBy(Started(c1, v1), Started(c2, v2), 0)
  {
  }

  /** The events of one peer that took place in a room run, in their order. */
  function EventsAt(r: Room, events: seq<RoomEvent>, initiator: bool): seq<Event> {
    if events == [] then []
    else
      var before := events[..|events| - 1];
      EventsAt(r, before, initiator) + EventAt(RoomRun(r, before), Last(events), initiator)
  }

  function EventAt(r: Room, rev: RoomEvent, initiator: bool): seq<Event> {
    if rev.AtCaller? == initiator && Enabled(Own(r, initiator), rev.ev)
       && RelayAllows(Other(r, initiator), Given(r, initiator), initiator, rev.ev)
    then [rev.ev]
    else []
  }

  lemma RoomStepProjects(r: Room, rev: RoomEvent, initiator: bool)
    ensures var e := Own(r, initiator); var taken := EventAt(r, rev, initiator);
      Own(RoomStep(r, rev), initiator) == if taken == [] then e else Step(e, taken[0])
    ensures |EventAt(r, rev, initiator)| <= 1
  {
    hide Apply, Enabled, RelayAllows;
  }

  /** Each peer of a room run has made a run of its own, so what holds of all runs holds of both peers. */
  lemma {:induction false} RoomProjects(r: Room, events: seq<RoomEvent>, initiator: bool)
    ensures Own(RoomRun(r, events), initiator) == Run(Own(r, initiator), EventsAt(r, events, initiator))
  {
    hide RoomStep, EventAt, Step;
    if events != [] {
      var before := events[..|events| - 1];
      RoomProjects(r, before, initiator);
      RoomStepProjects(RoomRun(r, before), Last(events), initiator);
      var taken := EventAt(RoomRun(r, before), Last(events), initiator);
      var all := EventsAt(r, events, initiator);
      if taken == [] {
        assert all == EventsAt(r, before, initiator);
      } else {
        assert all[..|all| - 1] == EventsAt(r, before, initiator) && Last(all) == taken[0];
      }
    }
  }
}
