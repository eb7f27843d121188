/** A room in which nothing is on its way is a room in which the negotiation is complete. */
module Convergence {
  import opened Sequences
  import opened Common
  import opened SignalingSpec
  import opened ControllerSpec
  import opened JoinOrder
  import opened EndpointRuns
  import opened Lifecycle
  import opened Queues
  import opened Effects
  import opened WireOrder
  import opened Flight
  import opened Messages
  import opened NegotiationScript
  import opened Progress
  import opened RelayTexts
  import opened TwoPeers
  import opened Outbox
  import opened Descriptions
  import opened Watchdog
  import opened RoomGuarantees

  /** A peer whose call goes on, whose socket is up, and which waits for nobody but the relay. */
  predicate QuietPeer(e: Endpoint) {
    && !e.ctl.ending.finished && e.sig.link.socket.Up?
    && e.peer.operations == [] && e.sig.network == [] && e.sig.callbacks == []
  }

  /** And the relay has handed everything over. */
  predicate QuietRoom(r: Room) {
    && QuietPeer(r.caller) && QuietPeer(r.callee)
    && r.toCaller == |Payloads(r.callee)| && r.toCallee == |Payloads(r.caller)|
  }

  /** The same, once the answer to the registration is known to have been positive. */
  predicate IdlePeer(e: Endpoint) {
    QuietPeer(e) && e.ctl.negotiation.ready
  }

  predicate IdleRoom(r: Room) {
    QuietRoom(r) && IdlePeer(r.caller) && IdlePeer(r.callee)
  }

  /** An open socket has been registered on, and with both queues empty that has been answered. */
  lemma QuietIsReady(e: Endpoint)
    requires Ordered(e) && OutboxFits(e) && QuietPeer(e)
    ensures IdlePeer(e)
  {
    hide Alive, LogFits, LinkFits, WireFits, ByeFits;
    assert OpensAhead(e.sig.callbacks) == 0;
    RegistersAnswered(e.sig);
    hide QueuesFit, Count;
  }

  lemma RegistersAnswered(s: Signaling)
    requires QueuesFit(s) && s.network == [] && s.callbacks == []
    ensures Count(IsRegister, s.delivered) == Count(IsRegister, s.log)
  {
    assert s.delivered == Filter(HasReply, s.log);
    forall t <- s.log
      ensures IsRegister(t) ==> HasReply(t)
    {
      var i :| 0 <= i < |s.log| && s.log[i] == t;
      assert PurposeFits(s.log[i].op, s.log[i].purpose);
    }
    FilterTwice(IsRegister, HasReply, s.log);
  }

  /** The descriptions among some texts, in their order. */
  function DescriptionsIn(texts: seq<Text>): seq<Message> {
    Filter(IsDescriptionMessage, Collect(ParseSignalingMessage, texts))
  }

  lemma IdleHasNoWork(e: Endpoint)
    requires Ordered(e) && Quiescent(e) && IdlePeer(e)
    ensures !e.ctl.negotiation.inFlight && e.ctl.inbox.pending == [] && Joined(e)
    ensures Initiator(e) ==> e.ctl.negotiation.offerStarted
  {
    OrderedQueues(e);
    DescriptionsOutByHistory(e.sig);
    NotQuit(e);
    hide LogFits, LinkFits, WireFits, RegistersFit, ByeFits, QueuesFit, EndingFits;
    assert DescriptionsOut(e.sig) == 0;
    hide Count;
  }

  /** The descriptions set on a connection are those the other side sent, and all of them if nothing is left. */
  lemma DescriptionsWereSent(r: Room, initiator: bool)
    requires RoomFits(r)
    ensures var e := Own(r, initiator); var sent := DescriptionsIn(Payloads(Other(r, initiator)));
      && e.peer.remote.descriptions <= sent
      && (IdleRoom(r) ==> e.peer.remote.descriptions == sent)
  {
    var e := Own(r, initiator);
    var other := Other(r, initiator);
    var given := Given(r, initiator);
    hide Ordered, Quiescent, MessagesFit, Negotiates, OnTrack, HandedFits, TextsFit, WireCounts, SentFits,
      ParseSignalingMessage, Payloads, Filter, Collect;
    ReceivedInOrder(e, initiator, IsDescriptionMessage, 0);
    FilterPrefix(IsDescriptionMessage, e.ctl.inbox.dispatched, Received(e));
    CollectPrefix(ParseSignalingMessage, Payloads(other)[..given], Payloads(other));
    FilterPrefix(IsDescriptionMessage, Collect(ParseSignalingMessage, Payloads(other)[..given]),
                 Collect(ParseSignalingMessage, Payloads(other)));
    if IdleRoom(r) {
      IdleHasNoWork(e);
      TrackedDescriptions(e, initiator);
      NothingBroughtIn();
      assert Received(e) == e.ctl.inbox.dispatched;
      assert Payloads(other)[..given] == Payloads(other);
    }
  }

  lemma NothingBroughtIn()
    ensures Collect(BroughtIn, []) == []
  {
  }

  lemma TrackedDescriptions(e: Endpoint, initiator: bool)
    requires ProgressFits(e, initiator) && !e.ctl.ending.finished
    ensures e.peer.remote.descriptions == Offered(e)
  {
    hide Count, Filter;
  }

  /** In every room, in both directions: the descriptions handed to a peer's connection are the first of those the
      other peer got to the relay, and those are, word for word, what the other peer's libwebrtc created. */
  lemma DescriptionsEndToEnd(c1: AppConfig, v1: nat -> bool, c2: AppConfig, v2: nat -> bool,
                             events: seq<RoomEvent>, initiator: bool)
    ensures var first := NewRoom(c1, v1, c2, v2); var r := RoomRun(first, events);
      var handed := Own(r, initiator).peer.remote.descriptions;
      && handed <= DescriptionsIn(Payloads(Other(r, initiator)))
      && handed <= Created(Other(first, initiator), EventsAt(first, events, !initiator))
  {
    hide RoomStep, RoomFits, DescriptionsIn, Payloads, Started, EventsAt, Created, PostedDescriptions, Run,
      Within, Collect;
    var first := NewRoom(c1, v1, c2, v2);
    var r := RoomRun(first, events);
    RoomRunFits(c1, v1, c2, v2, events);
    DescriptionsWereSent(r, initiator);
    RoomProjects(first, events, !initiator);
    if initiator {
      CreatedArePosted(c2, v2, EventsAt(first, events, false));
      RunFramesFit(c2, v2, EventsAt(first, events, false));
    } else {
      CreatedArePosted(c1, v1, EventsAt(first, events, true));
      RunFramesFit(c1, v1, EventsAt(first, events, true));
    }
    SentWerePosted(r, !initiator);
  }

  /** A peer of a room posts at most one description, so what it got to the relay is the beginning of that. */
  lemma SentWerePosted(r: Room, initiator: bool)
    requires RoomFits(r) && FramesFit(Own(r, initiator).sig)
    ensures var e := Own(r, initiator); DescriptionsIn(Payloads(e)) <= PostedDescriptions(e)
  {
    var e := Own(r, initiator);
    hide Quiescent, MessagesFit, ProgressFits, HandedBy, HandedFits, WireCounts, SentFits, ParseSignalingMessage,
      TextFits, Payloads, Collect, Filter, Within, IsDescriptionMessage, Follows;
    PayloadsWithin(e);
    ReadWithin(IsDescriptionMessage, Payloads(e), Posted(e));
    DescriptionsByText(e.sig.log, initiator);
    WithinOne(DescriptionsIn(Payloads(e)), PostedDescriptions(e));
  }

  lemma WithinOne<T>(xs: seq<T>, ys: seq<T>)
    requires Within(xs, ys) && |ys| <= 1
    ensures xs <= ys
  {
    if xs != [] {
      assert ys[..|ys| - 1] == [];
      assert xs[..|xs| - 1] == [];
      assert xs == [Last(xs)] && ys == [Last(ys)];
    }
  }

  /** Of what a peer posts, exactly its descriptions read as descriptions. */
  lemma {:induction false} DescriptionsByText(log: seq<NetTask>, initiator: bool)
    requires forall t <- log :: TextFits(t, initiator)
    ensures DescriptionsIn(Collect(TextOf, log)) == Collect(ParseSignalingMessage, Collect(DescriptionText, log))
    ensures |DescriptionsIn(Collect(TextOf, log))| == Count(IsDescription, log)
  {
    if log != [] {
      DescriptionsByText(log[1..], initiator);
      var t := log[0];
      assert t in log && TextFits(t, initiator);
      var first := if TextOf(t).Some? then [t.text] else [];
      var mine := if DescriptionText(t).Some? then [t.text] else [];
      var rest := Collect(TextOf, log[1..]);
      CollectAppend(ParseSignalingMessage, first, rest);
      FilterAppend(IsDescriptionMessage, Collect(ParseSignalingMessage, first), Collect(ParseSignalingMessage, rest));
      CollectAppend(ParseSignalingMessage, mine, Collect(DescriptionText, log[1..]));
      OneText(t, initiator);
      hide ParseSignalingMessage, Carries;
    }
  }

  lemma OneText(t: NetTask, initiator: bool)
    requires TextFits(t, initiator)
    ensures var read := DescriptionsIn(if TextOf(t).Some? then [t.text] else []);
      && read == Collect(ParseSignalingMessage, if DescriptionText(t).Some? then [t.text] else [])
      && |read| == Bit(IsDescription(t))
  {
    hide ParseSignalingMessage;
    if TextOf(t).Some? {
      ReadOne(t.text);
      var read := Collect(ParseSignalingMessage, [t.text]);
      assert Filter(IsDescriptionMessage, read) == if IsDescriptionMessage(read[0]) then read else [];
    }
  }

  lemma IdlePeerSent(e: Endpoint, initiator: bool)
    requires TextsFit(e, initiator) && SentFits(e) && IdlePeer(e)
    ensures Payloads(e) == Posted(e) && |DescriptionsIn(Payloads(e))| == Count(IsDescription, e.sig.log)
    ensures AllSent(e)
  {
    PostedWereSent(e);
    DescriptionsByText(e.sig.log, initiator);
    hide DescriptionsIn, Count, Collect;
  }

  /** Where a peer on track stands when it is quiet. */
  lemma IdleTrack(e: Endpoint, initiator: bool)
    requires ProgressFits(e, initiator) && Negotiates(e, initiator) && IdlePeer(e)
    ensures var n := |e.peer.calls|;
      && (n == 0 || n >= LocalAt(initiator))
      && Count(IsDescription, e.sig.log) == Bit(n >= LocalAt(initiator))
      && |e.peer.remote.descriptions| == Bit(n >= RemoteAt(initiator))
      && (e.peer.remote.descriptionSet <==> n >= RemoteAt(initiator))
      && (e.ctl.negotiation.offerStarted <==> initiator && n > 0)
      && e.peer.calls <= Script(initiator)
  {
    hide Count, Filter, Carries;
  }

  lemma IdleRoomCalls(r: Room)
    requires RoomFits(r) && IdleRoom(r)
    ensures |r.caller.peer.calls| >= 3 && |r.callee.peer.calls| >= 3
    ensures |r.caller.peer.remote.descriptions| == 1 && |r.callee.peer.remote.descriptions| == 1
    ensures r.caller.peer.remote.descriptionSet && r.callee.peer.remote.descriptionSet
  {
    hide Ordered, Quiescent, MessagesFit, Negotiates, ProgressFits, HandedBy, HandedFits, TextsFit, WireCounts,
      SentFits, DescriptionsIn, Payloads, Count;
    DescriptionsWereSent(r, true);
    DescriptionsWereSent(r, false);
    IdlePeerSent(r.caller, true);
    IdlePeerSent(r.callee, false);
    IdleHasNoWork(r.caller);
    CallerIsInitiator(r);
    IdleTrack(r.caller, true);
    IdleTrack(r.callee, false);
  }

  lemma CallerIsInitiator(r: Room)
    requires RoomFits(r) && Joined(r.caller)
    ensures Initiator(r.caller)
  {
    hide Ordered, Quiescent, MessagesFit, ProgressFits, Relayed, HandedBy, Follows, Count;
  }

  lemma IdleIsCaughtUp(r: Room, initiator: bool)
    requires RoomFits(r) && IdleRoom(r)
    ensures CaughtUp(r, initiator) && AllSent(Own(r, initiator))
  {
    hide Ordered, Quiescent, MessagesFit, Negotiates, ProgressFits, Relayed, HandedBy, Payloads;
    IdleRoomCalls(r);
    IdleHasNoWork(Own(r, initiator));
  }

  /** No deadlock: in every run of two peers, if both calls go on with their sockets up, nothing is outstanding at
      either and the relay has handed everything over, then the negotiation is complete. Each peer has made all
      the calls of its role, has set exactly the one description that the other posted, and has applied exactly
      the candidates that the other's connection gathered, in that order. */
  lemma QuietRoomIsNegotiated(c1: AppConfig, v1: nat -> bool, c2: AppConfig, v2: nat -> bool, events: seq<RoomEvent>)
    requires QuietRoom(RoomRun(NewRoom(c1, v1, c2, v2), events))
    ensures var first := NewRoom(c1, v1, c2, v2); var r := RoomRun(first, events);
      && Negotiated(r.caller, r.callee, true) && Negotiated(r.callee, r.caller, false)
      && r.callee.peer.remote.applied
         == Gathered(Started(c1, v1), EventsAt(first, events, true))
      && r.caller.peer.remote.applied
         == Gathered(Started(c2, v2), EventsAt(first, events, false))
      && r.callee.peer.remote.descriptions == Created(Started(c1, v1), EventsAt(first, events, true))
      && r.caller.peer.remote.descriptions == Created(Started(c2, v2), EventsAt(first, events, false))
  {
    hide RoomStep, RoomFits, QuietRoom, Negotiated, Started, EventsAt, ParseSignalingMessage, Ordered,
      OutboxFits, Gathered, Created, PostedDescriptions, Run, Collect;
    var first := NewRoom(c1, v1, c2, v2);
    var r := RoomRun(first, events);
    RoomRunFits(c1, v1, c2, v2, events);
    RoomProjects(first, events, true);
    RoomProjects(first, events, false);
    RunOutbox(c1, v1, EventsAt(first, events, true));
    RunOutbox(c2, v2, EventsAt(first, events, false));
    GatheredArePosted(c1, v1, EventsAt(first, events, true));
    GatheredArePosted(c2, v2, EventsAt(first, events, false));
    QuietIsIdle(r);
    NegotiatedSide(r, true);
    NegotiatedSide(r, false);
    BothApplied(r);
    CreatedArePosted(c1, v1, EventsAt(first, events, true));
    CreatedArePosted(c2, v2, EventsAt(first, events, false));
    BothSet(r);
  }

  lemma BothSet(r: Room)
    requires RoomFits(r) && QuietRoom(r)
    requires Negotiated(r.caller, r.callee, true) && Negotiated(r.callee, r.caller, false)
    ensures r.callee.peer.remote.descriptions == PostedDescriptions(r.caller)
    ensures r.caller.peer.remote.descriptions == PostedDescriptions(r.callee)
    ensures r.caller.peer.operations == [] && !r.caller.ctl.ending.finished
    ensures r.callee.peer.operations == [] && !r.callee.ctl.ending.finished
  {
    hide Ordered, Quiescent, MessagesFit, Negotiates, ProgressFits, HandedBy, HandedFits, WireCounts, SentFits,
      ParseSignalingMessage, TextFits, Collect, Filter, Payloads, AfterCalls;
    DescriptionsByText(r.caller.sig.log, true);
    DescriptionsByText(r.callee.sig.log, false);
  }

  lemma QuietIsIdle(r: Room)
    requires RoomFits(r) && QuietRoom(r) && OutboxFits(r.caller) && OutboxFits(r.callee)
    ensures IdleRoom(r)
  {
    hide Ordered, Quiescent, MessagesFit, Negotiates, ProgressFits, Relayed, HandedBy, OutboxFits, Payloads, QuietPeer;
    QuietIsReady(r.caller);
    QuietIsReady(r.callee);
  }

  lemma BothApplied(r: Room)
    requires RoomFits(r) && Negotiated(r.caller, r.callee, true) && Negotiated(r.callee, r.caller, false)
    ensures r.caller.peer.remote.applied == PostedCandidates(r.callee)
    ensures r.callee.peer.remote.applied == PostedCandidates(r.caller)
  {
    hide Ordered, Quiescent, MessagesFit, Negotiates, ProgressFits, HandedBy, HandedFits, TextFits, WireCounts,
      SentFits, ParseSignalingMessage, Collect, Filter, Payloads, AfterCalls;
    GatheredByText(r.caller, true);
    GatheredByText(r.callee, false);
  }

  predicate Negotiated(e: Endpoint, other: Endpoint, initiator: bool) {
    && e.peer.calls == Script(initiator) && AfterCalls(e.peer.calls) == Some(Stable)
    && e.peer.remote.descriptionSet && |e.peer.remote.descriptions| == 1
    && e.peer.remote.descriptions == DescriptionsIn(Posted(other))
    && e.peer.remote.applied == GatheredCandidates(other)
  }

  lemma NegotiatedSide(r: Room, initiator: bool)
    requires RoomFits(r) && IdleRoom(r)
    ensures Negotiated(Own(r, initiator), Other(r, initiator), initiator)
  {
    hide Ordered, Quiescent, MessagesFit, Negotiates, ProgressFits, HandedBy, HandedFits, TextsFit, WireCounts,
      SentFits, DescriptionsIn, Payloads, Posted, SentCandidates, GatheredCandidates, AfterCalls, CaughtUp, AllSent;
    IdleRoomCalls(r);
    PeerIsLegal(r, initiator);
    ScriptIsLegal(Own(r, initiator).peer.calls, initiator);
    DescriptionsWereSent(r, initiator);
    IdlePeerSent(Other(r, initiator), !initiator);
    IdleIsCaughtUp(r, initiator);
    IdleIsCaughtUp(r, !initiator);
    AppliedWereSent(r, initiator);
    PostedWereSent(Other(r, initiator));
  }
}
