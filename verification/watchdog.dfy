/** The two timers, the clock, and the moment the call counts as established. */
module Watchdog {
  import opened Sequences
  import opened Common
  import opened PeerConnectionSpec
  import opened SignalingSpec
  import opened ControllerSpec
  import opened EndpointRuns
  import opened Lifecycle
  import opened Queues
  import opened Effects
  import opened WireOrder

  /** The last connection state reported was the connected one. */
  predicate ConnectedNow(observed: seq<Observation>) {
    observed != [] &&
    match Last(observed)
    case StateSeen(st) => st.Connected?
    case FrameSeen => ConnectedNow(observed[..|observed| - 1])
  }

  /** At some past moment the connection was up and media had been seen. */
  predicate EverTogether(observed: seq<Observation>) {
    observed != [] &&
    (EverTogether(observed[..|observed| - 1]) || (ConnectedNow(observed) && FrameSeen in observed))
  }

  /** Before the end, the controller's flags say of the observations what they are meant to say. */
  predicate EstablishedFits(e: Endpoint) {
    var observed := e.peer.reports.observed;
    var media := e.ctl.media;
    && (media.established ==> EverTogether(observed))
    && (!e.ctl.ending.finished ==>
          && media.connected == ConnectedNow(observed)
          && media.mediaSeen == (FrameSeen in observed)
          && media.established == EverTogether(observed))
  }

  function StartupDeadline(c: AppConfig): nat {
    Seconds(c.timeoutSeconds)
  }

  function DurationDeadline(e: Endpoint): nat {
    e.ctl.media.establishedAt + Seconds(e.ctl.config.callDurationSeconds)
  }

  function TheStartupTimer(e: Endpoint): Timer {
    Timer(StartupTimer, 1, StartupDeadline(e.ctl.config))
  }

  function TheDurationTimer(e: Endpoint): Timer {
    Timer(DurationTimer, 1, DurationDeadline(e))
  }

  /** Every timer ever set, its generation and its deadline, in terms of the flags; and when the call ended. */
  predicate TimersFit(e: Endpoint) {
    var established := e.ctl.media.established;
    var x := e.ctl.ending;
    var timers := e.thread.timers;
    && e.ctl.generations == Generations(1 + Bit(established) + Bit(x.finished), Bit(established) + Bit(x.finished))
    && (!x.finished && !established ==> timers == [TheStartupTimer(e)])
    && (!x.finished && established ==>
          timers == [TheDurationTimer(e)] || timers == [TheStartupTimer(e), TheDurationTimer(e)])
    && (forall t <- timers :: t == TheStartupTimer(e) || (established && t == TheDurationTimer(e)))
    && (!e.thread.quit ==> forall t <- timers :: e.thread.now <= t.deadline)
    && (established ==> e.ctl.media.establishedAt <= StartupDeadline(e.ctl.config))
    && (x.finished ==> x.at <= (if established then DurationDeadline(e) else StartupDeadline(e.ctl.config)))
    && (x.finished && x.attempts != [] && x.attempts[0].LocalDurationReached? ==> x.at == DurationDeadline(e))
    && (x.finished && x.attempts != [] && x.attempts[0].StartupTimeout? ==> x.at == StartupDeadline(e.ctl.config))
  }

  predicate ClockFits(config: AppConfig, e: Endpoint) {
    e.ctl.config == config && TimersFit(e) && EstablishedFits(e)
  }

  /** A handler that leaves media, clock and timers alone; it may end the call, for a reason that is no timer's. */
  predicate Steady(e: Endpoint, f: Endpoint) {
    && f.ctl.config == e.ctl.config && f.ctl.media == e.ctl.media
    && f.peer.reports.observed == e.peer.reports.observed
    && f.thread.now == e.thread.now && f.thread.timers == e.thread.timers
    && (e.thread.quit ==> f.thread.quit)
    && e.ctl.ending.attempts <= f.ctl.ending.attempts
    && (e.ctl.ending.finished ==> f.ctl.ending.finished)
    && if f.ctl.ending.finished == e.ctl.ending.finished
       then f.ctl.generations == e.ctl.generations && f.ctl.ending.at == e.ctl.ending.at
       else
         && f.ctl.generations == Generations(e.ctl.generations.startup + 1, e.ctl.generations.duration + 1)
         && f.ctl.ending.at == e.thread.now && f.ctl.ending.attempts != []
         && !f.ctl.ending.attempts[0].LocalDurationReached? && !f.ctl.ending.attempts[0].StartupTimeout?
  }

  lemma SteadyFits(config: AppConfig, e: Endpoint, f: Endpoint)
    requires EndingFits(e) && ClockFits(config, e) && Steady(e, f) && !e.thread.quit
    ensures ClockFits(config, f)
  {
    hide EverTogether, ConnectedNow;
  }

  predicate Recorded(e: Endpoint) {
    e.ctl.ending.finished <==> e.ctl.ending.attempts != []
  }

  lemma FinishSteady(e: Endpoint, reason: TerminalReason)
    requires Recorded(e) && !reason.LocalDurationReached? && !reason.StartupTimeout?
    ensures Steady(e, Finish(e, reason))
  {
  }

  lemma StartRemoteSteady(e: Endpoint, t: SdpType, m: Message)
    requires Recorded(e)
    ensures Steady(e, StartRemote(e, t, m))
  {
    hide Finish;
    var f := e.(ctl := SetInFlight(e.ctl.(state := Negotiating), true));
    var (p, parsed) := SetRemote(f.peer, t, m);
    FinishSteady(f.(peer := p, ctl := SetInFlight(f.ctl, false)), PeerConnectionError);
  }

  lemma DispatchSteady(e: Endpoint, m: Message)
    requires Recorded(e)
    ensures Steady(e, Dispatch(e, m))
  {
    hide Finish, StartRemote;
    match m.kind
    case Bye =>
      FinishSteady(e, if e.ctl.media.established then RemoteByeAfterEstablished else RemoteByeBeforeEstablished);
    case Candidate => FinishSteady(e.(peer := AddRemoteCandidate(e.peer, m).0), PeerConnectionError);
    case Answer => StartRemoteSteady(e, SdpAnswer, m);
    case Offer => StartRemoteSteady(e, SdpOffer, m);
    case Unknown => FinishSteady(e, SignalingError);
  }

  lemma ActSteady(e: Endpoint)
    requires Recorded(e) && HasWork(e)
    ensures Steady(e, Act(e))
  {
    hide Dispatch;
    if e.ctl.inbox.pending != [] {
      DispatchSteady(Taken(e), e.ctl.inbox.pending[0]);
    }
  }

  lemma {:induction false} PumpSteady(e: Endpoint)
    requires Alive(e)
    ensures Steady(e, Pump(e))
    decreases Work(e)
  {
    if HasWork(e) {
      ActSteady(e);
      ActAlive(e);
      hide Act, PartsFit;
      PumpSteady(Act(e));
    }
  }

  lemma JoinCompleteSteady(e: Endpoint, response: Option<JoinResponse>)
    requires Recorded(e)
    ensures Steady(e, OnJoinComplete(e, response))
  {
    hide Finish, JoinQueue;
    FinishSteady(e, SignalingError);
    var f := e.(ctl := e.ctl.(joinResponse := response));
    var (p, initialized) := Initialize(f.peer);
    FinishSteady(f.(peer := p), PeerConnectionError);
    FinishSteady(f.(peer := StartMedia(p).0), MediaError);
  }

  lemma OperationDoneSteady(e: Endpoint, i: nat, ok: bool, sdp: string)
    requires Alive(e) && !e.thread.quit && i < |e.peer.operations|
    ensures Steady(e, OnOperationDone(e, i, ok, sdp))
  {
    hide Pump, Finish, CompleteOperation;
    var (p, reply) := CompleteOperation(e.peer, i, ok, sdp);
    OperationFrame(e.peer, i, ok, sdp);
    var f := e.(peer := p, ctl := SetInFlight(e.ctl, false));
    match reply
    case Chained =>
    case ActionFailed => FinishSteady(f, PeerConnectionError);
    case RemoteAnswerSet => PumpSteady(f);
    case LocalDescriptionReady(_) =>
  }

  lemma DoneSteady(e: Endpoint, purpose: Purpose, ok: bool)
    requires Alive(e) && !e.thread.quit
    requires purpose.ForRegister? && ok && !e.ctl.ending.finished ==> e.ctl.negotiation.ready
    ensures Steady(e, OnDone(e, purpose, ok))
  {
    hide Pump, Finish;
    match purpose
    case ForRegister =>
      PumpSteady(e);
      FinishSteady(e, SignalingError);
    case ForDescription =>
      PumpSteady(e.(ctl := SetInFlight(e.ctl, false)));
      FinishSteady(e.(ctl := SetInFlight(e.ctl, false)), SignalingError);
    case ForCandidate => FinishSteady(e, SignalingError);
    case ForBye =>
    case ForJoin =>
    case NoReply =>
  }

  lemma CallbackSteady(e: Endpoint)
    requires Ordered(e) && !e.thread.quit && e.sig.callbacks != []
    ensures Steady(e, RunCallback(e))
  {
    hide Pump, Finish, OnDone, OnJoinComplete, OnWebSocketOpen, QueuesFit, LogFits, LinkFits, WireFits,
      RegistersFit, ByeFits;
    HeadIsFitting(e);
    TookRuns(e);
    var t := Took(e);
    match e.sig.callbacks[0]
    case Opened => OpenedSteady(t);
    case Inbound(m) => PumpSteady(Enqueued(t, m));
    case ErrorNotice => FinishSteady(t, SignalingError);
    case JoinDone(_, response) => JoinCompleteSteady(t, response);
    case Done(task, ok) => DoneSteady(t, task.purpose, ok);
  }

  lemma OpenedSteady(e: Endpoint)
    ensures Steady(e, OnWebSocketOpen(e))
  {
  }

  lemma ObservedMore(observed: seq<Observation>, o: Observation)
    ensures ConnectedNow(observed + [o]) == if o.StateSeen? then o.st.Connected? else ConnectedNow(observed)
    ensures EverTogether(observed + [o])
         == (EverTogether(observed) || (ConnectedNow(observed + [o]) && FrameSeen in observed + [o]))
  {
    assert (observed + [o])[..|observed + [o]| - 1] == observed;
  }

  /** New values of the two media flags, and the call established if both are up for the first time. */
  lemma MarkFits(config: AppConfig, e: Endpoint, f: Endpoint, o: Observation)
    requires ClockFits(config, e) && !e.thread.quit && !e.ctl.ending.finished
    requires f.ctl == e.ctl.(media := f.ctl.media) && f.thread == e.thread
    requires f.peer.reports.observed == e.peer.reports.observed + [o]
    requires f.ctl.media == e.ctl.media.(connected := ConnectedNow(f.peer.reports.observed),
                                         mediaSeen := FrameSeen in f.peer.reports.observed)
    ensures ClockFits(config, MaybeMarkCallEstablished(f))
  {
    ObservedMore(e.peer.reports.observed, o);
    hide EverTogether, ConnectedNow;
  }

  lemma UnmarkedFits(config: AppConfig, e: Endpoint, f: Endpoint, o: Observation)
    requires ClockFits(config, e) && f.ctl == e.ctl && f.thread == e.thread
    requires f.peer.reports.observed == e.peer.reports.observed + [o]
    requires !e.ctl.ending.finished ==>
      && e.ctl.media.connected == ConnectedNow(f.peer.reports.observed)
      && e.ctl.media.mediaSeen == (FrameSeen in f.peer.reports.observed)
    ensures ClockFits(config, f)
  {
    ObservedMore(e.peer.reports.observed, o);
    if !e.ctl.ending.finished && e.ctl.media.connected && e.ctl.media.mediaSeen {
      EstablishedSoon(e);
    }
    hide EverTogether, ConnectedNow;
  }

  /** Both flags up means established. */
  lemma EstablishedSoon(e: Endpoint)
    requires EstablishedFits(e) && !e.ctl.ending.finished && e.ctl.media.connected && e.ctl.media.mediaSeen
    ensures e.ctl.media.established
  {
  }

  lemma EdgeFits(config: AppConfig, e: Endpoint, st: ConnectionState)
    requires Alive(e) && ClockFits(config, e) && Enabled(e, ConnectionChange(st))
    ensures ClockFits(config, OnConnectionEdge(e, st))
  {
    ObservedMore(e.peer.reports.observed, StateSeen(st));
    hide EverTogether, ConnectedNow, MaybeMarkCallEstablished;
    var reports := Reported(e.peer, StateSeen(st));
    if reports.connected == st.Connected? || e.ctl.ending.finished {
      UnmarkedFits(config, e, OnConnectionEdge(e, st), StateSeen(st));
    } else {
      var f := e.(peer := e.peer.(reports := reports.(connected := st.Connected?)),
                  ctl := e.ctl.(media := e.ctl.media.(connected := st.Connected?)));
      MarkFits(config, e, f, StateSeen(st));
    }
  }

  lemma FrameFits(config: AppConfig, e: Endpoint)
    requires Alive(e) && ClockFits(config, e) && Enabled(e, VideoFrame)
    ensures ClockFits(config, OnFrame(e))
  {
    ObservedMore(e.peer.reports.observed, FrameSeen);
    hide EverTogether, ConnectedNow, MaybeMarkCallEstablished;
    var reports := Reported(e.peer, FrameSeen);
    if reports.mediaSeen || e.ctl.ending.finished {
      UnmarkedFits(config, e, OnFrame(e), FrameSeen);
    } else {
      var f := e.(peer := e.peer.(reports := reports.(mediaSeen := true)),
                  ctl := e.ctl.(media := e.ctl.media.(mediaSeen := true)));
      MarkFits(config, e, f, FrameSeen);
    }
  }

  lemma ConnectionChangeFits(config: AppConfig, e: Endpoint, st: ConnectionState)
    requires Alive(e) && ClockFits(config, e) && Enabled(e, ConnectionChange(st))
    ensures ClockFits(config, OnConnectionChange(e, st))
  {
    hide Finish, OnConnectionEdge, PartsFit, ClockFits, Enabled;
    EdgeFits(config, e, st);
    ConnectionEdgeAlive(e, st);
    var f := OnConnectionEdge(e, st);
    FinishSteady(f, PeerConnectionError);
    SteadyFits(config, f, Finish(f, PeerConnectionError));
  }

  /** The timer at `i` is the one the call is waiting for: firing it ends the call. */
  predicate Live(e: Endpoint, i: nat) {
    && i < |e.thread.timers| && !e.ctl.ending.finished
    && match e.thread.timers[i].kind
       case StartupTimer => e.thread.timers[i].generation == e.ctl.generations.startup && !e.ctl.media.established
       case DurationTimer => e.thread.timers[i].generation == e.ctl.generations.duration && e.ctl.media.established
  }

  lemma StaleTimer(e: Endpoint, i: nat)
    requires i < |e.thread.timers|
    ensures !Live(e, i) ==> OnTimer(e, i) == e.(thread := e.thread.(timers := Without(e.thread.timers, i)))
    ensures Live(e, i) ==> OnTimer(e, i).ctl.ending.finished
  {
  }

  lemma WithoutMembers<T>(xs: seq<T>, i: nat)
    requires i < |xs|
    ensures forall x <- Without(xs, i) :: x in xs
  {
  }

  lemma StaleFits(config: AppConfig, e: Endpoint, i: nat)
    requires ClockFits(config, e) && Enabled(e, TimerFires(i)) && !Live(e, i)
    ensures ClockFits(config, e.(thread := e.thread.(timers := Without(e.thread.timers, i))))
  {
    hide EverTogether, ConnectedNow;
    WithoutMembers(e.thread.timers, i);
    if !e.ctl.ending.finished {
      assert i == 0 && e.thread.timers == [TheStartupTimer(e), TheDurationTimer(e)];
      assert Without(e.thread.timers, i) == [TheDurationTimer(e)];
    }
  }

  lemma FiredFits(config: AppConfig, e: Endpoint, i: nat)
    requires Alive(e) && ClockFits(config, e) && Enabled(e, TimerFires(i)) && Live(e, i)
    ensures ClockFits(config, OnTimer(e, i))
  {
    hide EverTogether, ConnectedNow, Without;
    WithoutMembers(e.thread.timers, i);
  }

  lemma TimerFits(config: AppConfig, e: Endpoint, i: nat)
    requires Alive(e) && ClockFits(config, e) && Enabled(e, TimerFires(i))
    ensures ClockFits(config, OnTimer(e, i))
  {
    hide Alive, ClockFits, OnTimer, Live;
    StaleTimer(e, i);
    if Live(e, i) {
      FiredFits(config, e, i);
    } else {
      StaleFits(config, e, i);
    }
  }

  lemma ClockAdvanceFits(config: AppConfig, e: Endpoint, to: nat)
    requires ClockFits(config, e) && Enabled(e, ClockAdvances(to))
    ensures ClockFits(config, Apply(e, ClockAdvances(to)))
  {
    hide EverTogether, ConnectedNow;
  }

  lemma ThreadSteady(e: Endpoint, ev: Event)
    requires Ordered(e) && Enabled(e, ev)
    requires ev.Callback? || ev.OperationDone? || ev.LocalCandidate?
    ensures Steady(e, Apply(e, ev)) && !e.thread.quit
  {
    hide Ordered, RunCallback, OnOperationDone, SerializeIceCandidate;
    OrderedQueues(e);
    match ev
    case Callback => CallbackSteady(e);
    case OperationDone(i, ok, sdp) => OperationDoneSteady(e, i, ok, sdp);
    case LocalCandidate(_, _, _) =>
  }

  lemma NetworkSideFits(config: AppConfig, e: Endpoint, s: Signaling)
    requires ClockFits(config, e)
    ensures ClockFits(config, e.(sig := s))
  {
    hide EverTogether, ConnectedNow;
  }

  lemma ApplyClock(config: AppConfig, e: Endpoint, ev: Event)
    requires Ordered(e) && ClockFits(config, e) && Enabled(e, ev)
    ensures ClockFits(config, Apply(e, ev))
  {
    hide Ordered, ClockFits, PartsFit, RunCallback, RunNetworkTask, OnOperationDone, OnLocalCandidate,
      OnConnectionChange, OnFrame, OnTimer, OnSocketMessage, SerializeIceCandidate, Steady;
    OrderedQueues(e);
    match ev
    case Callback =>
      ThreadSteady(e, ev);
      SteadyFits(config, e, Apply(e, ev));
    case OperationDone(_, _, _) =>
      ThreadSteady(e, ev);
      SteadyFits(config, e, Apply(e, ev));
    case LocalCandidate(_, _, _) =>
      ThreadSteady(e, ev);
      SteadyFits(config, e, Apply(e, ev));
    case ConnectionChange(st) => ConnectionChangeFits(config, e, st);
    case VideoFrame => FrameFits(config, e);
    case TimerFires(i) => TimerFits(config, e, i);
    case ClockAdvances(to) => ClockAdvanceFits(config, e, to);
    case _ => NetworkSideFits(config, e, Apply(e, ev).sig);
  }

  lemma {:induction false} RunClock(config: AppConfig, verdicts: nat -> bool, events: seq<Event>)
    ensures ClockFits(config, Run(Started(config, verdicts), events))
  {
    hide Ordered, Apply, ClockFits;
    if events == [] {
      StartedClock(config, verdicts);
    } else {
      RunClock(config, verdicts, events[..|events| - 1]);
      RunOrdered(config, verdicts, events[..|events| - 1]);
      var e := Run(Started(config, verdicts), events[..|events| - 1]);
      if Enabled(e, Last(events)) {
        ApplyClock(config, e, Last(events));
      }
    }
  }

  lemma StartedClock(config: AppConfig, verdicts: nat -> bool)
    ensures ClockFits(config, Started(config, verdicts))
  {
  }

  /** Bounded time: with a validated configuration, once the clock is past the timeout plus the call duration,
      hence before twice the timeout, the call has been ended, whatever happened. */
  lemma BoundedTime(config: AppConfig, verdicts: nat -> bool, events: seq<Event>)
    requires ValidateConfig(config).None?
    ensures var e := Run(Started(config, verdicts), events);
      && (!e.ctl.ending.finished ==> e.thread.now <= config.timeoutSeconds + config.callDurationSeconds)
      && (!e.ctl.ending.finished && !e.ctl.media.established ==> e.thread.now <= config.timeoutSeconds)
      && (e.ctl.ending.finished ==> e.ctl.ending.at <= config.timeoutSeconds + config.callDurationSeconds)
      && (e.thread.now >= 2 * config.timeoutSeconds ==> e.ctl.ending.finished)
  {
    hide Started, Apply, EstablishedFits, Ordered;
    RunClock(config, verdicts, events);
    RunOrdered(config, verdicts, events);
    var e := Run(Started(config, verdicts), events);
    if !e.ctl.ending.finished {
      NotQuit(e);
      assert Last(e.thread.timers) in e.thread.timers;
    }
  }

  /** The moments, in the configuration's own numbers: a call that times out does so at the timeout and one that hangs
      up does so when it has lasted its duration; a timer that ends the call runs at that moment and no sooner. */
  lemma TimersAreOnTime(config: AppConfig, verdicts: nat -> bool, events: seq<Event>)
    requires ValidateConfig(config).None?
    ensures var e := Run(Started(config, verdicts), events);
      var x := e.ctl.ending;
      && (x.attempts != [] && x.attempts[0] == StartupTimeout ==> x.at == config.timeoutSeconds)
      && (x.attempts != [] && x.attempts[0] == LocalDurationReached ==>
            x.at == e.ctl.media.establishedAt + config.callDurationSeconds)
      && (forall i | Live(e, i) && Enabled(e, TimerFires(i)) ::
            e.thread.now == if e.ctl.media.established then e.ctl.media.establishedAt + config.callDurationSeconds
                            else config.timeoutSeconds)
  {
    hide Started, Apply, EstablishedFits, Ordered;
    RunClock(config, verdicts, events);
    RunOrdered(config, verdicts, events);
    OrderedQueues(Run(Started(config, verdicts), events));
  }

  lemma NotQuit(e: Endpoint)
    requires Ordered(e) && !e.ctl.ending.finished
    ensures !e.thread.quit
  {
    hide QueuesFit, LogFits, LinkFits, WireFits, RegistersFit, ByeFits, PartsFit;
  }

  /** What was already recorded stays, and what is new is recorded with the present time; a call just established is
      shown as connected. */
  predicate Timely(e: Endpoint, f: Endpoint) {
    && (if e.ctl.media.established
        then f.ctl.media.established && f.ctl.media.establishedAt == e.ctl.media.establishedAt
        else f.ctl.media.established ==> f.ctl.media.establishedAt == e.thread.now && f.ctl.state == InCall)
    && (if e.ctl.ending.finished then f.ctl.ending.finished && f.ctl.ending.at == e.ctl.ending.at
        else f.ctl.ending.finished ==> f.ctl.ending.at == e.thread.now)
  }

  lemma FinishTimely(e: Endpoint, reason: TerminalReason)
    ensures Timely(e, Finish(e, reason)) && Finish(e, reason).ctl.media == e.ctl.media
  {
    hide ByeMessage;
  }

  lemma ReportTimely(e: Endpoint, st: ConnectionState)
    ensures Timely(e, OnConnectionChange(e, st)) && Timely(e, OnFrame(e))
  {
    hide Finish;
    FinishTimely(OnConnectionEdge(e, st), PeerConnectionError);
  }

  lemma TimerTimely(e: Endpoint, i: nat)
    requires i < |e.thread.timers|
    ensures Timely(e, OnTimer(e, i))
  {
    hide Finish;
    var f := e.(thread := e.thread.(timers := Without(e.thread.timers, i)));
    FinishTimely(f, StartupTimeout);
    FinishTimely(f, LocalDurationReached);
  }

  lemma SteadyTimely(e: Endpoint, f: Endpoint)
    requires Steady(e, f)
    ensures Timely(e, f)
  {
  }

  lemma ApplyTimely(e: Endpoint, ev: Event)
    requires Ordered(e) && Enabled(e, ev)
    ensures Timely(e, Apply(e, ev))
  {
    hide Ordered, Steady, RunCallback, RunNetworkTask, OnOperationDone, OnLocalCandidate, OnConnectionChange, OnFrame,
      OnTimer, OnSocketMessage, SerializeIceCandidate;
    match ev {
      case ConnectionChange(st) => ReportTimely(e, st);
      case VideoFrame => ReportTimely(e, NewState);
      case TimerFires(i) => TimerTimely(e, i);
      case Callback =>
        ThreadSteady(e, ev);
        SteadyTimely(e, Apply(e, ev));
      case OperationDone(_, _, _) =>
        ThreadSteady(e, ev);
        SteadyTimely(e, Apply(e, ev));
      case LocalCandidate(_, _, _) =>
        ThreadSteady(e, ev);
        SteadyTimely(e, Apply(e, ev));
      case _ =>
    }
  }

  /** The time at which a run reached, by one event, a state of this kind for the first time. */
  function FirstTime(kind: Endpoint -> bool, e: Endpoint, events: seq<Event>): Option<nat> {
    if events == [] then None
    else
      var before := events[..|events| - 1];
      if FirstTime(kind, e, before).Some? then FirstTime(kind, e, before)
      else if kind(Run(e, events)) then Some(Run(e, before).thread.now)
      else None
  }

  predicate Ended(e: Endpoint) {
    e.ctl.ending.finished
  }

  predicate Established(e: Endpoint) {
    e.ctl.media.established
  }

  /** The two times a call keeps are those of the clock when it ended and when it was established, once and for all. */
  lemma {:induction false} TimesAreRecorded(config: AppConfig, verdicts: nat -> bool, events: seq<Event>)
    ensures var first := Started(config, verdicts); var e := Run(first, events);
      && FirstTime(Ended, first, events) == (if Ended(e) then Some(e.ctl.ending.at) else None)
      && FirstTime(Established, first, events)
           == (if Established(e) then Some(e.ctl.media.establishedAt) else None)
  {
    hide Ordered, Apply;
    if events != [] {
      hide Started;
      var before := events[..|events| - 1];
      TimesAreRecorded(config, verdicts, before);
      RunOrdered(config, verdicts, before);
      var e := Run(Started(config, verdicts), before);
      if Enabled(e, Last(events)) {
        ApplyTimely(e, Last(events));
      }
    }
  }

  /** Exactly one watchdog: until the call ends exactly one timer is live, afterwards none; the live one, when it
      fires, ends the call, and any other then only leaves the list; the generation counters never pass 3 and 2. */
  lemma OneWatchdog(config: AppConfig, verdicts: nat -> bool, events: seq<Event>)
    ensures var e := Run(Started(config, verdicts), events);
      && (!e.ctl.ending.finished ==> exists i :: Live(e, i) && forall j :: Live(e, j) ==> j == i)
      && (e.ctl.ending.finished ==> forall j :: !Live(e, j))
      && (forall i | Enabled(e, TimerFires(i)) ::
            var f := Apply(e, TimerFires(i));
            if Live(e, i) then f.ctl.ending.finished
            else f == e.(thread := e.thread.(timers := Without(e.thread.timers, i))))
      && e.ctl.generations.startup == 1 + e.ctl.generations.duration
      && e.ctl.generations.duration == Bit(e.ctl.media.established) + Bit(e.ctl.ending.finished)
  {
    hide Started, Apply, EstablishedFits, TimersFit, Live, Without;
    RunClock(config, verdicts, events);
    var e := Run(Started(config, verdicts), events);
    FiredTells(e);
    LiveTimers(e);
  }

  lemma LiveTimers(e: Endpoint)
    requires TimersFit(e)
    ensures !e.ctl.ending.finished ==> exists i :: Live(e, i) && forall j :: Live(e, j) ==> j == i
    ensures e.ctl.ending.finished ==> forall j :: !Live(e, j)
    ensures e.ctl.generations.startup == 1 + e.ctl.generations.duration
    ensures e.ctl.generations.duration == Bit(e.ctl.media.established) + Bit(e.ctl.ending.finished)
  {
    hide DurationDeadline, StartupDeadline;
    if !e.ctl.ending.finished {
      assert Live(e, |e.thread.timers| - 1);
    }
  }

  lemma FiredTells(e: Endpoint)
    ensures forall i | Enabled(e, TimerFires(i)) ::
      var f := Apply(e, TimerFires(i));
      if Live(e, i) then f.ctl.ending.finished
      else f == e.(thread := e.thread.(timers := Without(e.thread.timers, i)))
  {
    hide OnTimer, Live;
    forall i | Enabled(e, TimerFires(i)) {
      StaleTimer(e, i);
    }
  }

  /** Establishment: until the call ends, the controller counts the call as established exactly when at some
      past moment the connection was up with media seen, and its two flags are those of the last report. */
  lemma EstablishedByHistory(config: AppConfig, verdicts: nat -> bool, events: seq<Event>)
    ensures var e := Run(Started(config, verdicts), events);
      var observed := e.peer.reports.observed;
      && (!e.ctl.ending.finished ==>
            && e.ctl.media.established == EverTogether(observed)
            && e.ctl.media.connected == ConnectedNow(observed) == e.peer.reports.connected
            && e.ctl.media.mediaSeen == (FrameSeen in observed) == e.peer.reports.mediaSeen)
      && (e.ctl.media.established ==> EverTogether(observed))
  {
    hide Started, Apply, TimersFit, EverTogether, ConnectedNow, Ordered;
    RunClock(config, verdicts, events);
    RunOrdered(config, verdicts, events);
    OrderedQueues(Run(Started(config, verdicts), events));
  }
}
