/** One peer as a whole: the events its threads can see, and its runs. */
module EndpointRuns {
  import opened Sequences
  import opened Common
  import opened PeerConnectionSpec
  import opened SignalingSpec
  import opened ControllerSpec

  datatype Event =
    | Network(outcome: NetOutcome)
    | SocketOpen
    | SocketClose
    | SocketError
    | SocketMessage(frame: SocketFrame)
    | Callback
    | OperationDone(i: nat, ok: bool, sdp: string)
    | LocalCandidate(candidate: string, mid: string, mline: int)
    | ConnectionChange(st: ConnectionState)
    | VideoFrame
    | TimerFires(timer: nat)
    | ClockAdvances(to: nat)

  predicate LocalDescriptionStarted(p: Peer) {
    SetLocalCall(SdpOffer) in p.calls || SetLocalCall(SdpAnswer) in p.calls
  }

  predicate RemoteDescriptionStarted(p: Peer) {
    SetRemoteCall(SdpOffer) in p.calls || SetRemoteCall(SdpAnswer) in p.calls
  }

  /** What the environment may do next. Nothing more runs on the signaling thread once it was told to quit. */
  predicate Enabled(e: Endpoint, ev: Event) {
    match ev
    case Network(o) => OutcomeFits(e.sig, o)
    case SocketOpen => e.sig.link.socket.Down?
    case SocketClose => !e.sig.link.socket.NotStarted?
    case SocketError => !e.sig.link.socket.NotStarted?
    case SocketMessage(_) => e.sig.link.socket.Up?
    case Callback => !e.thread.quit && e.sig.callbacks != []
    case OperationDone(i, _, _) => !e.thread.quit && i < |e.peer.operations|
    case LocalCandidate(_, _, _) => !e.thread.quit && e.peer.open && LocalDescriptionStarted(e.peer)
    case ConnectionChange(st) =>
      && !e.thread.quit && e.peer.open
      && (st.Connected? ==> LocalDescriptionStarted(e.peer) && RemoteDescriptionStarted(e.peer))
    case VideoFrame => !e.thread.quit && e.peer.open
    case TimerFires(i) => !e.thread.quit && i < |e.thread.timers| && e.thread.timers[i].deadline <= e.thread.now
    case ClockAdvances(to) =>
      e.thread.now <= to && (e.thread.quit || forall t <- e.thread.timers :: to <= t.deadline)
  }

  function Apply(e: Endpoint, ev: Event): Endpoint
    requires Enabled(e, ev)
  {
    match ev
    case Network(o) => e.(sig := RunNetworkTask(e.sig, o))
    case SocketOpen => e.(sig := OnSocketOpen(e.sig))
    case SocketClose => e.(sig := OnSocketClose(e.sig))
    case SocketError => e.(sig := OnSocketError(e.sig))
    case SocketMessage(f) => e.(sig := OnSocketMessage(e.sig, f))
    case Callback => RunCallback(e)
    case OperationDone(i, ok, sdp) => OnOperationDone(e, i, ok, sdp)
    case LocalCandidate(candidate, mid, mline) => OnLocalCandidate(e, SerializeIceCandidate(candidate, mid, mline))
    case ConnectionChange(st) => OnConnectionChange(e, st)
    case VideoFrame => OnFrame(e)
    case TimerFires(i) => OnTimer(e, i)
    case ClockAdvances(to) => e.(thread := e.thread.(now := to))
  }

  /** An event that cannot happen now changes nothing. */
  function Step(e: Endpoint, ev: Event): Endpoint {
    if Enabled(e, ev) then Apply(e, ev) else e
  }

  /** The state after a sequence of events, the last one last. */
  function Run(e: Endpoint, events: seq<Event>): Endpoint {
    if events == [] then e else Step(Run(e, events[..|events| - 1]), events[|events| - 1])
  }

  /** The state once Start has returned. */
  function Started(config: AppConfig, verdicts: nat -> bool): Endpoint {
    Start(NewEndpoint(config, verdicts))
  }

  /** A run goes on after a run. */
  lemma {:induction false} RunAppend(e: Endpoint, before: seq<Event>, after: seq<Event>)
    ensures Run(e, before + after) == Run(Run(e, before), after)
    decreases |after|
  {
    hide Step;
    if after == [] {
      assert before + after == before;
    } else {
      var all := before + after;
      assert all[..|all| - 1] == before + after[..|after| - 1] && Last(all) == Last(after);
      RunAppend(e, before, after[..|after| - 1]);
    }
  }

  lemma RunOne(e: Endpoint, ev: Event)
    ensures Run(e, [ev]) == Step(e, ev)
  {
    assert [ev][..0] == [];
    assert Run(e, []) == e;
  }

  lemma RunTwo(e: Endpoint, a: Event, b: Event)
    ensures Run(e, [a, b]) == Step(Step(e, a), b)
  {
    hide Step;
    RunOne(e, a);
    assert [a, b][..1] == [a];
  }

  lemma RunThree(e: Endpoint, a: Event, b: Event, c: Event)
    ensures Run(e, [a, b, c]) == Step(Step(Step(e, a), b), c)
  {
    hide Step;
    RunTwo(e, a, b);
    assert [a, b, c][..2] == [a, b];
  }
}
