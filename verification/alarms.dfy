/** Nothing that goes wrong with the socket or with a request goes unnoticed. */
module Alarms {
  import opened Sequences
  import opened Common
  import opened SignalingSpec
  import opened ControllerSpec
  import opened EndpointRuns
  import opened WireOrder
  import opened RelayTexts
  import opened AfterEnd
  import opened Shutdown

  /** The answer of the network side to the request at the head of its queue is a failure. */
  predicate RequestFails(s: Signaling, o: NetOutcome) {
    s.network != [] &&
    match o
    case JoinOutcome(reply) => !reply.Accepted?
    case SendOutcomeOf(sent) => !sent.Delivered? || (!s.network[0].op.RoomPost? && !s.link.websocketOpen)
    case Completed => false
  }

  /** Something goes wrong: the socket closes unasked, fails, or brings something that is no message, or a request
      fails. */
  predicate GoesWrong(e: Endpoint, ev: Event) {
    Enabled(e, ev) &&
    match ev
    case Network(o) => RequestFails(e.sig, o)
    case SocketClose => !e.sig.link.closing
    case SocketError => true
    case SocketMessage(Garbled) => true
    case SocketMessage(ServerError) => true
    case SocketMessage(Payload(text)) => text == Malformed
    case _ => false
  }

  /** A callback task that ends a call. */
  predicate Alarm(c: CallbackTask) {
    c.ErrorNotice? || (c.JoinDone? && c.response.None?) || (c.Done? && !c.ok)
  }

  lemma AlarmIsRaised(e: Endpoint, ev: Event)
    requires GoesWrong(e, ev)
    ensures var cs := Apply(e, ev).sig.callbacks; |cs| == |e.sig.callbacks| + 1 && Alarm(Last(cs))
  {
    hide FrameOf;
  }

  lemma AlarmEnds(e: Endpoint)
    requires Ordered(e) && !e.thread.quit && e.sig.callbacks != [] && Alarm(e.sig.callbacks[0])
    ensures RunCallback(e).ctl.ending.finished
  {
    if e.sig.callbacks[0].Done? {
      FailureEnds(e);
    }
    hide Ordered, OnDone;
  }

  /** The alarm is still to come, behind `n` other callbacks, unless the call has ended. */
  predicate AlarmWaits(e: Endpoint, n: int) {
    e.ctl.ending.finished || (0 <= n < |e.sig.callbacks| && Alarm(e.sig.callbacks[n]))
  }

  lemma AlarmNears(e: Endpoint, ev: Event, n: int)
    requires Ordered(e) && Enabled(e, ev) && AlarmWaits(e, n)
    ensures AlarmWaits(Apply(e, ev), n - Bit(ev.Callback?))
  {
    hide Ordered, Enabled, Absorbed, Alarm;
    if e.ctl.ending.finished {
      hide Apply;
      ApplyAbsorbed(e, ev);
      EndStays(e, Apply(e, ev));
    } else if ev.Callback? {
      hide RunCallback;
      NotQuitYet(e, ev);
      if n == 0 {
        AlarmEnds(e);
      } else {
        CallbackDelivers(e);
      }
    } else {
      hide Apply;
      OthersDeliver(e, ev);
    }
  }

  lemma NotQuitYet(e: Endpoint, ev: Event)
    requires Enabled(e, ev) && ev.Callback?
    ensures !e.thread.quit && e.sig.callbacks != []
  {
  }

  lemma {:induction false} AlarmApproaches(config: AppConfig, verdicts: nat -> bool,
                                           before: seq<Event>, after: seq<Event>)
    requires var f := Run(Started(config, verdicts), before); f.sig.callbacks != [] && Alarm(Last(f.sig.callbacks))
    ensures var f := Run(Started(config, verdicts), before);
      AlarmWaits(Run(Started(config, verdicts), before + after), |f.sig.callbacks| - 1 - CallbackSteps(f, after))
    decreases |after|
  {
    hide Ordered, Apply, Enabled, Started, Alarm;
    var f := Run(Started(config, verdicts), before);
    if after == [] {
      assert before + after == before;
    } else {
      hide AlarmWaits;
      var some := after[..|after| - 1];
      assert (before + after)[..|before + after| - 1] == before + some && Last(before + after) == Last(after);
      AlarmApproaches(config, verdicts, before, some);
      RunOrdered(config, verdicts, before + some);
      RunAppend(Started(config, verdicts), before, some);
      var g := Run(Started(config, verdicts), before + some);
      if Enabled(g, Last(after)) {
        AlarmNears(g, Last(after), |f.sig.callbacks| - 1 - CallbackSteps(f, some));
      }
    }
  }

  /** Whatever goes wrong ends the call, whatever else happens meanwhile: once the socket has closed unasked or failed,
      has brought something that is no message, or a request has failed, the call has ended by the time that the
      callbacks waiting then have run. */
  lemma FailuresEndTheCall(config: AppConfig, verdicts: nat -> bool, before: seq<Event>, ev: Event, after: seq<Event>)
    requires GoesWrong(Run(Started(config, verdicts), before), ev)
    requires var f := Run(Started(config, verdicts), before + [ev]);
      CallbackSteps(f, after) >= |f.sig.callbacks|
    ensures Run(Started(config, verdicts), before + [ev] + after).ctl.ending.finished
  {
    hide Apply, Started, Alarm, Run, CallbackSteps;
    var e := Run(Started(config, verdicts), before);
    RunAppend(Started(config, verdicts), before, [ev]);
    RunOne(e, ev);
    AlarmIsRaised(e, ev);
    AlarmApproaches(config, verdicts, before + [ev], after);
  }
}
