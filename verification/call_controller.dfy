/** The object form of src/apprtc_call.cc: the controller with its two clients, on its signaling thread. */
module CallControl {
  import opened Sequences
  import opened Common
  import opened PeerConnectionSpec
  import opened SignalingSpec
  import opened ControllerSpec
  import opened EndpointRuns
  import opened PeerConnection
  import opened SignalingClient
  import opened Lifecycle
  import opened WireOrder
  import opened Verdicts

  /** A candidate that the peer client takes is the only work after which the pump goes on. */
  predicate GoesOnAfter(e: Endpoint) {
    && e.ctl.inbox.pending != [] && e.ctl.inbox.pending[0].kind.Candidate?
    && AddRemoteCandidate(e.peer, e.ctl.inbox.pending[0]).1
  }

  /** How the pump unfolds. */
  lemma PumpTurn(e: Endpoint)
    ensures Pump(e) == if HasWork(e) then Pump(Act(e)) else e
    ensures HasWork(e) && !GoesOnAfter(e) ==> Pump(e) == Act(e)
  {
    if HasWork(e) && !GoesOnAfter(e) {
      TurnStops(e);
    }
    hide Act;
  }

  lemma TurnStops(e: Endpoint)
    requires HasWork(e) && !GoesOnAfter(e)
    ensures !HasWork(Act(e))
  {
    hide AddRemoteCandidate, ByeMessage;
  }

  /** Every event of a run can happen when it does. */
  ghost predicate AllEnabled(e: Endpoint, events: seq<Event>) {
    forall i | 0 <= i < |events| :: Enabled(EndpointRuns.Run(e, events[..i]), events[i])
  }

  lemma StartedByStart(config: AppConfig, verdicts: nat -> bool)
    ensures Started(config, verdicts) == Start(NewEndpoint(config, verdicts))
  {
  }

  /** The clock and the delayed tasks of the signaling thread. */
  class TaskQueue {
    var now: nat
    var timers: seq<Timer>
    var quit: bool

    ghost function View(): SignalingThread
      reads this
    {
      SignalingThread(now, timers, quit)
    }

    constructor ()
      ensures View() == SignalingThread(0, [], false)
    {
      now, timers, quit := 0, [], false;
    }

    method PostDelayedTask(kind: TimerKind, generation: nat, delay: nat)
      modifies this`timers
      ensures View() == PostDelayed(old(View()), kind, generation, delay)
    {
      timers := timers + [Timer(kind, generation, now + delay)];
    }

    method TakeTimer(i: nat) returns (timer: Timer)
      requires i < |timers|
      modifies this`timers
      ensures timer == old(timers)[i]
      ensures View() == old(View()).(timers := Without(old(timers), i))
    {
      timer := timers[i];
      timers := Without(timers, i);
    }

    method Quit()
      modifies this`quit
      ensures View() == old(View()).(quit := true)
    {
      quit := true;
    }

    method AdvanceTo(to: nat)
      modifies this`now
      ensures View() == old(View()).(now := to)
    {
      now := to;
    }
  }

  class CallController {
    const config: AppConfig
    const thread: TaskQueue
    const signalingClient: AppRtcSignalingClient
    const peerClient: PeerConnectionClient
    var joinResponse: Option<JoinResponse>
    var pendingSignalingMessages: seq<Message>
    var state: CallState
    var exitCode: ExitCode
    var startupTimeoutGeneration: nat
    var callDurationGeneration: nat
    var negotiationReady: bool
    var signalingActionInFlight: bool
    var offerStarted: bool
    var peerConnected: bool
    var remoteMediaSeen: bool
    var callEstablished: bool
    var finished: bool
    ghost var inbound: seq<Message>
    ghost var dispatched: seq<Message>
    ghost var establishedAt: nat
    ghost var attempts: seq<TerminalReason>
    ghost var completions: nat
    ghost var finishedAt: nat

    ghost function Own(): Controller
      reads this
    {
      Controller(
        config, joinResponse, state, Negotiation(negotiationReady, signalingActionInFlight, offerStarted),
        Inbox(pendingSignalingMessages, inbound, dispatched),
        CallMedia(peerConnected, remoteMediaSeen, callEstablished, establishedAt),
        Generations(startupTimeoutGeneration, callDurationGeneration),
        Ending(finished, exitCode, attempts, completions, finishedAt))
    }

    ghost function View(): Endpoint
      reads this, thread, signalingClient, peerClient
    {
      Endpoint(Own(), peerClient.View(), signalingClient.View(), thread.View())
    }

    ghost predicate Valid()
      reads this, signalingClient
    {
      signalingClient.Valid()
    }

    constructor (config: AppConfig, verdicts: nat -> bool)
      ensures Valid() && View() == NewEndpoint(config, verdicts)
      ensures fresh(thread) && fresh(signalingClient) && fresh(peerClient)
      ensures this.config == config && peerClient.verdicts == verdicts
    {
      this.config := config;
      thread := new TaskQueue();
      signalingClient := new AppRtcSignalingClient();
      peerClient := new PeerConnectionClient(verdicts);
      joinResponse, pendingSignalingMessages, state, exitCode := None, [], Starting, RuntimeFailed;
      startupTimeoutGeneration, callDurationGeneration := 0, 0;
      negotiationReady, signalingActionInFlight, offerStarted := false, false, false;
      peerConnected, remoteMediaSeen, callEstablished, finished := false, false, false, false;
      inbound, dispatched, establishedAt, attempts, completions, finishedAt := [], [], 0, [], 0, 0;
    }

    /** What the fields say of the abstract value. */
    lemma Fields()
      ensures Own().joinResponse == joinResponse && Own().config == config && Own().state == state
      ensures Own().negotiation == Negotiation(negotiationReady, signalingActionInFlight, offerStarted)
      ensures Own().inbox.pending == pendingSignalingMessages
      ensures Own().media.connected == peerConnected && Own().media.mediaSeen == remoteMediaSeen
      ensures Own().media.established == callEstablished
      ensures Own().generations == Generations(startupTimeoutGeneration, callDurationGeneration)
      ensures Own().ending.finished == finished && Own().ending.exitCode == exitCode
    {
    }

    method SetState(next: CallState)
      modifies this
      ensures Own() == old(Own()).(state := next)
    {
      if state == next {
        return;
      }
      state := next;
    }

    method ScheduleStartupTimeout()
      modifies this, thread
      ensures View() == ControllerSpec.ScheduleStartupTimeout(old(View()))
    {
      startupTimeoutGeneration := startupTimeoutGeneration + 1;
      thread.PostDelayedTask(StartupTimer, startupTimeoutGeneration, Seconds(config.timeoutSeconds));
    }

    method CancelStartupTimeout()
      modifies this
      ensures Own() == old(Own()).(
        generations := old(Own()).generations.(startup := old(Own()).generations.startup + 1))
    {
      startupTimeoutGeneration := startupTimeoutGeneration + 1;
    }

    method ScheduleCallDurationTimer()
      modifies this, thread
      ensures View() == ControllerSpec.ScheduleCallDurationTimer(old(View()))
    {
      callDurationGeneration := callDurationGeneration + 1;
      thread.PostDelayedTask(DurationTimer, callDurationGeneration, Seconds(config.callDurationSeconds));
    }

    method CancelCallDurationTimer()
      modifies this
      ensures Own() == old(Own()).(
        generations := old(Own()).generations.(duration := old(Own()).generations.duration + 1))
    {
      callDurationGeneration := callDurationGeneration + 1;
    }

    method Start()
      requires Valid()
      modifies this, thread, signalingClient
      ensures Valid() && View() == ControllerSpec.Start(old(View()))
    {
      hide Own, AppRtcSignalingClient.View, PeerConnectionClient.View, TaskQueue.View;
      SetState(JoiningRoom);
      ScheduleStartupTimeout();
      signalingClient.Post(JoinRoom, ForJoin, Malformed);
    }

    method Send(purpose: Purpose, text: Text)
      requires Valid() && joinResponse.Some?
      modifies signalingClient
      ensures Valid() && View() == ControllerSpec.Send(old(View()), purpose, text)
    {
      hide Own, AppRtcSignalingClient.View, PeerConnectionClient.View, TaskQueue.View, Submit;
      Fields();
      if joinResponse.value.isInitiator {
        signalingClient.Post(RoomPost, purpose, text);
        return;
      }
      signalingClient.Post(SocketSend, purpose, text);
    }

    method SetExitCode(code: ExitCode)
      modifies this
      ensures Own() == old(Own()).(
        ending := old(Own()).ending.(exitCode := code, completions := old(Own()).ending.completions + 1))
    {
      exitCode := code;
      completions := completions + 1;
    }

    method CompleteFinish(reason: TerminalReason)
      requires Valid()
      modifies this, thread, signalingClient, peerClient
      ensures Valid() && View() == ControllerSpec.CompleteFinish(old(View()), reason)
    {
      hide Own, AppRtcSignalingClient.View, PeerConnectionClient.View, Submit, PeerConnectionSpec.Close;
      Fields();
      peerClient.Close();
      if joinResponse.Some? {
        signalingClient.Post(CloseSocket, NoReply, Malformed);
      }
      SetExitCode(ExitCodeForReason(reason));
      SetState(Finished);
      thread.Quit();
    }

    method SetFinished()
      modifies this
      ensures Own() == old(Own()).(ending := old(Own()).ending.(finished := true, at := thread.now))
    {
      finished := true;
      finishedAt := thread.now;
    }

    method Finish(reason: TerminalReason)
      requires Valid()
      modifies this, thread, signalingClient, peerClient
      ensures Valid() && View() == ControllerSpec.Finish(old(View()), reason)
    {
      hide Own, AppRtcSignalingClient.View, PeerConnectionClient.View, Submit, PeerConnectionSpec.Close,
        ControllerSpec.CompleteFinish, ControllerSpec.Send, ByeMessage;
      Fields();
      Attempt(reason);
      if finished {
        return;
      }
      SetFinished();
      SetState(Stopping);
      CancelStartupTimeout();
      CancelCallDurationTimer();
      Fields();
      if reason.LocalDurationReached? && joinResponse.Some? {
        Send(ForBye, ByeMessage());
        return;
      }
      CompleteFinish(reason);
    }

    ghost method Attempt(reason: TerminalReason)
      modifies this`attempts
      ensures Own() == old(Own()).(ending := old(Own()).ending.(attempts := old(Own()).ending.attempts + [reason]))
    {
      attempts := attempts + [reason];
    }

    method SetJoinResponse(response: JoinResponse)
      modifies this
      ensures Own() == old(Own()).(joinResponse := Some(response))
    {
      joinResponse := Some(response);
    }

    /** The join messages that parse, in the stable order that std::stable_sort gives them. */
    method QueueJoinMessages()
      requires joinResponse.Some?
      modifies this
      ensures Own() == old(Own()).(inbox := old(Own()).inbox.(
        pending := old(Own()).inbox.pending + JoinQueue(old(Own()).joinResponse.value)))
    {
      hide StableOrder, ParseSignalingMessage;
      var texts := joinResponse.value.messages;
      var queued: seq<Message> := [];
      for i := 0 to |texts|
        invariant queued == Collect(ParseSignalingMessage, texts[..i])
        invariant Own() == old(Own())
      {
        assert texts[..i + 1] == texts[..i] + [texts[i]];
        CollectAppend(ParseSignalingMessage, texts[..i], [texts[i]]);
        var parsed := ParseSignalingMessage(texts[i]);
        if parsed.None? {
          continue;
        }
        queued := queued + [parsed.value];
      }
      assert texts[..|texts|] == texts;
      pendingSignalingMessages := pendingSignalingMessages + StableOrder(queued);
    }

    method OnJoinComplete(response: Option<JoinResponse>)
      requires Valid()
      modifies this, thread, signalingClient, peerClient
      ensures Valid() && View() == ControllerSpec.OnJoinComplete(old(View()), response)
    {
      hide Own, AppRtcSignalingClient.View, PeerConnectionClient.View, TaskQueue.View, Submit, ControllerSpec.Finish,
        JoinQueue, PeerConnectionSpec.Initialize, PeerConnectionSpec.StartMedia;
      Fields();
      if finished {
        return;
      }
      if response.None? {
        Finish(SignalingError);
        return;
      }
      SetJoinResponse(response.value);
      var initialized := peerClient.Initialize();
      if !initialized {
        Finish(PeerConnectionError);
        return;
      }
      var media := peerClient.StartMedia();
      if !media {
        Finish(MediaError);
        return;
      }
      Fields();
      QueueJoinMessages();
      SetState(ConnectingSocket);
      signalingClient.Post(ConnectWebSocket, NoReply, Malformed);
    }

    method OnWebSocketOpen()
      requires Valid()
      modifies this, signalingClient
      ensures Valid() && View() == ControllerSpec.OnWebSocketOpen(old(View()))
    {
      hide Own, AppRtcSignalingClient.View, PeerConnectionClient.View, TaskQueue.View, Submit;
      Fields();
      if finished || joinResponse.None? {
        return;
      }
      SetState(Registering);
      signalingClient.Post(RegisterClient, ForRegister, Malformed);
    }

    method SetReady()
      modifies this
      ensures Own() == old(Own()).(negotiation := old(Own()).negotiation.(ready := true))
    {
      negotiationReady := true;
    }

    method OnRegisterComplete(ok: bool)
      requires Valid()
      modifies this, thread, signalingClient, peerClient
      ensures Valid() && View() == ControllerSpec.OnRegisterComplete(old(View()), ok)
    {
      hide Own, AppRtcSignalingClient.View, PeerConnectionClient.View, TaskQueue.View, ControllerSpec.Finish, Pump;
      Fields();
      if finished {
        return;
      }
      if !ok {
        Finish(SignalingError);
        return;
      }
      SetReady();
      PumpSignalingMessages();
    }

    method PushBack(message: Message)
      modifies this
      ensures Own() == old(Own()).(inbox := old(Own()).inbox.(
        pending := old(Own()).inbox.pending + [message], inbound := old(Own()).inbox.inbound + [message]))
    {
      pendingSignalingMessages := pendingSignalingMessages + [message];
      inbound := inbound + [message];
    }

    method OnInboundSignalingMessage(message: Message)
      requires Valid()
      modifies this, thread, signalingClient, peerClient
      ensures Valid() && View() == ControllerSpec.OnInbound(old(View()), message)
    {
      hide Own, AppRtcSignalingClient.View, PeerConnectionClient.View, TaskQueue.View, Pump;
      Fields();
      if finished {
        return;
      }
      PushBack(message);
      PumpSignalingMessages();
    }

    method PopFront() returns (message: Message)
      requires pendingSignalingMessages != []
      modifies this
      ensures message == old(pendingSignalingMessages)[0]
      ensures Own() == old(Own()).(inbox := old(Own()).inbox.(
        pending := old(pendingSignalingMessages)[1..], dispatched := old(Own()).inbox.dispatched + [message]))
    {
      message := pendingSignalingMessages[0];
      pendingSignalingMessages := pendingSignalingMessages[1..];
      dispatched := dispatched + [message];
    }

    method SetActionInFlight(inFlight: bool)
      modifies this
      ensures Own() == SetInFlight(old(Own()), inFlight)
    {
      signalingActionInFlight := inFlight;
    }

    method SetOfferStarted()
      modifies this
      ensures Own() == old(Own()).(negotiation := old(Own()).negotiation.(offerStarted := true))
    {
      offerStarted := true;
    }

    method OnActionFailed(reason: TerminalReason)
      requires Valid()
      modifies this, thread, signalingClient, peerClient
      ensures Valid() && View() == ActionDone(old(View()), reason)
    {
      hide Own, AppRtcSignalingClient.View, PeerConnectionClient.View, TaskQueue.View, ControllerSpec.Finish;
      SetActionInFlight(false);
      Finish(reason);
    }

    /** A description that does not parse is answered at once, before the call returns. */
    method StartRemoteDescription(t: SdpType, message: Message)
      requires Valid()
      modifies this, thread, signalingClient, peerClient
      ensures Valid() && View() == StartRemote(old(View()), t, message)
    {
      hide Own, AppRtcSignalingClient.View, PeerConnectionClient.View, TaskQueue.View, ControllerSpec.Finish,
        PeerConnectionSpec.SetRemote;
      SetState(Negotiating);
      SetActionInFlight(true);
      var parsed := peerClient.SetRemote(t, message);
      if !parsed {
        OnActionFailed(PeerConnectionError);
      }
    }

    method PumpSignalingMessages()
      requires Valid()
      modifies this, thread, signalingClient, peerClient
      ensures Valid() && View() == Pump(old(View()))
    {
      hide Own, AppRtcSignalingClient.View, PeerConnectionClient.View, TaskQueue.View, ControllerSpec.Finish,
        StartRemote, PeerConnectionSpec.AddRemoteCandidate, PeerConnectionSpec.Create, Pump;
      Fields();
      PumpTurn(View());
      if finished || !negotiationReady || signalingActionInFlight || joinResponse.None? {
        return;
      }
      while !finished && negotiationReady && !signalingActionInFlight
        invariant Valid() && joinResponse.Some?
        invariant Pump(View()) == Pump(old(View()))
        decreases |pendingSignalingMessages|
      {
        ghost var e := View();
        Fields();
        PumpTurn(e);
        if pendingSignalingMessages != [] {
          var message := PopFront();
          assert View() == Taken(e);
          Fields();
          if message.kind.Bye? {
            if callEstablished {
              Finish(RemoteByeAfterEstablished);
            } else {
              Finish(RemoteByeBeforeEstablished);
            }
            return;
          }
          if message.kind.Candidate? {
            var ok := peerClient.AddRemoteCandidate(message);
            if !ok {
              Finish(PeerConnectionError);
              return;
            }
            Fields();
            continue;
          }
          if message.kind.Answer? {
            StartRemoteDescription(SdpAnswer, message);
            return;
          }
          if message.kind.Offer? {
            StartRemoteDescription(SdpOffer, message);
            return;
          }
          Finish(SignalingError);
          return;
        }
        if joinResponse.value.isInitiator && !offerStarted {
          SetState(Negotiating);
          SetOfferStarted();
          SetActionInFlight(true);
          peerClient.Create(SdpOffer);
        }
        return;
      }
      Fields();
      PumpTurn(View());
    }

    /** The continuation of operation `i` of the peer client. */
    method OnOperationDone(i: nat, ok: bool, sdp: string)
      requires Valid() && i < |peerClient.operations| && joinResponse.Some?
      modifies this, thread, signalingClient, peerClient
      ensures Valid() && View() == ControllerSpec.OnOperationDone(old(View()), i, ok, sdp)
    {
      hide Own, AppRtcSignalingClient.View, TaskQueue.View, ControllerSpec.Finish, Pump,
        PeerConnectionSpec.CompleteOperation, ControllerSpec.Send;
      Fields();
      var reply := peerClient.CompleteOperation(i, ok, sdp);
      match reply {
        case Chained =>
        case ActionFailed => OnActionFailed(PeerConnectionError);
        case RemoteAnswerSet =>
          SetActionInFlight(false);
          PumpSignalingMessages();
        case LocalDescriptionReady(json) => Send(ForDescription, json);
      }
    }

    method OnDescriptionSent(ok: bool)
      requires Valid()
      modifies this, thread, signalingClient, peerClient
      ensures Valid() && View() == ControllerSpec.OnDescriptionSent(old(View()), ok)
    {
      hide Own, AppRtcSignalingClient.View, PeerConnectionClient.View, TaskQueue.View, ControllerSpec.Finish, Pump;
      SetActionInFlight(false);
      if !ok {
        Finish(SignalingError);
        return;
      }
      PumpSignalingMessages();
    }

    method OnLocalSignalingMessage(text: Text)
      requires Valid()
      modifies signalingClient
      ensures Valid() && View() == OnLocalCandidate(old(View()), text)
    {
      hide Own, AppRtcSignalingClient.View, PeerConnectionClient.View, TaskQueue.View, ControllerSpec.Send;
      Fields();
      if finished || joinResponse.None? {
        return;
      }
      Send(ForCandidate, text);
    }

    method OnCandidateSent(ok: bool)
      requires Valid()
      modifies this, thread, signalingClient, peerClient
      ensures Valid() && View() == ControllerSpec.OnCandidateSent(old(View()), ok)
    {
      hide Own, AppRtcSignalingClient.View, PeerConnectionClient.View, TaskQueue.View, ControllerSpec.Finish;
      if !ok {
        Finish(SignalingError);
      }
    }

    method SetEstablished()
      modifies this
      ensures Own() == old(Own()).(media := old(Own()).media.(established := true, establishedAt := thread.now))
    {
      callEstablished := true;
      establishedAt := thread.now;
    }

    method MaybeMarkCallEstablished()
      modifies this, thread
      ensures View() == ControllerSpec.MaybeMarkCallEstablished(old(View()))
    {
      hide Own, AppRtcSignalingClient.View, PeerConnectionClient.View, ControllerSpec.ScheduleCallDurationTimer;
      Fields();
      if callEstablished || !peerConnected || !remoteMediaSeen {
        return;
      }
      SetEstablished();
      CancelStartupTimeout();
      SetState(InCall);
      ScheduleCallDurationTimer();
    }

    method SetConnected(connected: bool)
      modifies this
      ensures Own() == old(Own()).(media := old(Own()).media.(connected := connected))
    {
      peerConnected := connected;
    }

    method OnPeerConnectionChanged(connected: bool)
      requires Valid()
      modifies this, thread
      ensures Valid() && View() == ControllerSpec.OnPeerConnectionChanged(old(View()), connected)
    {
      hide Own, AppRtcSignalingClient.View, PeerConnectionClient.View, TaskQueue.View,
        ControllerSpec.MaybeMarkCallEstablished;
      Fields();
      if finished {
        return;
      }
      SetConnected(connected);
      MaybeMarkCallEstablished();
    }

    method SetMediaSeen()
      modifies this
      ensures Own() == old(Own()).(media := old(Own()).media.(mediaSeen := true))
    {
      remoteMediaSeen := true;
    }

    method OnRemoteMediaSeen()
      requires Valid()
      modifies this, thread
      ensures Valid() && View() == ControllerSpec.OnRemoteMediaSeen(old(View()))
    {
      hide Own, AppRtcSignalingClient.View, PeerConnectionClient.View, TaskQueue.View,
        ControllerSpec.MaybeMarkCallEstablished;
      Fields();
      if finished {
        return;
      }
      SetMediaSeen();
      MaybeMarkCallEstablished();
    }

    method OnError(reason: TerminalReason)
      requires Valid()
      modifies this, thread, signalingClient, peerClient
      ensures Valid() && View() == ControllerSpec.OnError(old(View()), reason)
    {
      hide Own, AppRtcSignalingClient.View, PeerConnectionClient.View, TaskQueue.View, ControllerSpec.Finish;
      Fields();
      if finished {
        return;
      }
      Finish(reason);
    }

    method OnConnectionChange(st: ConnectionState)
      requires Valid()
      modifies this, thread, signalingClient, peerClient
      ensures Valid() && View() == ControllerSpec.OnConnectionChange(old(View()), st)
    {
      hide Own, AppRtcSignalingClient.View, PeerConnectionClient.View, TaskQueue.View, ControllerSpec.OnError,
        ControllerSpec.OnPeerConnectionChanged;
      var edge := peerClient.OnConnectionChange(st);
      if edge {
        OnPeerConnectionChanged(st.Connected?);
      }
      if st.FailedState? {
        OnError(PeerConnectionError);
      }
    }

    method OnFrame()
      requires Valid()
      modifies this, thread, peerClient
      ensures Valid() && View() == ControllerSpec.OnFrame(old(View()))
    {
      hide Own, AppRtcSignalingClient.View, PeerConnectionClient.View, TaskQueue.View, ControllerSpec.OnRemoteMediaSeen;
      var first := peerClient.OnFrame();
      if first {
        OnRemoteMediaSeen();
      }
    }

    /** The delayed task `i` runs, with the generation it captured. */
    method OnTimer(i: nat)
      requires Valid() && i < |thread.timers|
      modifies this, thread, signalingClient, peerClient
      ensures Valid() && View() == ControllerSpec.OnTimer(old(View()), i)
    {
      hide Own, AppRtcSignalingClient.View, PeerConnectionClient.View, ControllerSpec.Finish, Without;
      Fields();
      var timer := thread.TakeTimer(i);
      Fields();
      match timer.kind {
        case StartupTimer =>
          if finished || timer.generation != startupTimeoutGeneration || callEstablished {
            return;
          }
          Finish(StartupTimeout);
        case DurationTimer =>
          if finished || timer.generation != callDurationGeneration || !callEstablished {
            return;
          }
          Finish(LocalDurationReached);
      }
    }

    method OnDone(purpose: Purpose, ok: bool)
      requires Valid()
      modifies this, thread, signalingClient, peerClient
      ensures Valid() && View() == ControllerSpec.OnDone(old(View()), purpose, ok)
    {
      hide Own, AppRtcSignalingClient.View, PeerConnectionClient.View, TaskQueue.View,
        ControllerSpec.OnRegisterComplete, ControllerSpec.OnDescriptionSent, ControllerSpec.OnCandidateSent,
        ControllerSpec.CompleteFinish;
      match purpose {
        case ForRegister => OnRegisterComplete(ok);
        case ForDescription => OnDescriptionSent(ok);
        case ForCandidate => OnCandidateSent(ok);
        case ForBye => CompleteFinish(LocalDurationReached);
        case ForJoin =>
        case NoReply =>
      }
    }

    /** The callback thread runs the task at the head of its queue. */
    method RunCallback()
      requires Valid() && signalingClient.callbacks != []
      modifies this, thread, signalingClient, peerClient
      ensures Valid() && View() == ControllerSpec.RunCallback(old(View()))
    {
      hide Own, PeerConnectionClient.View, TaskQueue.View, TakeCallback, ControllerSpec.OnDone,
        ControllerSpec.OnInbound, ControllerSpec.OnJoinComplete, ControllerSpec.OnWebSocketOpen, ControllerSpec.OnError;
      var c := signalingClient.TakeCallback();
      match c {
        case Opened => OnWebSocketOpen();
        case Inbound(m) => OnInboundSignalingMessage(m);
        case ErrorNotice => OnError(SignalingError);
        case JoinDone(_, response) => OnJoinComplete(response);
        case Done(task, ok) => OnDone(task.purpose, ok);
      }
    }

    /** One event, on whichever thread it happens. */
    method HandleEvent(ev: Event)
      requires Valid() && Enabled(View(), ev) && Alive(View())
      modifies this, thread, signalingClient, peerClient
      ensures Valid() && View() == Apply(old(View()), ev)
    {
      hide Own, ControllerSpec.RunCallback, ControllerSpec.OnOperationDone, OnLocalCandidate,
        ControllerSpec.OnConnectionChange, ControllerSpec.OnFrame, ControllerSpec.OnTimer, SignalingSpec.RunNetworkTask,
        SignalingSpec.OnSocketOpen, SignalingSpec.OnSocketClose, SignalingSpec.OnSocketError,
        SignalingSpec.OnSocketMessage, SerializeIceCandidate, EndingFits;
      Fields();
      match ev {
        case Network(o) => signalingClient.RunNetworkTask(o);
        case SocketOpen => signalingClient.OnSocketOpen();
        case SocketClose => signalingClient.OnSocketClose();
        case SocketError => signalingClient.OnSocketError();
        case SocketMessage(f) => signalingClient.OnSocketMessage(f);
        case Callback => RunCallback();
        case OperationDone(i, ok, sdp) => OnOperationDone(i, ok, sdp);
        case LocalCandidate(candidate, mid, mline) =>
          OnLocalSignalingMessage(SerializeIceCandidate(candidate, mid, mline));
        case ConnectionChange(st) => OnConnectionChange(st);
        case VideoFrame => OnFrame();
        case TimerFires(i) => OnTimer(i);
        case ClockAdvances(to) => thread.AdvanceTo(to);
      }
    }

    /** The whole call: what it returns once it has quit is the code of the first verdict of the trace. */
    method Run(events: seq<Event>) returns (exit: int)
      requires Valid() && View() == NewEndpoint(config, peerClient.verdicts)
      requires AllEnabled(Started(config, peerClient.verdicts), events)
      modifies this, thread, signalingClient, peerClient
      ensures Valid() && View() == EndpointRuns.Run(Started(config, peerClient.verdicts), events)
      ensures var v := FirstVerdict(Started(config, peerClient.verdicts), events);
        if View().thread.quit then v.Some? && exit == ProcessCode(v.value) else exit == 8
    {
      hide Own, AppRtcSignalingClient.View, PeerConnectionClient.View, TaskQueue.View, Apply, Enabled, Ordered, Started,
        FirstVerdict, ControllerSpec.Start;
      ghost var first := Started(config, peerClient.verdicts);
      assert first == ControllerSpec.Start(View()) by {
        StartedByStart(config, peerClient.verdicts);
      }
      Start();
      for i := 0 to |events|
        invariant Valid() && View() == EndpointRuns.Run(first, events[..i])
      {
        assert events[..i + 1][..i] == events[..i];
        RunOrdered(config, peerClient.verdicts, events[..i]);
        OrderedQueues(View());
        HandleEvent(events[i]);
      }
      assert events[..|events|] == events;
      ExitCodeByTrace(config, peerClient.verdicts, events);
      Fields();
      exit := exitCode.Number();
    }
  }

  /** What the process finds around it: a working SSL library, a thread to run on, and whether it was only asked to
      look at its inputs, which may be unreadable. */
  datatype Surroundings = Surroundings(ssl: bool, thread: bool, inputsOnly: bool, readable: bool)

  /** The process: the checks before the call, then the call. */
  method RunAppRtcCall(config: AppConfig, surroundings: Surroundings, verdicts: nat -> bool, events: seq<Event>)
    returns (exit: int)
    requires AllEnabled(Started(config, verdicts), events)
    ensures ValidateConfig(config).Some? ==> exit == 2
    ensures ValidateConfig(config).None? && !surroundings.ssl ==> exit == 3
    ensures ValidateConfig(config).None? && surroundings.ssl && surroundings.inputsOnly ==>
      exit == if surroundings.readable then 0 else 4
    ensures ValidateConfig(config).None? && surroundings.ssl && !surroundings.inputsOnly && !surroundings.thread ==>
      exit == 3
    ensures ValidateConfig(config).None? && surroundings == Surroundings(true, true, false, surroundings.readable) ==>
      var v := FirstVerdict(Started(config, verdicts), events);
      if EndpointRuns.Run(Started(config, verdicts), events).thread.quit
      then v.Some? && exit == ProcessCode(v.value)
      else exit == 8
  {
    hide Started, FirstVerdict, AllEnabled, ValidateConfig;
    if ValidateConfig(config).Some? {
      return InvalidArgument.Number();
    }
    if !surroundings.ssl {
      return InitializationFailed.Number();
    }
    if surroundings.inputsOnly {
      return if surroundings.readable then Success.Number() else MediaFailed.Number();
    }
    if !surroundings.thread {
      return InitializationFailed.Number();
    }
    var controller := new CallController(config, verdicts);
    exit := controller.Run(events);
  }
}
