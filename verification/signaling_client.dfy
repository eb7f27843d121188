/** src/apprtc_signaling_client.cc on values: one network FIFO, one callback FIFO and the socket between them. */
module SignalingSpec {
  import opened Sequences
  import opened Common

  datatype NetOp = JoinRoom | ConnectWebSocket | RegisterClient | RoomPost | SocketSend | CloseSocket

  /** Which continuation of the caller a request carries. */
  datatype Purpose = ForJoin | ForRegister | ForDescription | ForCandidate | ForBye | NoReply

  /** A task on the network thread; the ids number the tasks in the order they are posted. */
  datatype NetTask = NetTask(id: nat, op: NetOp, purpose: Purpose, text: Text)

  /** A task posted to the callback thread. */
  datatype CallbackTask =
    | Opened
    | Inbound(m: Message)
    | ErrorNotice
    | JoinDone(task: NetTask, response: Option<JoinResponse>)
    | Done(task: NetTask, ok: bool)

  /** What happens to a frame: it arrives, it arrives but the sender is told otherwise, or it is lost. */
  datatype SendOutcome = Delivered | LostReply | Lost

  /** How a join request ends: no answer, an answer that is no JSON, servers that cannot be read, a result other than
      success, or a success. */
  datatype JoinReply = Unreachable | NotJson | BadIceServers | Refused | Accepted(response: JoinResponse)

  datatype NetOutcome = JoinOutcome(reply: JoinReply) | SendOutcomeOf(sent: SendOutcome) | Completed
  {
    /** What the join's caller gets: an error for every exit but the last. */
    function Response(): Option<JoinResponse> {
      if JoinOutcome? && reply.Accepted? then Some(reply.response) else None
    }
  }

  /** What left this peer, for the room server or the socket server. */
  datatype Frame = RegisterFrame | MessageFrame(text: Text)

  datatype SocketState = NotStarted | Down | Up

  /** An inbound socket frame: not JSON, a server error, or a payload for the peer. */
  datatype SocketFrame = Garbled | ServerError | Payload(text: Text)

  /** The two flags behind the mutex, and the socket itself as its own events show it. */
  datatype Link = Link(websocketOpen: bool, closing: bool, socket: SocketState)

  /** The two queues and the link; then, as history, every task ever posted, every request answered,
      every frame that left, the messages the join handed over and the payloads the socket brought. */
  datatype Signaling = Signaling(
    network: seq<NetTask>, callbacks: seq<CallbackTask>, link: Link,
    log: seq<NetTask>, delivered: seq<NetTask>, wire: seq<Frame>, stored: seq<Text>, heard: seq<Text>)

  function NewSignaling(): Signaling {
    Signaling([], [], Link(false, false, NotStarted), [], [], [], [], [])
  }

  function Submit(s: Signaling, op: NetOp, purpose: Purpose, text: Text): Signaling {
    var task := NetTask(|s.log|, op, purpose, text);
    s.(network := s.network + [task], log := s.log + [task])
  }

  function PostToCallbackThread(s: Signaling, task: CallbackTask): Signaling {
    s.(callbacks := s.callbacks + [task])
  }

  /** The outcomes that the task at the head of the network queue can have. */
  predicate OutcomeFits(s: Signaling, o: NetOutcome) {
    s.network != [] &&
    match s.network[0].op
    case JoinRoom => o.JoinOutcome?
    case ConnectWebSocket => o.Completed?
    case CloseSocket => o.Completed?
    case _ => o.SendOutcomeOf?
  }

  function FrameOf(task: NetTask): Frame {
    if task.op.RegisterClient? then RegisterFrame else MessageFrame(task.text)
  }

  /** A frame is put on the wire, unless it needs the socket and the socket is not open. */
  function Transmit(s: Signaling, task: NetTask, sent: SendOutcome): Signaling {
    if !task.op.RoomPost? && !s.link.websocketOpen
    then PostToCallbackThread(s, Done(task, false))
    else PostToCallbackThread(
           s.(wire := if sent.Lost? then s.wire else s.wire + [FrameOf(task)]),
           Done(task, sent.Delivered?))
  }

  function HandedOver(response: Option<JoinResponse>): seq<Text> {
    if response.Some? then response.value.messages else []
  }

  function RunNetworkTask(s: Signaling, o: NetOutcome): Signaling
    requires OutcomeFits(s, o)
  {
    var task := s.network[0];
    var t := s.(network := s.network[1..]);
    match task.op
    case JoinRoom => PostToCallbackThread(t.(stored := HandedOver(o.Response())), JoinDone(task, o.Response()))
    case ConnectWebSocket => t.(link := Link(false, false, Down))
    case CloseSocket => t.(link := Link(false, true, s.link.socket))
    case _ => Transmit(t, task, o.sent)
  }

  function OnSocketOpen(s: Signaling): Signaling {
    PostToCallbackThread(s.(link := Link(true, s.link.closing, Up)), Opened)
  }

  function OnSocketClose(s: Signaling): Signaling {
    var t := s.(link := Link(false, s.link.closing, Down));
    if s.link.closing then t else PostToCallbackThread(t, ErrorNotice)
  }

  function OnSocketError(s: Signaling): Signaling {
    PostToCallbackThread(s.(link := Link(false, s.link.closing, Down)), ErrorNotice)
  }

  function OnSocketMessage(s: Signaling, f: SocketFrame): Signaling {
    match f
    case Garbled => PostToCallbackThread(s, ErrorNotice)
    case ServerError => PostToCallbackThread(s, ErrorNotice)
    case Payload(text) =>
      var t := s.(heard := s.heard + [text]);
      match ParseSignalingMessage(text)
      case None => PostToCallbackThread(t, ErrorNotice)
      case Some(m) => PostToCallbackThread(t, Inbound(m))
  }

  /** The callback thread takes the task at the head of its queue. */
  function TakeCallback(s: Signaling): Signaling
    requires s.callbacks != []
  {
    var c := s.callbacks[0];
    s.(callbacks := s.callbacks[1..],
       delivered := if c.JoinDone? || c.Done? then s.delivered + [c.task] else s.delivered)
  }
}

/** The object form of the same component. */
module SignalingClient {
  import opened Sequences
  import opened Common
  import opened SignalingSpec

  class AppRtcSignalingClient {
    var network: seq<NetTask>
    var callbacks: seq<CallbackTask>
    var websocketOpen: bool
    var closing: bool
    ghost var socket: SocketState
    var nextId: nat
    ghost var log: seq<NetTask>
    ghost var delivered: seq<NetTask>
    ghost var wire: seq<Frame>
    ghost var stored: seq<Text>
    ghost var heard: seq<Text>

    ghost function View(): Signaling
      reads this
    {
      Signaling(network, callbacks, Link(websocketOpen, closing, socket), log, delivered, wire, stored, heard)
    }

    ghost predicate Valid()
      reads this
    {
      nextId == |log|
    }

    constructor ()
      ensures Valid() && View() == NewSignaling()
    {
      network, callbacks, websocketOpen, closing, socket := [], [], false, false, NotStarted;
      nextId, log, delivered, wire, stored, heard := 0, [], [], [], [], [];
    }

    method Post(op: NetOp, purpose: Purpose, text: Text)
      requires Valid()
      modifies this
      ensures Valid() && View() == Submit(old(View()), op, purpose, text)
    {
      network := network + [NetTask(nextId, op, purpose, text)];
      log := log + [NetTask(nextId, op, purpose, text)];
      nextId := nextId + 1;
    }

    method PostToCallbackThread(task: CallbackTask)
      requires Valid()
      modifies this
      ensures Valid() && View() == SignalingSpec.PostToCallbackThread(old(View()), task)
    {
      callbacks := callbacks + [task];
    }

    /** The body of the posted task at the head of the network queue. */
    method RunNetworkTask(o: NetOutcome)
      requires Valid() && OutcomeFits(View(), o)
      modifies this
      ensures Valid() && View() == SignalingSpec.RunNetworkTask(old(View()), o)
    {
      var task := network[0];
      network := network[1..];
      match task.op {
        case JoinRoom =>
          match o.reply {
            case Unreachable =>
              stored := [];
              PostToCallbackThread(JoinDone(task, None));
            case NotJson =>
              stored := [];
              PostToCallbackThread(JoinDone(task, None));
            case BadIceServers =>
              stored := [];
              PostToCallbackThread(JoinDone(task, None));
            case Refused =>
              stored := [];
              PostToCallbackThread(JoinDone(task, None));
            case Accepted(response) =>
              stored := response.messages;
              PostToCallbackThread(JoinDone(task, Some(response)));
          }
        case ConnectWebSocket =>
          closing := false;
          websocketOpen := false;
          socket := Down;
        case CloseSocket =>
          closing := true;
          websocketOpen := false;
        case RoomPost =>
          if !o.sent.Lost? {
            wire := wire + [MessageFrame(task.text)];
          }
          PostToCallbackThread(Done(task, o.sent.Delivered?));
        case _ =>
          if !websocketOpen {
            PostToCallbackThread(Done(task, false));
            return;
          }
          if !o.sent.Lost? {
            wire := wire + [FrameOf(task)];
          }
          PostToCallbackThread(Done(task, o.sent.Delivered?));
      }
    }

    method OnSocketOpen()
      requires Valid()
      modifies this
      ensures Valid() && View() == SignalingSpec.OnSocketOpen(old(View()))
    {
      websocketOpen := true;
      socket := Up;
      PostToCallbackThread(Opened);
    }

    method OnSocketClose()
      requires Valid()
      modifies this
      ensures Valid() && View() == SignalingSpec.OnSocketClose(old(View()))
    {
      websocketOpen := false;
      socket := Down;
      if !closing {
        PostToCallbackThread(ErrorNotice);
      }
    }

    method OnSocketError()
      requires Valid()
      modifies this
      ensures Valid() && View() == SignalingSpec.OnSocketError(old(View()))
    {
      websocketOpen := false;
      socket := Down;
      PostToCallbackThread(ErrorNotice);
    }

    method OnSocketMessage(f: SocketFrame)
      requires Valid()
      modifies this
      ensures Valid() && View() == SignalingSpec.OnSocketMessage(old(View()), f)
    {
      if !f.Payload? {
        PostToCallbackThread(ErrorNotice);
        return;
      }
      heard := heard + [f.text];
      match ParseSignalingMessage(f.text) {
        case None => PostToCallbackThread(ErrorNotice);
        case Some(m) => PostToCallbackThread(Inbound(m));
      }
    }

    method TakeCallback() returns (c: CallbackTask)
      requires Valid() && callbacks != []
      modifies this
      ensures Valid() && View() == SignalingSpec.TakeCallback(old(View())) && c == old(callbacks)[0]
    {
      c := callbacks[0];
      callbacks := callbacks[1..];
      if c.JoinDone? || c.Done? {
        delivered := delivered + [c.task];
      }
    }
  }
}
