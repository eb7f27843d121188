/** The negotiation part of src/apprtc_peer_connection.cc, on values. */
module PeerConnectionSpec {
  import opened Sequences
  import opened Common

  datatype ConnectionState = NewState | Connecting | Connected | Disconnected | FailedState | Closed

  /** A call on the underlying connection that takes part in the offer/answer exchange. */
  datatype ApiCall = CreateCall(t: SdpType) | SetLocalCall(t: SdpType) | SetRemoteCall(t: SdpType)

  /** An outstanding asynchronous call, together with what its continuation has captured. */
  datatype Operation = Creating(t: SdpType) | SettingLocal(t: SdpType, json: Text) | SettingRemote(t: SdpType)

  /** What the underlying connection reports about its state and its media. */
  datatype Observation = StateSeen(st: ConnectionState) | FrameSeen

  /** How a completed operation concerns the controller: not yet, or one of its continuations runs. */
  datatype Reply = Chained | ActionFailed | RemoteAnswerSet | LocalDescriptionReady(json: Text)

  /** What libwebrtc answers to its synchronous calls, and how many of them were made. */
  datatype Oracle = Oracle(verdicts: nat -> bool, asked: nat) {
    predicate Next() {
      verdicts(asked)
    }

    function Rest(): Oracle {
      this.(asked := asked + 1)
    }
  }

  /** What the other side sent: whether its description is set, and the buffered candidates; as history, the
      candidates offered and applied, and the descriptions handed to the connection. */
  datatype RemoteSide = RemoteSide(
    descriptionSet: bool, pending: seq<Message>,
    offered: seq<Message>, applied: seq<Message>, failed: bool, descriptions: seq<Message>)

  /** The two edge filters, and the history of what the connection reported. */
  datatype Reports = Reports(connected: bool, mediaSeen: bool, observed: seq<Observation>)

  datatype Peer = Peer(
    oracle: Oracle, open: bool, operations: seq<Operation>, calls: seq<ApiCall>,
    remote: RemoteSide, reports: Reports)

  function NewPeer(verdicts: nat -> bool): Peer {
    Peer(Oracle(verdicts, 0), false, [], [], RemoteSide(false, [], [], [], false, []), Reports(false, false, []))
  }

  function Initialize(p: Peer): (Peer, bool) {
    var q := p.(oracle := p.oracle.Rest());
    if p.oracle.Next()
    then (q.(open := true, remote := p.remote.(descriptionSet := false, pending := []),
             reports := p.reports.(connected := false, mediaSeen := false)), true)
    else (q, false)
  }

  function StartMedia(p: Peer): (Peer, bool) {
    (p.(oracle := p.oracle.Rest()), p.oracle.Next())
  }

  function Create(p: Peer, t: SdpType): Peer {
    p.(calls := p.calls + [CreateCall(t)], operations := p.operations + [Creating(t)])
  }

  function ApplyLocalDescription(p: Peer, t: SdpType, json: Text): Peer {
    p.(calls := p.calls + [SetLocalCall(t)], operations := p.operations + [SettingLocal(t, json)])
  }

  /** False when the description does not parse: then the continuation runs at once, with an error. */
  function SetRemote(p: Peer, t: SdpType, m: Message): (Peer, bool) {
    var q := p.(oracle := p.oracle.Rest());
    if p.oracle.Next()
    then (q.(calls := p.calls + [SetRemoteCall(t)], operations := p.operations + [SettingRemote(t)],
             remote := p.remote.(descriptions := p.remote.descriptions + [m])), true)
    else (q, false)
  }

  datatype Attempt = Attempt(oracle: Oracle, remote: RemoteSide, ok: bool)

  /** Creating the candidate from its text and adding it, either of which may fail. */
  function ApplyCandidate(o: Oracle, r: RemoteSide, m: Message): Attempt {
    if !o.Next() then Attempt(o.Rest(), r.(failed := true), false)
    else if !o.Rest().Next() then Attempt(o.Rest().Rest(), r.(failed := true), false)
    else Attempt(o.Rest().Rest(), r.(applied := r.applied + [m]), true)
  }

  function AddCandidate(o: Oracle, r: RemoteSide, m: Message): Attempt {
    var s := r.(offered := r.offered + [m]);
    if !r.descriptionSet then Attempt(o, s.(pending := r.pending + [m]), true) else ApplyCandidate(o, s, m)
  }

  function AddRemoteCandidate(p: Peer, m: Message): (Peer, bool) {
    var a := AddCandidate(p.oracle, p.remote, m);
    (p.(oracle := a.oracle, remote := a.remote), a.ok)
  }

  /** Candidates are applied in order, up to the first that fails. */
  function ApplyAll(o: Oracle, r: RemoteSide, ms: seq<Message>): Attempt
    decreases |ms|
  {
    if ms == [] then Attempt(o, r, true)
    else
      var a := ApplyCandidate(o, r, ms[0]);
      if a.ok then ApplyAll(a.oracle, a.remote, ms[1..]) else a
  }

  /** The buffer is emptied only when every candidate in it was applied. */
  function Flush(o: Oracle, r: RemoteSide): Attempt {
    var a := ApplyAll(o, r, r.pending);
    if a.ok then a.(remote := a.remote.(pending := [])) else a
  }

  /** A remote description was applied: the buffered candidates follow it. */
  function RemoteDescriptionApplied(p: Peer): (Peer, bool) {
    var a := Flush(p.oracle, p.remote.(descriptionSet := true));
    (p.(oracle := a.oracle, remote := a.remote), a.ok)
  }

  /** The list without its element at `i`. */
  function Without<T>(xs: seq<T>, i: nat): (r: seq<T>)
    requires i < |xs|
    ensures |r| == |xs| - 1
  {
    xs[..i] + xs[i + 1..]
  }

  /** The continuation of operation `i`, which succeeded (with description `sdp`, for a creation) or failed. */
  function CompleteOperation(p: Peer, i: nat, ok: bool, sdp: string): (Peer, Reply)
    requires i < |p.operations|
  {
    var q := p.(operations := Without(p.operations, i));
    if !ok then (q, ActionFailed)
    else
      match p.operations[i]
      case Creating(t) =>
        var r := q.(oracle := q.oracle.Rest());
        if q.oracle.Next()
        then (ApplyLocalDescription(r, t, SerializeSessionDescription(t, sdp)), Chained)
        else (r, ActionFailed)
      case SettingLocal(_, json) => (q, LocalDescriptionReady(json))
      case SettingRemote(t) =>
        var (r, flushed) := RemoteDescriptionApplied(q);
        if !flushed then (r, ActionFailed)
        else if t.SdpAnswer? then (r, RemoteAnswerSet)
        else (Create(r, SdpAnswer), Chained)
  }

  /** Applying candidates changes nothing else on the remote side. */
  lemma {:induction false} ApplyAllFrame(o: Oracle, r: RemoteSide, ms: seq<Message>)
    ensures var s := ApplyAll(o, r, ms).remote; s == r.(applied := s.applied, failed := s.failed)
    decreases |ms|
  {
    if ms != [] {
      var a := ApplyCandidate(o, r, ms[0]);
      ApplyAllFrame(a.oracle, a.remote, ms[1..]);
    }
  }

  /** A flush that fails leaves the buffer as it was, although some of it may have been applied. */
  lemma FlushLeaves(o: Oracle, r: RemoteSide)
    ensures var a := Flush(o, r); a.remote.pending == if a.ok then [] else r.pending
  {
    hide ApplyAll;
    ApplyAllFrame(o, r, r.pending);
  }

  /** A completed operation is replaced by at most one, and only a chained one makes a call. */
  lemma OperationFrame(p: Peer, i: nat, ok: bool, sdp: string)
    requires i < |p.operations|
    ensures var (q, reply) := CompleteOperation(p, i, ok, sdp);
      && q.open == p.open && q.reports == p.reports
      && |q.calls| == |p.calls| + Bit(reply.Chained?) && p.calls <= q.calls
      && |q.operations| == |p.operations| - Bit(!reply.Chained?)
      && (reply.LocalDescriptionReady? ==> p.operations[i].SettingLocal? && p.operations[i].json == reply.json)
  {
    hide Flush, Without, SerializeSessionDescription;
  }

  /** Outstanding continuations are cancelled: their safety flag is gone. */
  function Close(p: Peer): Peer {
    p.(operations := [], open := false, remote := p.remote.(descriptionSet := false, pending := []),
       reports := p.reports.(connected := false, mediaSeen := false))
  }
}

/** The object form of the same component. */
module PeerConnection {
  import opened Common
  import opened PeerConnectionSpec

  class PeerConnectionClient {
    const verdicts: nat -> bool
    var asked: nat
    var open: bool
    var operations: seq<Operation>
    var connected: bool
    var remoteMediaSeen: bool
    var remoteDescriptionSet: bool
    var pendingRemoteCandidates: seq<Message>
    ghost var calls: seq<ApiCall>
    ghost var offered: seq<Message>
    ghost var applied: seq<Message>
    ghost var candidateFailed: bool
    ghost var descriptions: seq<Message>
    ghost var observed: seq<Observation>

    ghost function View(): Peer
      reads this
    {
      Peer(Oracle(verdicts, asked), open, operations, calls,
           RemoteSide(remoteDescriptionSet, pendingRemoteCandidates, offered, applied, candidateFailed, descriptions),
           Reports(connected, remoteMediaSeen, observed))
    }

    constructor (verdicts: nat -> bool)
      ensures View() == NewPeer(verdicts)
    {
      this.verdicts, asked := verdicts, 0;
      open, operations, connected, remoteMediaSeen := false, [], false, false;
      remoteDescriptionSet, pendingRemoteCandidates := false, [];
      calls, offered, applied, candidateFailed, descriptions, observed := [], [], [], false, [], [];
    }

    /** One synchronous call into libwebrtc. */
    method Ask() returns (ok: bool)
      modifies this`asked
      ensures ok == old(View()).oracle.Next()
      ensures View() == old(View()).(oracle := old(View()).oracle.Rest())
    {
      ok := verdicts(asked);
      asked := asked + 1;
    }

    method Initialize() returns (ok: bool)
      modifies this
      ensures (View(), ok) == PeerConnectionSpec.Initialize(old(View()))
    {
      ok := Ask();
      if !ok {
        return;
      }
      open := true;
      connected := false;
      remoteMediaSeen := false;
      remoteDescriptionSet := false;
      pendingRemoteCandidates := [];
    }

    method StartMedia() returns (ok: bool)
      modifies this
      ensures (View(), ok) == PeerConnectionSpec.StartMedia(old(View()))
    {
      ok := Ask();
    }

    method Create(t: SdpType)
      modifies this
      ensures View() == PeerConnectionSpec.Create(old(View()), t)
    {
      calls := calls + [CreateCall(t)];
      operations := operations + [Creating(t)];
    }

    method ApplyLocalDescription(t: SdpType, json: Text)
      modifies this
      ensures View() == PeerConnectionSpec.ApplyLocalDescription(old(View()), t, json)
    {
      calls := calls + [SetLocalCall(t)];
      operations := operations + [SettingLocal(t, json)];
    }

    method SetRemote(t: SdpType, message: Message) returns (ok: bool)
      modifies this
      ensures (View(), ok) == PeerConnectionSpec.SetRemote(old(View()), t, message)
    {
      ok := Ask();
      if !ok {
        return;
      }
      calls := calls + [SetRemoteCall(t)];
      operations := operations + [SettingRemote(t)];
      descriptions := descriptions + [message];
    }

    method ApplyCandidate(m: Message) returns (ok: bool)
      modifies this`asked, this`applied, this`candidateFailed
      ensures Attempt(View().oracle, View().remote, ok)
           == PeerConnectionSpec.ApplyCandidate(old(View()).oracle, old(View()).remote, m)
    {
      ok := Ask();
      if !ok {
        candidateFailed := true;
        return;
      }
      ok := Ask();
      if !ok {
        candidateFailed := true;
        return;
      }
      applied := applied + [m];
    }

    method AddRemoteCandidate(m: Message) returns (ok: bool)
      modifies this
      ensures (View(), ok) == PeerConnectionSpec.AddRemoteCandidate(old(View()), m)
    {
      offered := offered + [m];
      if !remoteDescriptionSet {
        pendingRemoteCandidates := pendingRemoteCandidates + [m];
        return true;
      }
      ok := ApplyCandidate(m);
    }

    method FlushPendingRemoteCandidates() returns (ok: bool)
      modifies this`asked, this`applied, this`candidateFailed, this`pendingRemoteCandidates
      ensures Attempt(View().oracle, View().remote, ok) == Flush(old(View()).oracle, old(View()).remote)
    {
      if pendingRemoteCandidates == [] {
        return true;
      }
      var i := 0;
      while i < |pendingRemoteCandidates|
        invariant 0 <= i <= |pendingRemoteCandidates|
        invariant pendingRemoteCandidates == old(pendingRemoteCandidates)
        invariant ApplyAll(View().oracle, View().remote, pendingRemoteCandidates[i..])
               == ApplyAll(old(View()).oracle, old(View()).remote, old(pendingRemoteCandidates))
      {
        assert pendingRemoteCandidates[i..][1..] == pendingRemoteCandidates[i + 1..];
        ok := ApplyCandidate(pendingRemoteCandidates[i]);
        if !ok {
          return;
        }
        i := i + 1;
      }
      pendingRemoteCandidates := [];
      ok := true;
    }

    method CompleteOperation(i: nat, ok: bool, sdp: string) returns (reply: Reply)
      requires i < |operations|
      modifies this
      ensures (View(), reply) == PeerConnectionSpec.CompleteOperation(old(View()), i, ok, sdp)
    {
      var operation := operations[i];
      operations := Without(operations, i);
      if !ok {
        return ActionFailed;
      }
      match operation {
        case Creating(t) =>
          var serialized := Ask();
          if !serialized {
            return ActionFailed;
          }
          ApplyLocalDescription(t, SerializeSessionDescription(t, sdp));
          return Chained;
        case SettingLocal(_, json) =>
          return LocalDescriptionReady(json);
        case SettingRemote(t) =>
          remoteDescriptionSet := true;
          var flushed := FlushPendingRemoteCandidates();
          if !flushed {
            return ActionFailed;
          }
          if t.SdpAnswer? {
            return RemoteAnswerSet;
          }
          Create(SdpAnswer);
          return Chained;
      }
    }

    /** The connection reports its state; true if that is an edge the owner must be told about. */
    method OnConnectionChange(st: ConnectionState) returns (edge: bool)
      modifies this
      ensures edge == (old(View()).reports.connected != st.Connected?)
      ensures View() == old(View()).(reports := old(View()).reports.(
        connected := st.Connected?, observed := old(View()).reports.observed + [StateSeen(st)]))
    {
      observed := observed + [StateSeen(st)];
      edge := connected != st.Connected?;
      if edge {
        connected := st.Connected?;
      }
    }

    /** The sink gets a frame; true for the first one. */
    method OnFrame() returns (first: bool)
      modifies this
      ensures first == !old(View()).reports.mediaSeen
      ensures View() == old(View()).(reports := old(View()).reports.(
        mediaSeen := true, observed := old(View()).reports.observed + [FrameSeen]))
    {
      observed := observed + [FrameSeen];
      if remoteMediaSeen {
        return false;
      }
      remoteMediaSeen := true;
      return true;
    }

    method Close()
      modifies this
      ensures View() == PeerConnectionSpec.Close(old(View()))
    {
      operations := [];
      open := false;
      pendingRemoteCandidates := [];
      remoteDescriptionSet := false;
      connected := false;
      remoteMediaSeen := false;
    }
  }
}
