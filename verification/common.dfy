/** Projections of sequences, shared by every component of the model. */
module Sequences {

  datatype Option<+T> = None | Some(value: T)

  /** The elements that `keep` accepts, in order. */
  function Filter<T>(keep: T -> bool, xs: seq<T>): seq<T> {
    if xs == [] then []
    else (if keep(xs[0]) then [xs[0]] else []) + Filter(keep, xs[1..])
  }

  /** The results of the elements for which `pick` is defined, in order. */
  function Collect<T, U>(pick: T -> Option<U>, xs: seq<T>): seq<U> {
    if xs == [] then []
    else (if pick(xs[0]).Some? then [pick(xs[0]).value] else []) + Collect(pick, xs[1..])
  }

  lemma {:induction false} FilterAppend<T>(keep: T -> bool, xs: seq<T>, ys: seq<T>)
    ensures Filter(keep, xs + ys) == Filter(keep, xs) + Filter(keep, ys)
  {
    if xs == [] {
      assert xs + ys == ys;
    } else {
      assert (xs + ys)[0] == xs[0] && (xs + ys)[1..] == xs[1..] + ys;
      FilterAppend(keep, xs[1..], ys);
      var first := if keep(xs[0]) then [xs[0]] else [];
      assert first + (Filter(keep, xs[1..]) + Filter(keep, ys)) == (first + Filter(keep, xs[1..])) + Filter(keep, ys);
    }
  }

  lemma {:induction false} CollectAppend<T, U>(pick: T -> Option<U>, xs: seq<T>, ys: seq<T>)
    ensures Collect(pick, xs + ys) == Collect(pick, xs) + Collect(pick, ys)
  {
    if xs == [] {
      assert xs + ys == ys;
    } else {
      assert (xs + ys)[0] == xs[0] && (xs + ys)[1..] == xs[1..] + ys;
      CollectAppend(pick, xs[1..], ys);
      var first := if pick(xs[0]).Some? then [pick(xs[0]).value] else [];
      assert first + (Collect(pick, xs[1..]) + Collect(pick, ys))
          == (first + Collect(pick, xs[1..])) + Collect(pick, ys);
    }
  }

  lemma {:induction false} FilterMember<T>(keep: T -> bool, xs: seq<T>, x: T)
    ensures x in Filter(keep, xs) <==> x in xs && keep(x)
  {
    if xs != [] {
      FilterMember(keep, xs[1..], x);
      assert x in xs <==> x == xs[0] || x in xs[1..];
    }
  }

  /** Filtering by the weaker condition first makes no difference. */
  lemma {:induction false} FilterTwice<T>(strong: T -> bool, weak: T -> bool, xs: seq<T>)
    requires forall x <- xs :: strong(x) ==> weak(x)
    ensures Filter(strong, Filter(weak, xs)) == Filter(strong, xs)
  {
    if xs != [] {
      FilterTwice(strong, weak, xs[1..]);
      FilterAppend(strong, if weak(xs[0]) then [xs[0]] else [], Filter(weak, xs[1..]));
      assert Filter(strong, [xs[0]]) == if strong(xs[0]) then [xs[0]] else [];
    }
  }

  /** Filtering keeps prefixes. */
  lemma FilterPrefix<T>(keep: T -> bool, xs: seq<T>, ys: seq<T>)
    requires xs <= ys
    ensures Filter(keep, xs) <= Filter(keep, ys)
  {
    assert ys == xs + ys[|xs|..];
    FilterAppend(keep, xs, ys[|xs|..]);
  }

  lemma CollectPrefix<T, U>(pick: T -> Option<U>, xs: seq<T>, ys: seq<T>)
    requires xs <= ys
    ensures Collect(pick, xs) <= Collect(pick, ys)
  {
    assert ys == xs + ys[|xs|..];
    CollectAppend(pick, xs, ys[|xs|..]);
  }

  /** How many elements `keep` accepts. */
  function Count<T>(keep: T -> bool, xs: seq<T>): nat {
    |Filter(keep, xs)|
  }

  lemma CountMore<T>(keep: T -> bool, xs: seq<T>, x: T)
    ensures Count(keep, xs + [x]) == Count(keep, xs) + Bit(keep(x))
  {
    FilterAppend(keep, xs, [x]);
  }

  lemma CountHead<T>(keep: T -> bool, xs: seq<T>)
    requires xs != []
    ensures Count(keep, xs) == Bit(keep(xs[0])) + Count(keep, xs[1..])
  {
  }

  lemma CountNone<T>(keep: T -> bool, xs: seq<T>)
    ensures Count(keep, xs) == 0 <==> forall x <- xs :: !keep(x)
  {
    if x :| x in xs && keep(x) {
      FilterMember(keep, xs, x);
    }
    if Filter(keep, xs) != [] {
      FilterMember(keep, xs, Filter(keep, xs)[0]);
    }
  }

  /** `xs` is `ys` with some elements left out. */
  ghost predicate Within<T>(xs: seq<T>, ys: seq<T>)
    decreases |ys|
  {
    xs == [] ||
    (ys != [] &&
     (Within(xs, ys[..|ys| - 1]) || (Last(xs) == Last(ys) && Within(xs[..|xs| - 1], ys[..|ys| - 1]))))
  }

  lemma WithinMore<T>(xs: seq<T>, ys: seq<T>, y: T)
    requires Within(xs, ys)
    ensures Within(xs, ys + [y]) && Within(xs + [y], ys + [y])
  {
    assert (ys + [y])[..|ys + [y]| - 1] == ys && (xs + [y])[..|xs + [y]| - 1] == xs;
  }

  lemma {:induction false} PrefixWithin<T>(xs: seq<T>, ys: seq<T>, xs': seq<T>, ys': seq<T>)
    requires Within(xs, ys) && xs' <= xs && ys <= ys'
    ensures Within(xs', ys')
    decreases |ys'|, |xs|
  {
    if ys < ys' {
      PrefixWithin(xs, ys, xs', ys'[..|ys'| - 1]);
    } else {
      assert ys == ys';
      if xs' < xs {
        FrontWithin(xs, ys);
        PrefixWithin(xs[..|xs| - 1], ys, xs', ys');
      } else {
        assert xs == xs';
      }
    }
  }

  lemma {:induction false} FrontWithin<T>(xs: seq<T>, ys: seq<T>)
    requires xs != [] && Within(xs, ys)
    ensures Within(xs[..|xs| - 1], ys)
    decreases |ys|
  {
    if Within(xs, ys[..|ys| - 1]) {
      FrontWithin(xs, ys[..|ys| - 1]);
    }
  }

  lemma CollectHead<T, U>(pick: T -> Option<U>, xs: seq<T>)
    requires xs != []
    ensures Collect(pick, xs) == (if pick(xs[0]).Some? then [pick(xs[0]).value] else []) + Collect(pick, xs[1..])
  {
  }

  lemma {:induction false} CollectMember<T, U>(pick: T -> Option<U>, xs: seq<T>, x: T)
    requires x in xs && pick(x).Some?
    ensures pick(x).value in Collect(pick, xs)
  {
    if x != xs[0] {
      CollectMember(pick, xs[1..], x);
    }
  }

  lemma CollectMore<T, U>(pick: T -> Option<U>, xs: seq<T>, x: T)
    ensures Collect(pick, xs + [x]) == if pick(x).Some? then Collect(pick, xs) + [pick(x).value] else Collect(pick, xs)
  {
    CollectAppend(pick, xs, [x]);
    assert Collect(pick, [x][1..]) == [];
  }

  lemma {:induction false} CollectWithin<T, U>(pick: T -> Option<U>, xs: seq<T>, ys: seq<T>)
    requires Within(xs, ys)
    ensures Within(Collect(pick, xs), Collect(pick, ys))
    decreases |ys|
  {
    hide Collect;
    if xs == [] {
      assert Collect(pick, xs) == [] by {
        CollectNothing(pick);
      }
    } else {
      var most := ys[..|ys| - 1];
      var first := xs[..|xs| - 1];
      assert ys == most + [Last(ys)] && xs == first + [Last(xs)];
      CollectMore(pick, most, Last(ys));
      CollectMore(pick, first, Last(xs));
      var kept := if Within(xs, most) then xs else first;
      CollectWithin(pick, kept, most);
      if pick(Last(ys)).Some? {
        WithinMore(Collect(pick, kept), Collect(pick, most), pick(Last(ys)).value);
      }
    }
  }

  lemma CollectNothing<T, U>(pick: T -> Option<U>)
    ensures Collect(pick, []) == []
  {
  }

  /** What a filter keeps is what is collected by picking those elements. */
  function OnlyIf<T>(keep: T -> bool): T -> Option<T> {
    x => if keep(x) then Some(x) else None
  }

  lemma {:induction false} FilterCollects<T>(keep: T -> bool, xs: seq<T>)
    ensures Filter(keep, xs) == Collect(OnlyIf(keep), xs)
  {
    if xs != [] {
      FilterCollects(keep, xs[1..]);
    }
  }

  function Last<T>(xs: seq<T>): T
    requires xs != []
  {
    xs[|xs| - 1]
  }

  /** 1 for true and 0 for false, so that a flag can be compared with a count. */
  function Bit(b: bool): nat {
    if b then 1 else 0
  }
}

/** Message kinds, configuration and exit codes (src/apprtc_common.h, src/apprtc_common.cc). */
module Common {
  import opened Sequences

  datatype MessageType = Offer | Answer | Candidate | Bye | Unknown

  datatype Message = Message(kind: MessageType, sdp: string, candidate: string, sdpMid: string, sdpMlineIndex: int)

  /** A JSON text: either no JSON at all, or an object of which only these members matter. */
  datatype Text = Malformed | Json(kind: string, sdp: string, candidate: string, id: string, line: int)

  datatype SdpType = SdpOffer | SdpAnswer

  datatype ExitCode =
    | Success | InvalidArgument | InitializationFailed | MediaFailed
    | SignalingFailed | PeerConnectionFailed | Timeout | RuntimeFailed
  {
    function Number(): int {
      match this
      case Success => 0
      case InvalidArgument => 2
      case InitializationFailed => 3
      case MediaFailed => 4
      case SignalingFailed => 5
      case PeerConnectionFailed => 6
      case Timeout => 7
      case RuntimeFailed => 8
    }
  }

  datatype AppConfig = AppConfig(
    roomId: string, videoPath: string, logSeverity: string,
    timeoutSeconds: int, callDurationSeconds: int, statsIntervalSeconds: int,
    audioFrequencyHz: int, audioSampleRateHz: int, audioChannels: int)

  datatype ConfigError =
    | EmptyRoomId | EmptyVideoPath | BadLogSeverity | BadTimeout | BadCallDuration
    | BadStatsInterval | BadFrequency | BadSampleRate | BadChannels | CallLongerThanTimeout

  /** The answer of the room server to a join request. */
  datatype JoinResponse = JoinResponse(isInitiator: bool, messages: seq<Text>)

  /** The first complaint about a configuration, in the order the checks are made. */
  function ValidateConfig(c: AppConfig): (r: Option<ConfigError>)
    ensures r.None? <==>
      && c.roomId != "" && c.videoPath != ""
      && (c.logSeverity == "verbose" || c.logSeverity == "info" || c.logSeverity == "warning"
          || c.logSeverity == "error" || c.logSeverity == "none")
      && 0 < c.callDurationSeconds < c.timeoutSeconds && c.statsIntervalSeconds > 0
      && c.audioFrequencyHz > 0 && c.audioSampleRateHz > 0 && c.audioChannels > 0
    ensures r == Some(CallLongerThanTimeout) ==> 0 < c.timeoutSeconds <= c.callDurationSeconds
  {
    if c.roomId == "" then Some(EmptyRoomId)
    else if c.videoPath == "" then Some(EmptyVideoPath)
    else if c.logSeverity !in {"verbose", "info", "warning", "error", "none"} then Some(BadLogSeverity)
    else if c.timeoutSeconds <= 0 then Some(BadTimeout)
    else if c.callDurationSeconds <= 0 then Some(BadCallDuration)
    else if c.statsIntervalSeconds <= 0 then Some(BadStatsInterval)
    else if c.audioFrequencyHz <= 0 then Some(BadFrequency)
    else if c.audioSampleRateHz <= 0 then Some(BadSampleRate)
    else if c.audioChannels <= 0 then Some(BadChannels)
    else if c.callDurationSeconds >= c.timeoutSeconds then Some(CallLongerThanTimeout)
    else None
  }

  /** None stands for a text the JSON reader refuses; an unrecognised type is not an error. */
  function ParseSignalingMessage(text: Text): Option<Message> {
    match text
    case Malformed => None
    case Json(kind, sdp, candidate, id, line) =>
      if kind == "offer" then Some(Message(Offer, sdp, "", "", 0))
      else if kind == "answer" then Some(Message(Answer, sdp, "", "", 0))
      else if kind == "candidate" then Some(Message(Candidate, "", candidate, id, line))
      else if kind == "bye" then Some(Message(Bye, "", "", "", 0))
      else Some(Message(Unknown, "", "", "", 0))
  }

  function SerializeSessionDescription(t: SdpType, sdp: string): Text {
    Json(if t.SdpOffer? then "offer" else "answer", sdp, "", "", 0)
  }

  function SerializeIceCandidate(candidate: string, mid: string, mline: int): Text {
    Json("candidate", "", candidate, mid, mline)
  }

  function ByeMessage(): Text {
    Json("bye", "", "", "", 0)
  }

  function TypeOfSdp(t: SdpType): MessageType {
    match t case SdpOffer => Offer case SdpAnswer => Answer
  }

  /** The text reads as a message of this kind. */
  predicate Carries(text: Text, kind: MessageType) {
    ParseSignalingMessage(text).Some? && ParseSignalingMessage(text).value.kind == kind
  }

  /** The type alone decides how a text is read, whatever its other members are: one of the four, or unknown. Only a
      text that is no JSON is refused. */
  lemma TextsByType(text: Text)
    ensures ParseSignalingMessage(text).None? <==> text == Malformed
    ensures text.Json? ==> var m := ParseSignalingMessage(text).value;
      && (m.kind.Offer? <==> text.kind == "offer") && (m.kind.Answer? <==> text.kind == "answer")
      && (m.kind.Candidate? <==> text.kind == "candidate") && (m.kind.Bye? <==> text.kind == "bye")
      && m.sdp == (if text.kind == "offer" || text.kind == "answer" then text.sdp else "")
      && (if text.kind == "candidate"
          then m.candidate == text.candidate && m.sdpMid == text.id && m.sdpMlineIndex == text.line
          else m.candidate == "" && m.sdpMid == "" && m.sdpMlineIndex == 0)
  {
    assert |"offer"| == 5 && |"answer"| == 6 && |"candidate"| == 9 && |"bye"| == 3;
  }

  /** Whatever one peer writes, the other reads back with the same kind and content. */
  lemma SerializedTextsParse(t: SdpType, sdp: string, candidate: string, mid: string, mline: int)
    ensures ParseSignalingMessage(SerializeSessionDescription(t, sdp)) == Some(Message(TypeOfSdp(t), sdp, "", "", 0))
    ensures ParseSignalingMessage(SerializeIceCandidate(candidate, mid, mline))
         == Some(Message(Candidate, "", candidate, mid, mline))
    ensures ParseSignalingMessage(ByeMessage()) == Some(Message(Bye, "", "", "", 0))
    ensures Carries(SerializeSessionDescription(t, sdp), TypeOfSdp(t)) && Carries(ByeMessage(), Bye)
    ensures Carries(SerializeIceCandidate(candidate, mid, mline), Candidate)
  {
    assert |"offer"| == 5 && |"answer"| == 6 && |"candidate"| == 9 && |"bye"| == 3;
  }
}
