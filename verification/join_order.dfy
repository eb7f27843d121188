/** The order in which the messages of a join response are handled. */
module JoinOrder {
  import opened Sequences
  import opened Common
  import opened ControllerSpec

  predicate SortedByPriority(ms: seq<Message>) {
    forall i, j | 0 <= i < j < |ms| :: QueuedMessagePriority(ms[i].kind) <= QueuedMessagePriority(ms[j].kind)
  }

  /** The same messages, those of equal priority in the same order. */
  predicate Rearranges(ms: seq<Message>, ns: seq<Message>) {
    forall p | 0 <= p <= 3 :: OfPriority(p, ms) == OfPriority(p, ns)
  }

  lemma {:induction false} AllOfPriority(p: nat, ms: seq<Message>)
    ensures forall m <- OfPriority(p, ms) :: QueuedMessagePriority(m.kind) == p && m in ms
  {
    forall m | m in OfPriority(p, ms)
      ensures QueuedMessagePriority(m.kind) == p && m in ms
    {
      FilterMember(HasPriority(p), ms, m);
    }
  }

  lemma {:induction false} PriorityOfPriority(p: nat, q: nat, ms: seq<Message>)
    ensures OfPriority(q, OfPriority(p, ms)) == if p == q then OfPriority(p, ms) else []
  {
    if ms != [] {
      PriorityOfPriority(p, q, ms[1..]);
      FilterAppend(HasPriority(q), if HasPriority(p)(ms[0]) then [ms[0]] else [], OfPriority(p, ms[1..]));
    }
  }

  /** What std::stable_sort promises for the comparison by priority. */
  lemma StableOrderIsStableSort(ms: seq<Message>)
    ensures SortedByPriority(StableOrder(ms)) && Rearranges(ms, StableOrder(ms))
  {
    hide OfPriority, StableOrder;
    forall p | 0 <= p <= 3
      ensures OfPriority(p, ms) == OfPriority(p, StableOrder(ms))
    {
      StableOrderKeepsPriority(p, ms);
    }
    StableOrderSorts(ms);
  }

  lemma StableOrderSorts(ms: seq<Message>)
    ensures SortedByPriority(StableOrder(ms))
  {
    hide OfPriority;
    forall q | 0 <= q <= 3 {
      AllOfPriority(q, ms);
    }
  }

  lemma StableOrderKeepsPriority(p: nat, ms: seq<Message>)
    requires p <= 3
    ensures OfPriority(p, StableOrder(ms)) == OfPriority(p, ms)
  {
    hide StableOrder, Filter;
    StableOrderParts(HasPriority(p), ms);
    PriorityOfPriority(0, p, ms);
    PriorityOfPriority(1, p, ms);
    PriorityOfPriority(2, p, ms);
    PriorityOfPriority(3, p, ms);
  }

  lemma StableOrderParts(keep: Message -> bool, ms: seq<Message>)
    ensures Filter(keep, StableOrder(ms)) == Filter(keep, OfPriority(0, ms)) + Filter(keep, OfPriority(1, ms))
         + Filter(keep, OfPriority(2, ms)) + Filter(keep, OfPriority(3, ms))
  {
    FilterAppend(keep, OfPriority(0, ms) + OfPriority(1, ms) + OfPriority(2, ms), OfPriority(3, ms));
    FilterAppend(keep, OfPriority(0, ms) + OfPriority(1, ms), OfPriority(2, ms));
    FilterAppend(keep, OfPriority(0, ms), OfPriority(1, ms));
  }

  /** A rearrangement has the same members. */
  lemma SameMembers(ms: seq<Message>, ns: seq<Message>, m: Message)
    requires Rearranges(ms, ns)
    ensures m in ms <==> m in ns
  {
    var p := QueuedMessagePriority(m.kind);
    assert OfPriority(p, ms) == OfPriority(p, ns);
    FilterMember(HasPriority(p), ms, m);
    FilterMember(HasPriority(p), ns, m);
  }

  /** The promise determines the result: there is only one stable order by priority. */
  lemma {:induction false} StableSortIsUnique(ms: seq<Message>, ns: seq<Message>)
    requires SortedByPriority(ms) && SortedByPriority(ns) && Rearranges(ms, ns)
    ensures ms == ns
    decreases |ms|
  {
    if ms == [] {
      if ns != [] {
        SameMembers(ms, ns, ns[0]);
        assert false;
      }
    } else {
      SameMembers(ms, ns, ms[0]);
      SameHead(ms, ns);
      forall r | 0 <= r <= 3
        ensures OfPriority(r, ms[1..]) == OfPriority(r, ns[1..])
      {
        var first := if HasPriority(r)(ms[0]) then [ms[0]] else [];
        assert OfPriority(r, ms) == OfPriority(r, ns);
        assert OfPriority(r, ms[1..]) == OfPriority(r, ms)[|first|..];
        assert OfPriority(r, ns[1..]) == OfPriority(r, ns)[|first|..];
      }
      StableSortIsUnique(ms[1..], ns[1..]);
      assert ms == [ms[0]] + ms[1..] && ns == [ns[0]] + ns[1..];
    }
  }

  lemma SameHead(ms: seq<Message>, ns: seq<Message>)
    requires ms != [] && ns != [] && SortedByPriority(ms) && SortedByPriority(ns) && Rearranges(ms, ns)
    ensures ms[0] == ns[0]
  {
    FirstOfSorted(ms, ns);
    RearrangesBack(ms, ns);
    FirstOfSorted(ns, ms);
    var p := QueuedMessagePriority(ms[0].kind);
    assert OfPriority(p, ms) == OfPriority(p, ns);
    assert OfPriority(p, ms)[0] == ms[0] && OfPriority(p, ns)[0] == ns[0];
  }

  lemma RearrangesBack(ms: seq<Message>, ns: seq<Message>)
    requires Rearranges(ms, ns)
    ensures Rearranges(ns, ms)
  {
  }

  /** The first message of a sorted list has a priority at most that of any other list's first message. */
  lemma FirstOfSorted(ms: seq<Message>, ns: seq<Message>)
    requires ms != [] && ns != [] && SortedByPriority(ms) && Rearranges(ms, ns)
    ensures QueuedMessagePriority(ms[0].kind) <= QueuedMessagePriority(ns[0].kind)
  {
    SameMembers(ms, ns, ns[0]);
  }

  /** Messages that all have one priority keep their order. */
  lemma OrderKeeps(keep: Message -> bool, p: nat, ms: seq<Message>)
    requires p <= 3 && forall m :: keep(m) ==> QueuedMessagePriority(m.kind) == p
    ensures Filter(keep, StableOrder(ms)) == Filter(keep, ms)
  {
    StableOrderParts(keep, ms);
    forall q | 0 <= q <= 3
      ensures Filter(keep, OfPriority(q, ms)) == if q == p then Filter(keep, ms) else []
    {
      if q == p {
        FilterTwice(keep, HasPriority(p), ms);
      } else {
        AllOfPriority(q, ms);
        CountNone(keep, OfPriority(q, ms));
      }
    }
  }

  predicate IsDescriptionMessage(m: Message) {
    m.kind.Offer? || m.kind.Answer?
  }

  /** However the room server stored them, the descriptions of a join response come out first, then the
      candidates, then a bye, and what is not understood last; nothing that parses is lost or repeated. */
  lemma JoinQueueOrder(r: JoinResponse)
    ensures var q := JoinQueue(r);
      && (forall i, j | 0 <= i < j < |q| ::
            && (IsDescriptionMessage(q[j]) ==> IsDescriptionMessage(q[i]))
            && (q[j].kind.Candidate? ==> !q[i].kind.Bye? && !q[i].kind.Unknown?)
            && (q[j].kind.Bye? ==> !q[i].kind.Unknown?))
      && |q| == |Collect(ParseSignalingMessage, r.messages)|
      && forall m :: m in q <==> m in Collect(ParseSignalingMessage, r.messages)
  {
    hide StableOrder, ParseSignalingMessage;
    var parsed := Collect(ParseSignalingMessage, r.messages);
    StableOrderIsStableSort(parsed);
    OrderLength(parsed);
    forall m
      ensures m in StableOrder(parsed) <==> m in parsed
    {
      SameMembers(parsed, StableOrder(parsed), m);
    }
  }

  lemma {:induction false} OrderLength(ms: seq<Message>)
    ensures |StableOrder(ms)| == |ms|
  {
    if ms != [] {
      OrderLength(ms[1..]);
    }
  }
}
