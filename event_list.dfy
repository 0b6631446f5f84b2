/** The pending-event list of FilaSimples.py, kept there with heapq as a
    binary heap of (time, kind) tuples. Only what heappush and heappop
    promise is modelled: push adds one element, pop removes a least one
    under Python's tuple order. */
module EventList {

  datatype Kind = Arrival | Departure

  datatype Event = Event(time: real, kind: Kind)

  /** Python compares the tuples (time, "arrival") and (time, "departure")
      by time first and then by the strings, and "arrival" < "departure";
      so on equal times an arrival comes first. */
  predicate Precedes(e: Event, f: Event)
  {
    e.time < f.time || (e.time == f.time && (e.kind == Arrival || f.kind == Departure))
  }

  /** The order is total and transitive, so a least element always exists. */
  lemma PrecedesIsTotalPreorder(e: Event, f: Event, g: Event)
    ensures Precedes(e, f) || Precedes(f, e)
    ensures Precedes(e, f) && Precedes(f, g) ==> Precedes(e, g)
    ensures Precedes(e, f) && Precedes(f, e) ==> e == f
  {
  }

  /** The position of a least event. */
  function MinIndex(q: seq<Event>): (i: nat)
    requires |q| > 0
    ensures i < |q|
    ensures forall j :: 0 <= j < |q| ==> Precedes(q[i], q[j])
    decreases |q|
  {
    if |q| == 1 then 0
    else
      var k := MinIndex(q[..|q| - 1]);
      if Precedes(q[k], q[|q| - 1]) then k else |q| - 1
  }

  /** The number of events of one kind in the list. */
  function CountKind(q: seq<Event>, k: Kind): nat
    decreases |q|
  {
    if |q| == 0 then 0
    else CountKind(q[..|q| - 1], k) + (if q[|q| - 1].kind == k then 1 else 0)
  }

  lemma {:induction false} CountKindConcat(a: seq<Event>, b: seq<Event>, k: Kind)
    ensures CountKind(a + b, k) == CountKind(a, k) + CountKind(b, k)
    decreases |b|
  {
    if |b| > 0 {
      assert (a + b)[..|a + b| - 1] == a + b[..|b| - 1];
      CountKindConcat(a, b[..|b| - 1], k);
    } else {
      assert a + b == a;
    }
  }

  /** heappush: the list holds one more event of e's kind. */
  function Push(q: seq<Event>, e: Event): (r: seq<Event>)
    ensures |r| == |q| + 1
    ensures forall k :: CountKind(r, k) == CountKind(q, k) + (if e.kind == k then 1 else 0)
  {
    assert (q + [e])[..|q|] == q;
    q + [e]
  }

  /** heappush adds exactly e to the events held. */
  lemma PushContents(q: seq<Event>, e: Event)
    ensures multiset(Push(q, e)) == multiset(q) + multiset{e}
  {
  }

  /** heappop: a least event and the list without it. */
  function Pop(q: seq<Event>): (r: (Event, seq<Event>))
    requires |q| > 0
    ensures multiset(q) == multiset(r.1) + multiset{r.0}
    ensures |r.1| == |q| - 1
    ensures forall j :: 0 <= j < |q| ==> Precedes(r.0, q[j])
    ensures forall k :: CountKind(q, k) == CountKind(r.1, k) + (if r.0.kind == k then 1 else 0)
  {
    var i := MinIndex(q);
    var rest := q[..i] + q[i + 1..];
    assert q == q[..i] + [q[i]] + q[i + 1..];
    forall k
      ensures CountKind(q, k) == CountKind(rest, k) + (if q[i].kind == k then 1 else 0)
    {
      CountKindConcat(q[..i] + [q[i]], q[i + 1..], k);
      CountKindConcat(q[..i], [q[i]], k);
      CountKindConcat(q[..i], q[i + 1..], k);
      assert [q[i]][..0] == [];
    }
    (q[i], rest)
  }
}
