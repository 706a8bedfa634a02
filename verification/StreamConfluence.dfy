/** How a stream's events are interleaved across blocks does not matter. */
module StreamConfluence {
  import opened StreamEvents
  import opened StreamGrammar
  import opened StreamAccumulator

  lemma {:induction false} ProjectionBeyond(a: seq<Event>, b: seq<Event>, k: nat, n: nat)
    requires n <= |b|
    ensures ProjectionUpTo(a + b, k, |a| + n) == Projection(a, k) + ProjectionUpTo(b, k, n)
  {
    if n == 0 {
      ProjectionOfPrefix(a, b, k, |a|);
    } else {
      ProjectionBeyond(a, b, k, n - 1);
    }
  }

  lemma ProjectionConcat(a: seq<Event>, b: seq<Event>, k: nat)
    ensures Projection(a + b, k) == Projection(a, k) + Projection(b, k)
  {
    ProjectionBeyond(a, b, k, |b|);
  }

  lemma {:induction false} OpeningsBeyond(a: seq<Event>, b: seq<Event>, n: nat)
    requires n <= |b|
    ensures OpeningsUpTo(a + b, |a| + n) == Openings(a) + OpeningsUpTo(b, n)
  {
    if n == 0 {
      OpeningsOfPrefix(a, b, |a|);
    } else {
      OpeningsBeyond(a, b, n - 1);
    }
  }

  lemma OpeningsConcat(a: seq<Event>, b: seq<Event>)
    ensures Openings(a + b) == Openings(a) + Openings(b)
  {
    OpeningsBeyond(a, b, |b|);
  }

  /** A stream with the outer shape of a message: Start, content events, terminal. */
  ghost predicate Framed(events: seq<Event>) {
    && |events| >= 2
    && events[0].Start?
    && events[|events| - 1].IsTerminal()
    && forall i :: 0 <= i < |Body(events)| ==> Body(events)[i].IsContent()
  }

  ghost predicate SameProjections(a: seq<Event>, b: seq<Event>) {
    forall k: nat :: Projection(a, k) == Projection(b, k)
  }

  /** Two framed streams with the same terminal, block by block the same and opening blocks in
      the same order, have the same outcome: both refused, or both the same message. */
  lemma InterleavingIrrelevant(parse: Parser, a: seq<Event>, b: seq<Event>, provider: string, modelId: string, now: nat)
    requires Framed(a) && Framed(b)
    requires a[|a| - 1] == b[|b| - 1]
    requires SameProjections(Body(a), Body(b)) && Openings(Body(a)) == Openings(Body(b))
    ensures Outcome(parse, a, provider, modelId, now) == Outcome(parse, b, provider, modelId, now)
  {
    var cut := Truncates(a[|a| - 1]);
    assert BodyOk(parse, cut, Body(a)) <==> BodyOk(parse, cut, Body(b));
    if BodyOk(parse, cut, Body(a)) {
      assert Blocks(parse, cut, Body(a)) == Blocks(parse, cut, Body(b));
    }
  }

  /** Two accepted streams with the same terminal and the same blocks give the same message. */
  lemma Confluence(parse: Parser, a: seq<Event>, b: seq<Event>, provider: string, modelId: string, now: nat)
    requires StreamOk(parse, a) && StreamOk(parse, b)
    requires a[|a| - 1] == b[|b| - 1]
    requires SameProjections(Body(a), Body(b))
    ensures MessageOf(parse, a, provider, modelId, now) == MessageOf(parse, b, provider, modelId, now)
  {
    var n, m := |Openings(Body(a))|, |Openings(Body(b))|;
    assert Projection(Body(a), n) == Projection(Body(b), n) && Projection(Body(a), m) == Projection(Body(b), m);
    assert n == m;
    assert Openings(Body(a)) == Openings(Body(b));
    InterleavingIrrelevant(parse, a, b, provider, modelId, now);
  }

  /** Neighbouring events of different blocks may be swapped, unless both open a block. */
  lemma NeighboursCommute(parse: Parser, before: seq<Event>, x: Event, y: Event, after: seq<Event>,
                          provider: string, modelId: string, now: nat)
    requires x.IsContent() && y.IsContent() && x.index != y.index && !(x.IsOpening() && y.IsOpening())
    requires Framed(before + [x, y] + after) && before != [] && after != []
    ensures Outcome(parse, before + [x, y] + after, provider, modelId, now)
         == Outcome(parse, before + [y, x] + after, provider, modelId, now)
  {
    var a, b := before + [x, y] + after, before + [y, x] + after;
    var front, back := before[1..], after[..|after| - 1];
    assert Body(a) == front + [x, y] + back && Body(b) == front + [y, x] + back;
    forall i | 0 <= i < |Body(b)| ensures Body(b)[i].IsContent() {
      var j := if i == |front| then i + 1 else if i == |front| + 1 then i - 1 else i;
      assert Body(b)[i] == Body(a)[j];
    }
    forall k: nat ensures Projection(Body(a), k) == Projection(Body(b), k) {
      PairProjection(x, y, k);
      PairProjection(y, x, k);
      ProjectionConcat(front, [x, y], k);
      ProjectionConcat(front + [x, y], back, k);
      ProjectionConcat(front, [y, x], k);
      ProjectionConcat(front + [y, x], back, k);
    }
    PairOpenings(x, y);
    PairOpenings(y, x);
    OpeningsConcat(front, [x, y]);
    OpeningsConcat(front + [x, y], back);
    OpeningsConcat(front, [y, x]);
    OpeningsConcat(front + [y, x], back);
    assert Framed(b);
    InterleavingIrrelevant(parse, a, b, provider, modelId, now);
  }

  lemma PairProjection(x: Event, y: Event, k: nat)
    requires x.IsContent() && y.IsContent() && x.index != y.index
    ensures Projection([x, y], k) == if x.index == k then [x] else if y.index == k then [y] else []
  {
    assert [] + [x] == [x] && [x] + [y] == [x, y] && [] + [y] == [y];
    ProjectionSnoc([], x, k);
    ProjectionSnoc([x], y, k);
  }

  lemma PairOpenings(x: Event, y: Event)
    requires !(x.IsOpening() && y.IsOpening())
    ensures Openings([x, y]) == if x.IsOpening() then [x.index] else if y.IsOpening() then [y.index] else []
  {
    assert [] + [x] == [x] && [x] + [y] == [x, y] && [] + [y] == [y];
    OpeningsSnoc([], x);
    OpeningsSnoc([x], y);
  }
}
