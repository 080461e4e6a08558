/** Stabbing intervals with at most two points: the combinatorial core of the radio planner.
    Intervals are visited in order of their right ends; zero stands for an unused point. */
module Stabbing {

  datatype Span = Span(lo: int, hi: int) {
    predicate Valid() { 0 < lo <= hi }
    predicate Has(x: int) { lo <= x <= hi }
  }

  datatype Points = Points(first: int, second: int, ok: bool) {
    function Top(): int { if first <= second then second else first }
  }

  /** Visit one interval: keep the points if one of them reaches it, otherwise put the next
      free point at its right end, otherwise give up. */
  function Visit(p: Points, x: Span): Points {
    if !p.ok then p
    else if p.first == 0 then p.(first := x.hi)
    else if x.lo <= p.first then p
    else if p.second == 0 then p.(second := x.hi)
    else if x.lo <= p.second then p
    else p.(ok := false)
  }

  ghost predicate AllValid(xs: set<Span>) { forall x <- xs :: x.Valid() }

  ghost predicate AllStartBy(xs: set<Span>, top: int) { forall x <- xs :: x.lo <= top }

  /** `least` is the smallest right end of an interval that starts above `above`. */
  ghost predicate IsLeastEnd(xs: set<Span>, above: int, least: int) {
    && (exists x <- xs :: x.lo > above && x.hi == least)
    && (forall x <- xs :: x.lo > above ==> least <= x.hi)
  }

  ghost predicate NextPoint(xs: set<Span>, above: int, point: int) {
    if AllStartBy(xs, above) then point == 0 else IsLeastEnd(xs, above, point)
  }

  /** What the points are, without any order on the intervals: the first is the least right
      end of all, the second the least right end of those starting above the first, a point
      nothing needs is zero, and it is a failure exactly when an interval starts above both. */
  ghost predicate Describes(xs: set<Span>, p: Points) {
    && NextPoint(xs, 0, p.first)
    && NextPoint(xs, p.first, p.second)
    && (p.ok <==> AllStartBy(xs, p.Top()))
  }

  /** Visiting an interval at least as far right as all earlier ones keeps the description. */
  lemma VisitDescribes(xs: set<Span>, p: Points, y: Span)
    requires AllValid(xs) && y.Valid()
    requires forall x <- xs :: x.hi <= y.hi
    requires Describes(xs, p)
    ensures Describes(xs + {y}, Visit(p, y))
  {
    assert y in xs + {y};
    StartByExtends(xs, 0, y);
    StartByExtends(xs, p.first, y);
    StartByExtends(xs, p.Top(), y);
    LeastEndExtends(xs, 0, p.first, y);
    LeastEndExtends(xs, p.first, p.second, y);
    if p.first == 0 {
      assert forall x <- xs :: x.Valid() && x.lo <= 0;
      assert xs == {};
    }
  }

  lemma StartByExtends(xs: set<Span>, top: int, y: Span)
    ensures AllStartBy(xs + {y}, top) <==> AllStartBy(xs, top) && y.lo <= top
  {
    assert y in xs + {y};
  }

  lemma LeastEndExtends(xs: set<Span>, above: int, least: int, y: Span)
    requires forall x <- xs :: x.hi <= y.hi
    ensures IsLeastEnd(xs, above, least) ==> IsLeastEnd(xs + {y}, above, least)
  {
    if IsLeastEnd(xs, above, least) {
      var x :| x in xs && x.lo > above && x.hi == least;
      assert x in xs + {y} && least <= y.hi;
    }
  }

  /** A description has only one solution. */
  lemma DescriptionUnique(xs: set<Span>, p: Points, q: Points)
    requires Describes(xs, p) && Describes(xs, q)
    ensures p == q
  {
    NextPointUnique(xs, 0, p.first, q.first);
    NextPointUnique(xs, p.first, p.second, q.second);
  }

  lemma NextPointUnique(xs: set<Span>, above: int, p: int, q: int)
    requires NextPoint(xs, above, p) && NextPoint(xs, above, q)
    ensures p == q
  {
  }

  /** Success: each interval contains a point that is in use, the first one exactly when it
      starts no higher than the first point. */
  lemma PointsStab(xs: set<Span>, p: Points, x: Span)
    requires AllValid(xs) && x in xs && Describes(xs, p) && p.ok
    ensures x.Has(p.first) || x.Has(p.second)
    ensures p.first != 0 && (x.Has(p.first) <==> x.lo <= p.first)
    ensures x.Has(p.second) && !x.Has(p.first) ==> p.second > p.first
  {
    assert x.lo > 0 && !AllStartBy(xs, 0);
    if x.lo > p.first {
      assert !AllStartBy(xs, p.first);
    }
  }

  /** No point lies in two of the three intervals. */
  ghost predicate PairwiseApart(a: Span, b: Span, c: Span) {
    forall x: int :: !(a.Has(x) && b.Has(x)) && !(a.Has(x) && c.Has(x)) && !(b.Has(x) && c.Has(x))
  }

  /** Failure: three intervals no two of which share a point, so no two points can do. */
  lemma FailureWitness(xs: set<Span>, p: Points) returns (a: Span, b: Span, c: Span)
    requires AllValid(xs) && Describes(xs, p) && !p.ok
    ensures a in xs && b in xs && c in xs && PairwiseApart(a, b, c)
  {
    c :| c in xs && c.lo > p.Top();
    assert !AllStartBy(xs, 0) && !AllStartBy(xs, p.first);
    a :| a in xs && a.hi == p.first;
    b :| b in xs && b.lo > p.first && b.hi == p.second;
  }

  ghost predicate StabsAll(point: int, xs: set<Span>) { forall x <- xs :: x.Has(point) }

  /** The second point stays unused exactly when one point is enough. */
  lemma OnePointEnough(xs: set<Span>, p: Points)
    requires AllValid(xs) && Describes(xs, p)
    ensures p.second == 0 <==> exists point: int :: StabsAll(point, xs)
    ensures p.second != 0 ==> p.second > p.first
    ensures p.first == 0 <==> xs == {}
  {
    if xs == {} {
      assert StabsAll(0, xs);
    } else {
      var y :| y in xs;
      assert y.lo > 0 && !AllStartBy(xs, 0);
      if p.second == 0 {
        assert AllStartBy(xs, p.first);
        assert StabsAll(p.first, xs);
      } else {
        var a :| a in xs && a.hi == p.first;
        var b :| b in xs && b.lo > p.first && b.hi == p.second;
        forall point: int ensures !StabsAll(point, xs) {
          assert !(a.Has(point) && b.Has(point));
        }
      }
    }
  }
}
