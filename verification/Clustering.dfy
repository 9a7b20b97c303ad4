// The clustering loop of quantize, over the reals: seeding, reassignment, centroid moves, and
// the potential they never increase.
module Clustering {

  datatype Perceptual = Perceptual(l: real, a: real, b: real, alpha: real)

  datatype Sample = Sample(count: nat, color: Perceptual)

  function Square(x: real): real
  {
    x * x
  }

  function Distance(left: Perceptual, right: Perceptual): (d: real)
    ensures d >= 0.0
  {
    SquareNonNegative(left.l - right.l);
    SquareNonNegative(left.a - right.a);
    SquareNonNegative(left.b - right.b);
    SquareNonNegative((left.alpha - right.alpha) * 0.35);
    Square(left.l - right.l) + Square(left.a - right.a) + Square(left.b - right.b)
    + Square((left.alpha - right.alpha) * 0.35)
  }

  lemma SquareNonNegative(x: real)
    ensures Square(x) >= 0.0
  {
  }

  // The squared distance splits into its four axes; a step in alpha counts for 0.35 of one in
  // the others.
  lemma DistanceByAxis(c: Perceptual, x: real)
    ensures Distance(c, c.(l := c.l + x)) == x * x && Distance(c, c.(a := c.a + x)) == x * x
    ensures Distance(c, c.(b := c.b + x)) == x * x && Distance(c, c.(alpha := c.alpha + x)) == 0.1225 * (x * x)
  {
  }

  // ---- nearest ------------------------------------------------------------------------------

  // The first centroid at minimum distance.
  ghost predicate IsNearest(color: Perceptual, centroids: seq<Perceptual>, best: nat)
  {
    && best < |centroids|
    && (forall j :: 0 <= j < |centroids| ==> Distance(color, centroids[best]) <= Distance(color, centroids[j]))
    && (forall j :: 0 <= j < best ==> Distance(color, centroids[best]) < Distance(color, centroids[j]))
  }

  method Nearest(color: Perceptual, centroids: seq<Perceptual>) returns (best: nat)
    requires centroids != []
    ensures IsNearest(color, centroids, best)
  {
    best := 0;
    var bestDistance := Distance(color, centroids[0]);
    for index := 1 to |centroids|
      invariant best < index && bestDistance == Distance(color, centroids[best])
      invariant forall j :: 0 <= j < index ==> bestDistance <= Distance(color, centroids[j])
      invariant forall j :: 0 <= j < best ==> bestDistance < Distance(color, centroids[j])
    {
      var distance := Distance(color, centroids[index]);
      if distance < bestDistance {
        bestDistance := distance;
        best := index;
      }
    }
  }

  // ---- Potential ----------------------------------------------------------------------------

  ghost predicate Assigned(samples: seq<Sample>, assignments: seq<nat>, centroids: seq<Perceptual>)
  {
    && |assignments| == |samples|
    && forall i :: 0 <= i < |samples| ==> assignments[i] < |centroids|
  }

  // Sum of count times distance to the assigned centroid, at any price. The lemmas that
  // only add and compare are about an arbitrary price.
  ghost function PotentialBy(samples: seq<Sample>, assignments: seq<nat>, centroids: seq<Perceptual>,
                             price: Pricing): real
    requires Assigned(samples, assignments, centroids)
  {
    if samples == [] then 0.0
    else
      var n := |samples| - 1;
      PotentialBy(samples[..n], assignments[..n], centroids, price)
      + price(samples[n], centroids[assignments[n]])
  }

  type Pricing = (Sample, Perceptual) -> real

  // What one sample pays at a centroid.
  function Price(s: Sample, c: Perceptual): (p: real)
    ensures p >= 0.0
  {
    ProductNonNegative(s.count, Distance(s.color, c));
    s.count as real * Distance(s.color, c)
  }

  lemma ProductNonNegative(w: nat, x: real)
    requires x >= 0.0
    ensures w as real * x >= 0.0
  {
  }

  ghost function Potential(samples: seq<Sample>, assignments: seq<nat>, centroids: seq<Perceptual>): real
    requires Assigned(samples, assignments, centroids)
  {
    PotentialBy(samples, assignments, centroids, Price)
  }

  lemma ScaleMonotone(w: nat, x: real, y: real)
    requires x <= y
    ensures w as real * x <= w as real * y
  {
  }

  lemma {:induction false} ReassignImproves(samples: seq<Sample>, before: seq<nat>, after: seq<nat>,
                                            centroids: seq<Perceptual>, price: Pricing)
    requires Assigned(samples, before, centroids) && Assigned(samples, after, centroids)
    requires forall i :: 0 <= i < |samples| ==>
               price(samples[i], centroids[after[i]]) <= price(samples[i], centroids[before[i]])
    ensures PotentialBy(samples, after, centroids, price) <= PotentialBy(samples, before, centroids, price)
  {
    if samples != [] {
      var n := |samples| - 1;
      ReassignImproves(samples[..n], before[..n], after[..n], centroids, price);
    }
  }

  // ---- Cluster sums -------------------------------------------------------------------------

  function Plus(p: Perceptual, q: Perceptual): Perceptual
  {
    Perceptual(p.l + q.l, p.a + q.a, p.b + q.b, p.alpha + q.alpha)
  }

  function Minus(p: Perceptual, q: Perceptual): Perceptual
  {
    Perceptual(p.l - q.l, p.a - q.a, p.b - q.b, p.alpha - q.alpha)
  }

  function Scale(w: real, p: Perceptual): Perceptual
  {
    Perceptual(p.l * w, p.a * w, p.b * w, p.alpha * w)
  }

  function Origin(): Perceptual
  {
    Perceptual(0.0, 0.0, 0.0, 0.0)
  }

  // Total count in cluster k.
  ghost function Mass(samples: seq<Sample>, assignments: seq<nat>, k: nat): nat
    requires |assignments| == |samples|
  {
    if samples == [] then 0
    else
      var n := |samples| - 1;
      Mass(samples[..n], assignments[..n], k) + if assignments[n] == k then samples[n].count else 0
  }

  // The samples of cluster k, joined one after the other.
  ghost function Fold<M>(samples: seq<Sample>, assignments: seq<nat>, k: nat, zero: M, join: (M, Sample) -> M): M
    requires |assignments| == |samples|
  {
    if samples == [] then zero
    else
      var n := |samples| - 1;
      var init := Fold(samples[..n], assignments[..n], k, zero, join);
      if assignments[n] == k then join(init, samples[n]) else init
  }

  function Join(moment: Perceptual, s: Sample): Perceptual
  {
    Plus(moment, Scale(s.count as real, s.color))
  }

  // Count-weighted colour sum of cluster k.
  ghost function Moment(samples: seq<Sample>, assignments: seq<nat>, k: nat): Perceptual
    requires |assignments| == |samples|
  {
    Fold(samples, assignments, k, Origin(), Join)
  }

  // What cluster k pays when its centroid is c.
  ghost function Cost(samples: seq<Sample>, assignments: seq<nat>, k: nat, c: Perceptual, price: Pricing): real
    requires |assignments| == |samples|
  {
    if samples == [] then 0.0
    else
      var n := |samples| - 1;
      Cost(samples[..n], assignments[..n], k, c, price)
      + if assignments[n] == k then price(samples[n], c) else 0.0
  }

  // Changing one centroid changes the potential by the cost of its own cluster.
  lemma {:induction false} MoveOne(samples: seq<Sample>, assignments: seq<nat>, centroids: seq<Perceptual>, k: nat,
                                   m: Perceptual, price: Pricing)
    requires Assigned(samples, assignments, centroids) && k < |centroids|
    ensures Assigned(samples, assignments, centroids[k := m])
    ensures PotentialBy(samples, assignments, centroids[k := m], price)
            == PotentialBy(samples, assignments, centroids, price)
               - Cost(samples, assignments, k, centroids[k], price) + Cost(samples, assignments, k, m, price)
  {
    if samples != [] {
      var n := |samples| - 1;
      MoveOne(samples[..n], assignments[..n], centroids, k, m, price);
    }
  }

  // ---- The weighted mean is the cheapest centroid -------------------------------------------

  // The scaled inner product behind Distance.
  function Dot(u: Perceptual, v: Perceptual): real
  {
    u.l * v.l + u.a * v.a + u.b * v.b + (u.alpha * 0.35) * (v.alpha * 0.35)
  }

  // What a sample of weight w pays for the distance u along one axis.
  function Pay(w: real, u: real): real
  {
    w * Square(u)
  }

  // The part of the scaled inner product that one axis contributes.
  function Cross(w: real, x: real, m: real, c: real): real
  {
    (x * w - m * w) * (m - c)
  }

  lemma AxisSplit(w: real, x: real, m: real, c: real)
    ensures Pay(w, x - c) == Pay(w, x - m) + Pay(w, m - c) + 2.0 * Cross(w, x, m, c)
  {
  }

  lemma AlphaScaled(x: real, c: real)
    ensures x * 0.35 - c * 0.35 == (x - c) * 0.35
  {
  }

  lemma AlphaSplit(w: real, x: real, m: real, c: real)
    ensures Pay(w, (x - c) * 0.35)
            == Pay(w, (x - m) * 0.35) + Pay(w, (m - c) * 0.35) + 2.0 * Cross(w, x * 0.35, m * 0.35, c * 0.35)
  {
    AxisSplit(w, x * 0.35, m * 0.35, c * 0.35);
    AlphaScaled(x, c);
    AlphaScaled(x, m);
    AlphaScaled(m, c);
  }

  lemma DistancePays(w: real, p: Perceptual, q: Perceptual)
    ensures w * Distance(p, q)
            == Pay(w, p.l - q.l) + Pay(w, p.a - q.a) + Pay(w, p.b - q.b) + Pay(w, (p.alpha - q.alpha) * 0.35)
  {
  }

  lemma DotCrosses(w: real, x: Perceptual, m: Perceptual, c: Perceptual)
    ensures Dot(Minus(Scale(w, x), Scale(w, m)), Minus(m, c))
            == Cross(w, x.l, m.l, c.l) + Cross(w, x.a, m.a, c.a) + Cross(w, x.b, m.b, c.b)
               + Cross(w, x.alpha * 0.35, m.alpha * 0.35, c.alpha * 0.35)
  {
    AlphaScaled(m.alpha, c.alpha);
    AlphaCross(w, x.alpha, m.alpha, m.alpha - c.alpha);
  }

  lemma AlphaCross(w: real, x: real, m: real, d: real)
    ensures (x * 0.35 * w - m * 0.35 * w) * (d * 0.35) == ((x * w - m * w) * 0.35) * (d * 0.35)
  {
  }

  // One weighted sample seen from c and from m.
  lemma SampleSplit(w: real, x: Perceptual, m: Perceptual, c: Perceptual)
    ensures w * Distance(x, c)
            == w * Distance(x, m) + w * Distance(m, c) + 2.0 * Dot(Minus(Scale(w, x), Scale(w, m)), Minus(m, c))
  {
    DistancePays(w, x, c);
    DistancePays(w, x, m);
    DistancePays(w, m, c);
    DotCrosses(w, x, m, c);
    AxisSplit(w, x.l, m.l, c.l);
    AxisSplit(w, x.a, m.a, c.a);
    AxisSplit(w, x.b, m.b, c.b);
    AlphaSplit(w, x.alpha, m.alpha, c.alpha);
  }

  lemma DotAdds(u: Perceptual, v: Perceptual, w: Perceptual)
    ensures Dot(Plus(u, v), w) == Dot(u, w) + Dot(v, w)
  {
  }

  // What a cluster of the given mass and moment pays at c on top of what it pays at m.
  function Excess(mass: nat, moment: Perceptual, m: Perceptual, c: Perceptual): real
  {
    mass as real * Distance(m, c) + 2.0 * Dot(Minus(moment, Scale(mass as real, m)), Minus(m, c))
  }

  lemma ExcessAdds(mass: nat, moment: Perceptual, s: Sample, m: Perceptual, c: Perceptual)
    ensures Excess(mass + s.count, Join(moment, s), m, c)
            == Excess(mass, moment, m, c) + Price(s, c) - Price(s, m)
  {
    SampleSplit(s.count as real, s.color, m, c);
    SplitAdds(mass as real, moment, s.count as real, s.color, m, c);
  }

  // The induction behind CostSplit, about any quantity that one sample extends in the same way.
  lemma {:induction false} CostSplitBy<M(!new)>(samples: seq<Sample>, assignments: seq<nat>, k: nat, m: Perceptual,
                                                c: Perceptual,
      price: Pricing, zero: M, join: (M, Sample) -> M, excess: (nat, M) -> real)
    requires |assignments| == |samples| && excess(0, zero) == 0.0
    requires forall mass: nat, moment: M, s: Sample :: excess(mass + s.count, join(moment, s))
               == excess(mass, moment) + price(s, c) - price(s, m)
    ensures Cost(samples, assignments, k, c, price)
            == Cost(samples, assignments, k, m, price)
               + excess(Mass(samples, assignments, k), Fold(samples, assignments, k, zero, join))
  {
    if samples != [] {
      var n := |samples| - 1;
      CostSplitBy(samples[..n], assignments[..n], k, m, c, price, zero, join, excess);
      var mass0, moment0 := Mass(samples[..n], assignments[..n], k),
          Fold(samples[..n], assignments[..n], k, zero, join);
      assert excess(mass0 + samples[n].count, join(moment0, samples[n]))
          == excess(mass0, moment0) + price(samples[n], c) - price(samples[n], m);
    }
  }

  lemma CostSplit(samples: seq<Sample>, assignments: seq<nat>, k: nat, m: Perceptual, c: Perceptual)
    requires |assignments| == |samples|
    ensures Cost(samples, assignments, k, c, Price)
            == Cost(samples, assignments, k, m, Price)
               + Excess(Mass(samples, assignments, k), Moment(samples, assignments, k), m, c)
  {
    var excess := (mass: nat, moment: Perceptual) => Excess(mass, moment, m, c);
    forall mass: nat, moment: Perceptual, s: Sample
      ensures excess(mass + s.count, Join(moment, s))
              == excess(mass, moment) + Price(s, c) - Price(s, m)
    {
      ExcessAdds(mass, moment, s, m, c);
    }
    DotOrigin(m, c);
    CostSplitBy(samples, assignments, k, m, c, Price, Origin(), Join, excess);
  }

  lemma DotOrigin(m: Perceptual, c: Perceptual)
    ensures Excess(0, Origin(), m, c) == 0.0
    ensures Dot(Origin(), Minus(m, c)) == 0.0
  {
    assert Minus(Origin(), Scale(0.0, m)) == Origin();
  }

  lemma SplitAdds(w0: real, moment: Perceptual, w1: real, x: Perceptual, m: Perceptual, c: Perceptual)
    ensures (w0 + w1) * Distance(m, c) == w0 * Distance(m, c) + w1 * Distance(m, c)
    ensures Dot(Minus(Plus(moment, Scale(w1, x)), Scale(w0 + w1, m)), Minus(m, c))
            == Dot(Minus(moment, Scale(w0, m)), Minus(m, c)) + Dot(Minus(Scale(w1, x), Scale(w1, m)), Minus(m, c))
  {
    var u, v := Minus(moment, Scale(w0, m)), Minus(Scale(w1, x), Scale(w1, m));
    DotAdds(u, v, Minus(m, c));
    ScaleAdds(w0, w1, m);
    assert Minus(Plus(moment, Scale(w1, x)), Scale(w0 + w1, m)) == Plus(u, v);
  }

  lemma ScaleAdds(w0: real, w1: real, m: Perceptual)
    ensures Scale(w0 + w1, m) == Plus(Scale(w0, m), Scale(w1, m))
  {
  }

  function Mean(mass: nat, moment: Perceptual): Perceptual
    requires mass > 0
  {
    var w := mass as real;
    Perceptual(moment.l / w, moment.a / w, moment.b / w, moment.alpha / w)
  }

  lemma MeanScales(mass: nat, moment: Perceptual)
    requires mass > 0
    ensures Scale(mass as real, Mean(mass, moment)) == moment
  {
  }

  // What moving the centroid of a cluster of the given mass from c to m saves.
  function Toll(mass: nat, m: Perceptual, c: Perceptual): (t: real)
    ensures t >= 0.0
  {
    ProductNonNegative(mass, Distance(m, c));
    mass as real * Distance(m, c)
  }

  // Moving a centroid to the mean of its cluster saves exactly mass times squared distance.
  lemma MeanSaves(samples: seq<Sample>, assignments: seq<nat>, k: nat, c: Perceptual)
    requires |assignments| == |samples| && Mass(samples, assignments, k) > 0
    ensures var mass := Mass(samples, assignments, k);
            var m := Mean(mass, Moment(samples, assignments, k));
            Cost(samples, assignments, k, m, Price)
            == Cost(samples, assignments, k, c, Price) - Toll(mass, m, c)
  {
    var mass := Mass(samples, assignments, k);
    var moment := Moment(samples, assignments, k);
    var m := Mean(mass, moment);
    CostSplit(samples, assignments, k, m, c);
    MeanScales(mass, moment);
    assert Minus(moment, Scale(mass as real, m)) == Origin();
    DotOrigin(m, c);
  }

  // ---- One pass of the loop -----------------------------------------------------------------

  ghost predicate AllNearest(samples: seq<Sample>, assignments: seq<nat>, centroids: seq<Perceptual>)
  {
    && |assignments| == |samples|
    && forall i :: 0 <= i < |samples| ==> IsNearest(samples[i].color, centroids, assignments[i])
  }

  method ReassignPass(samples: seq<Sample>, assignments: array<nat>, centroids: seq<Perceptual>) returns (changed: bool)
    requires assignments.Length == |samples| && centroids != []
    modifies assignments
    ensures AllNearest(samples, assignments[..], centroids)
    ensures changed <==> assignments[..] != old(assignments[..])
  {
    changed := false;
    for index := 0 to |samples|
      invariant forall i :: 0 <= i < index ==> IsNearest(samples[i].color, centroids, assignments[i])
      invariant forall i :: index <= i < |samples| ==> assignments[i] == old(assignments[i])
      invariant changed <==> exists i :: 0 <= i < index && assignments[i] != old(assignments[i])
    {
      var k := Nearest(samples[index].color, centroids);
      changed := changed || assignments[index] != k;
      assignments[index] := k;
    }
  }

  // A nearest assignment is the cheapest of all.
  lemma NearestIsCheapest(samples: seq<Sample>, nearest: seq<nat>, other: seq<nat>, centroids: seq<Perceptual>)
    requires AllNearest(samples, nearest, centroids) && Assigned(samples, other, centroids)
    ensures Assigned(samples, nearest, centroids)
    ensures Potential(samples, nearest, centroids) <= Potential(samples, other, centroids)
  {
    forall i | 0 <= i < |samples|
      ensures Price(samples[i], centroids[nearest[i]]) <= Price(samples[i], centroids[other[i]])
    {
      ScaleMonotone(samples[i].count, Distance(samples[i].color, centroids[nearest[i]]),
                    Distance(samples[i].color, centroids[other[i]]));
    }
    ReassignImproves(samples, other, nearest, centroids, Price);
  }

  // The weight and sum loop, for any way of joining a sample to a sum.
  method Accumulate<M>(samples: seq<Sample>, assignments: seq<nat>, target: nat, zero: M, join: (M, Sample) -> M)
    returns (weight: seq<nat>, sums: seq<M>)
    requires |assignments| == |samples| && forall i :: 0 <= i < |samples| ==> assignments[i] < target
    ensures |weight| == |sums| == target
    ensures forall k: nat :: k < target ==> weight[k] == Mass(samples, assignments, k)
    ensures forall k: nat :: k < target ==> sums[k] == Fold(samples, assignments, k, zero, join)
  {
    var masses := new nat[target](_ => 0);
    var folds := new M[target](_ => zero);
    for i := 0 to |samples|
      invariant forall k: nat :: k < target ==> masses[k] == Mass(samples[..i], assignments[..i], k)
      invariant forall k: nat :: k < target ==> folds[k] == Fold(samples[..i], assignments[..i], k, zero, join)
    {
      var k := assignments[i];
      assert samples[..i + 1][..i] == samples[..i] && assignments[..i + 1][..i] == assignments[..i];
      masses[k] := masses[k] + samples[i].count;
      folds[k] := join(folds[k], samples[i]);
    }
    assert samples[..|samples|] == samples && assignments[..|samples|] == assignments;
    weight, sums := masses[..], folds[..];
  }

  // What the first k moves save, at any toll.
  ghost function SavedBy(samples: seq<Sample>, assignments: seq<nat>, before: seq<Perceptual>, after: seq<Perceptual>,
                         k: nat,
      toll: (nat, Perceptual, Perceptual) -> real): real
    requires |assignments| == |samples| && |before| == |after| && k <= |before|
  {
    if k == 0 then 0.0
    else SavedBy(samples, assignments, before, after, k - 1, toll)
         + toll(Mass(samples, assignments, k - 1), after[k - 1], before[k - 1])
  }

  // Mass times squared distance moved, summed up.
  ghost function Saved(samples: seq<Sample>, assignments: seq<nat>, before: seq<Perceptual>, after: seq<Perceptual>,
                       k: nat): real
    requires |assignments| == |samples| && |before| == |after| && k <= |before|
  {
    SavedBy(samples, assignments, before, after, k, Toll)
  }

  lemma {:induction false} SavedNonNegative(samples: seq<Sample>, assignments: seq<nat>, before: seq<Perceptual>,
                                            after: seq<Perceptual>, k: nat)
    requires |assignments| == |samples| && |before| == |after| && k <= |before|
    ensures Saved(samples, assignments, before, after, k) >= 0.0
  {
    if k > 0 {
      SavedNonNegative(samples, assignments, before, after, k - 1);
    }
  }

  lemma {:induction false} SavedLocal(samples: seq<Sample>, assignments: seq<nat>, before: seq<Perceptual>,
                                      a: seq<Perceptual>, b: seq<Perceptual>, k: nat,
      toll: (nat, Perceptual, Perceptual) -> real)
    requires |assignments| == |samples| && |before| == |a| == |b| && k <= |before|
    requires a[..k] == b[..k]
    ensures SavedBy(samples, assignments, before, a, k, toll) == SavedBy(samples, assignments, before, b, k, toll)
  {
    if k > 0 {
      assert a[..k - 1] == a[..k][..k - 1] && b[..k - 1] == b[..k][..k - 1];
      assert a[k - 1] == a[..k][k - 1] && b[k - 1] == b[..k][k - 1];
      SavedLocal(samples, assignments, before, a, b, k - 1, toll);
    }
  }

  // Where centroid k goes: the mean of its cluster, or nowhere when the cluster is empty.
  ghost function Target(samples: seq<Sample>, assignments: seq<nat>, k: nat, c: Perceptual): Perceptual
    requires |assignments| == |samples|
  {
    var mass := Mass(samples, assignments, k);
    if mass > 0 then Mean(mass, Moment(samples, assignments, k)) else c
  }

  lemma TargetSaves(samples: seq<Sample>, assignments: seq<nat>, k: nat, c: Perceptual)
    requires |assignments| == |samples|
    ensures var m := Target(samples, assignments, k, c);
            Cost(samples, assignments, k, c, Price)
            == Cost(samples, assignments, k, m, Price) + Toll(Mass(samples, assignments, k), m, c)
  {
    if Mass(samples, assignments, k) > 0 {
      MeanSaves(samples, assignments, k, c);
    } else {
      NoToll(c);
    }
  }

  lemma NoToll(c: Perceptual)
    ensures Toll(0, c, c) == 0.0
  {
  }

  // Moving one centroid lowers the potential by its toll, whatever prices and tolls are.
  lemma MoveSavesBy(samples: seq<Sample>, assignments: seq<nat>, before: seq<Perceptual>, centroids: seq<Perceptual>,
                    k: nat, m: Perceptual,
      price: Pricing, toll: (nat, Perceptual, Perceptual) -> real)
    requires Assigned(samples, assignments, centroids) && |before| == |centroids| && k < |centroids|
    requires centroids[k] == before[k]
    requires Cost(samples, assignments, k, before[k], price)
             == Cost(samples, assignments, k, m, price) + toll(Mass(samples, assignments, k), m, before[k])
    ensures Assigned(samples, assignments, centroids[k := m])
    ensures PotentialBy(samples, assignments, centroids[k := m], price)
            + SavedBy(samples, assignments, before, centroids[k := m], k + 1, toll)
            == PotentialBy(samples, assignments, centroids, price)
                + SavedBy(samples, assignments, before, centroids, k, toll)
  {
    MoveOne(samples, assignments, centroids, k, m, price);
    SavedLocal(samples, assignments, before, centroids, centroids[k := m], k, toll);
  }

  lemma MoveSaves(samples: seq<Sample>, assignments: seq<nat>, before: seq<Perceptual>, centroids: seq<Perceptual>,
                  k: nat)
    requires Assigned(samples, assignments, centroids) && |before| == |centroids| && k < |centroids|
    requires centroids[k] == before[k]
    ensures var m := Target(samples, assignments, k, before[k]);
            && Assigned(samples, assignments, centroids[k := m])
            && Potential(samples, assignments, centroids[k := m])
                   + Saved(samples, assignments, before, centroids[k := m], k + 1)
               == Potential(samples, assignments, centroids) + Saved(samples, assignments, before, centroids, k)
  {
    var m := Target(samples, assignments, k, before[k]);
    TargetSaves(samples, assignments, k, before[k]);
    MoveSavesBy(samples, assignments, before, centroids, k, m, Price, Toll);
  }

  // Every non-empty centroid moves to the weighted mean of its cluster; the potential falls by
  // exactly what the moves save.
  method MovePass(samples: seq<Sample>, assignments: seq<nat>, centroids: array<Perceptual>)
    requires Assigned(samples, assignments, centroids[..])
    modifies centroids
    ensures forall k: nat :: k < centroids.Length ==> centroids[k] == Target(samples, assignments, k, old(centroids[k]))
    ensures Assigned(samples, assignments, centroids[..])
    ensures Potential(samples, assignments, centroids[..])
            == old(Potential(samples, assignments, centroids[..]))
               - Saved(samples, assignments, old(centroids[..]), centroids[..], centroids.Length)
  {
    ghost var before := centroids[..];
    var weight, sums := Accumulate(samples, assignments, centroids.Length, Origin(), Join);
    for index := 0 to centroids.Length
      invariant forall k: nat :: k < index ==> centroids[k] == Target(samples, assignments, k, before[k])
      invariant forall k: nat :: index <= k < centroids.Length ==> centroids[k] == before[k]
      invariant Assigned(samples, assignments, centroids[..])
      invariant Potential(samples, assignments, centroids[..])
                == Potential(samples, assignments, before) - Saved(samples, assignments, before, centroids[..], index)
    {
      ghost var current := centroids[..];
      MoveSaves(samples, assignments, before, current, index);
      if weight[index] > 0 {
        centroids[index] := Mean(weight[index], sums[index]);
      }
      assert centroids[..] == current[index := Target(samples, assignments, index, before[index])];
    }
  }

  // No assignment to the seeds is cheaper than x.
  ghost predicate BelowAll(samples: seq<Sample>, seeds: seq<Perceptual>, x: real)
  {
    forall other :: Assigned(samples, other, seeds) ==> x <= Potential(samples, other, seeds)
  }

  lemma NearestBelowAll(samples: seq<Sample>, nearest: seq<nat>, seeds: seq<Perceptual>)
    requires AllNearest(samples, nearest, seeds)
    ensures Assigned(samples, nearest, seeds) && BelowAll(samples, seeds, Potential(samples, nearest, seeds))
  {
    forall other | Assigned(samples, other, seeds)
      ensures Potential(samples, nearest, seeds) <= Potential(samples, other, seeds)
    {
      NearestIsCheapest(samples, nearest, other, seeds);
    }
  }

  // Reassign, then move: neither raises the potential.
  method LloydPass(samples: seq<Sample>, labels: array<nat>, points: array<Perceptual>)
      returns (changed: bool, ghost middle: real)
    requires Assigned(samples, labels[..], points[..]) && points.Length > 0
    modifies labels, points
    ensures Assigned(samples, labels[..], points[..])
    ensures AllNearest(samples, labels[..], old(points[..]))
    ensures changed <==> labels[..] != old(labels[..])
    ensures forall k: nat :: k < points.Length ==> points[k] == Target(samples, labels[..], k, old(points[k]))
    ensures Assigned(samples, labels[..], old(points[..])) && middle == Potential(samples, labels[..], old(points[..]))
    ensures old(Potential(samples, labels[..], points[..])) >= middle >= Potential(samples, labels[..], points[..])
    ensures BelowAll(samples, old(points[..]), middle)
  {
    ghost var labels0, points0 := labels[..], points[..];
    changed := ReassignPass(samples, labels, points[..]);
    NearestIsCheapest(samples, labels[..], labels0, points0);
    NearestBelowAll(samples, labels[..], points0);
    middle := Potential(samples, labels[..], points0);
    MovePass(samples, labels[..], points);
    SavedNonNegative(samples, labels[..], points0, points[..], |points0|);
  }

  // ---- The whole run ------------------------------------------------------------------------

  datatype Clustered = Clustered(assignments: seq<nat>, centroids: seq<Perceptual>)

  ghost function Value(samples: seq<Sample>, c: Clustered): real
  {
    if Assigned(samples, c.assignments, c.centroids) then Potential(samples, c.assignments, c.centroids) else 0.0
  }

  // The two halves of a pass.
  ghost predicate Reassigned(samples: seq<Sample>, a: Clustered, b: Clustered)
  {
    b.centroids == a.centroids && AllNearest(samples, b.assignments, b.centroids)
  }

  ghost predicate Moved(samples: seq<Sample>, a: Clustered, b: Clustered)
  {
    && b.assignments == a.assignments && |a.assignments| == |samples| && |b.centroids| == |a.centroids|
    && forall k: nat :: k < |a.centroids| ==> b.centroids[k] == Target(samples, a.assignments, k, a.centroids[k])
  }

  // The states before, amid and after whole passes, from all samples assigned to the first seed.
  ghost predicate Passed(samples: seq<Sample>, seeds: seq<Perceptual>, run: seq<Clustered>)
  {
    && |run| % 2 == 1 && run[0] == Clustered(seq(|samples|, _ => 0), seeds)
    && forall p: nat :: 2 * p + 2 < |run| ==>
           Reassigned(samples, run[2 * p], run[2 * p + 1]) && Moved(samples, run[2 * p + 1], run[2 * p + 2])
  }

  ghost predicate Changes(run: seq<Clustered>, p: nat)
    requires 2 * p + 1 < |run|
  {
    run[2 * p + 1].assignments != run[2 * p].assignments
  }

  // One to ten passes, going on exactly as long as a pass changes an assignment.
  ghost predicate IsLloydRun(samples: seq<Sample>, seeds: seq<Perceptual>, run: seq<Clustered>)
  {
    && Passed(samples, seeds, run) && 3 <= |run| <= 21
    && (forall p: nat :: 2 * p + 4 < |run| ==> Changes(run, p))
    && (|run| < 21 ==> !Changes(run, (|run| - 3) / 2))
  }

  // ---- The run is determined ----------------------------------------------------------------

  lemma ReassignedOnce(samples: seq<Sample>, a: Clustered, b: Clustered, b': Clustered)
    requires Reassigned(samples, a, b) && Reassigned(samples, a, b')
    ensures b == b'
  {
    forall i | 0 <= i < |samples| ensures b.assignments[i] == b'.assignments[i] {
      NearestOnce(samples[i].color, a.centroids, b.assignments[i], b'.assignments[i]);
    }
    assert b.assignments == b'.assignments;
  }

  lemma NearestOnce(color: Perceptual, centroids: seq<Perceptual>, best: nat, best': nat)
    requires IsNearest(color, centroids, best) && IsNearest(color, centroids, best')
    ensures best == best'
  {
    var d, d' := Distance(color, centroids[best]), Distance(color, centroids[best']);
    assert d <= d' <= d;
  }

  lemma MovedOnce(samples: seq<Sample>, a: Clustered, b: Clustered, b': Clustered)
    requires Moved(samples, a, b) && Moved(samples, a, b')
    ensures b == b'
  {
    assert b.centroids == b'.centroids;
  }

  lemma {:induction false} PassesOnce(samples: seq<Sample>, seeds: seq<Perceptual>, run: seq<Clustered>,
                                      run': seq<Clustered>, p: nat)
    requires Passed(samples, seeds, run) && Passed(samples, seeds, run') && 2 * p < |run| && 2 * p < |run'|
    ensures run[2 * p] == run'[2 * p]
    ensures 2 * p + 1 < |run| && 2 * p + 1 < |run'| ==> run[2 * p + 1] == run'[2 * p + 1]
  {
    if p > 0 {
      PassesOnce(samples, seeds, run, run', p - 1);
      MovedOnce(samples, run[2 * p - 1], run[2 * p], run'[2 * p]);
    }
    if 2 * p + 2 < |run| && 2 * p + 2 < |run'| {
      ReassignedOnce(samples, run[2 * p], run[2 * p + 1], run'[2 * p + 1]);
    }
  }

  // A pass that is not the last one of a run changes an assignment, wherever else it occurs.
  lemma GoesOn(samples: seq<Sample>, seeds: seq<Perceptual>, run: seq<Clustered>, run': seq<Clustered>, p: nat)
    requires Passed(samples, seeds, run) && IsLloydRun(samples, seeds, run')
    requires 2 * p + 3 <= |run| && 2 * p + 4 < |run'|
    ensures Changes(run, p)
  {
    PassesOnce(samples, seeds, run, run', p);
    assert Changes(run', p);
  }

  lemma NotLonger(samples: seq<Sample>, seeds: seq<Perceptual>, run: seq<Clustered>, run': seq<Clustered>)
    requires IsLloydRun(samples, seeds, run) && IsLloydRun(samples, seeds, run')
    ensures |run'| <= |run|
  {
    if |run'| > |run| {
      var p := (|run| - 3) / 2;
      assert 2 * p + 3 == |run| && 2 * p + 4 < |run'|;
      GoesOn(samples, seeds, run, run', p);
    }
  }

  // Samples and seeds determine the run.
  lemma RunDetermined(samples: seq<Sample>, seeds: seq<Perceptual>, run: seq<Clustered>, run': seq<Clustered>)
    requires IsLloydRun(samples, seeds, run) && IsLloydRun(samples, seeds, run')
    ensures run == run'
  {
    NotLonger(samples, seeds, run, run');
    NotLonger(samples, seeds, run', run);
    forall k | 0 <= k < |run| ensures run[k] == run'[k] {
      PassesOnce(samples, seeds, run, run', k / 2);
      assert k == 2 * (k / 2) || k == 2 * (k / 2) + 1;
    }
  }

  ghost predicate Falling(samples: seq<Sample>, run: seq<Clustered>)
  {
    forall i, j :: 0 <= i <= j < |run| ==> Value(samples, run[i]) >= Value(samples, run[j])
  }

  lemma FallingOn(samples: seq<Sample>, run: seq<Clustered>, next: Clustered)
    requires run != [] && Falling(samples, run) && Value(samples, run[|run| - 1]) >= Value(samples, next)
    ensures Falling(samples, run + [next])
  {
  }

  lemma PassedOn(samples: seq<Sample>, seeds: seq<Perceptual>, run: seq<Clustered>, middle: Clustered, next: Clustered)
    requires Passed(samples, seeds, run)
    requires Reassigned(samples, run[|run| - 1], middle) && Moved(samples, middle, next)
    ensures Passed(samples, seeds, run + [middle, next])
  {
    var more := run + [middle, next];
    forall p: nat | 2 * p + 2 < |more|
      ensures Reassigned(samples, more[2 * p], more[2 * p + 1]) && Moved(samples, more[2 * p + 1], more[2 * p + 2])
    {
      if 2 * p + 2 >= |run| { assert 2 * p == |run| - 1; }
    }
  }

  // At most ten passes and a final reassignment. run records them half by half; the potential
  // falls along all of it.
  method Lloyd(samples: seq<Sample>, seeds: seq<Perceptual>)
    returns (assignments: seq<nat>, centroids: seq<Perceptual>, ghost run: seq<Clustered>)
    requires samples != [] && seeds != []
    ensures IsLloydRun(samples, seeds, run) && Reassigned(samples, run[|run| - 1], Clustered(assignments, centroids))
    ensures Falling(samples, run + [Clustered(assignments, centroids)])
    ensures |centroids| == |seeds| && AllNearest(samples, assignments, centroids)
    ensures Assigned(samples, assignments, centroids)
    ensures BelowAll(samples, seeds, Potential(samples, assignments, centroids))
  {
    var labels := new nat[|samples|](_ => 0);
    var points := new Perceptual[|seeds|](i requires 0 <= i < |seeds| => seeds[i]);
    assert points[..] == seeds && labels[..] == seq(|samples|, _ => 0);
    run := Passes(samples, seeds, labels, points);
    ghost var labels0 := labels[..];
    var _ := ReassignPass(samples, labels, points[..]);
    NearestIsCheapest(samples, labels[..], labels0, points[..]);
    assignments, centroids := labels[..], points[..];
    FallingOn(samples, run, Clustered(assignments, centroids));
    BelowAllDown(samples, seeds, Value(samples, run[1]), Potential(samples, assignments, centroids));
  }

  // What the run so far has come to.
  ghost predicate RunAt(samples: seq<Sample>, seeds: seq<Perceptual>, run: seq<Clustered>, now: Clustered)
  {
    && Passed(samples, seeds, run) && Falling(samples, run) && run[|run| - 1] == now
    && Assigned(samples, now.assignments, now.centroids)
    && (|run| > 1 ==> BelowAll(samples, seeds, Value(samples, run[1])))
  }

  lemma RunOn(samples: seq<Sample>, seeds: seq<Perceptual>, run: seq<Clustered>, a: Clustered, b: Clustered,
              c: Clustered)
    requires RunAt(samples, seeds, run, a) && Reassigned(samples, a, b) && Moved(samples, b, c)
    requires Assigned(samples, b.assignments, b.centroids) && Assigned(samples, c.assignments, c.centroids)
    requires Value(samples, a) >= Value(samples, b) >= Value(samples, c)
             && BelowAll(samples, a.centroids, Value(samples, b))
    ensures RunAt(samples, seeds, run + [b, c], c)
  {
    PassedOn(samples, seeds, run, b, c);
    FallingOn(samples, run, b);
    FallingOn(samples, run + [b], c);
    assert run + [b] + [c] == run + [b, c];
  }

  lemma ChangesOn(run: seq<Clustered>, b: Clustered, c: Clustered)
    requires |run| % 2 == 1 && forall p: nat :: 2 * p + 2 < |run| ==> Changes(run, p)
    ensures forall p: nat :: 2 * p + 4 < |run + [b, c]| ==> Changes(run + [b, c], p)
    ensures Changes(run + [b, c], (|run + [b, c]| - 3) / 2) <==> b.assignments != run[|run| - 1].assignments
    ensures b.assignments != run[|run| - 1].assignments ==>
              forall p: nat :: 2 * p + 2 < |run + [b, c]| ==> Changes(run + [b, c], p)
  {
    var more := run + [b, c];
    assert (|more| - 3) / 2 * 2 == |run| - 1;
    forall p: nat | 2 * p + 2 < |more| && (2 * p + 2 < |run| || b.assignments != run[|run| - 1].assignments)
      ensures Changes(more, p)
    {
      if 2 * p + 2 < |run| { assert Changes(run, p); }
    }
  }

  method Passes(samples: seq<Sample>, ghost seeds: seq<Perceptual>, labels: array<nat>, points: array<Perceptual>)
    returns (ghost run: seq<Clustered>)
    requires labels[..] == seq(|samples|, _ => 0) && points[..] == seeds && points.Length > 0
    modifies labels, points
    ensures RunAt(samples, seeds, run, Clustered(labels[..], points[..])) && IsLloydRun(samples, seeds, run)
  {
    run := [Clustered(labels[..], points[..])];
    for pass := 0 to 10
      invariant RunAt(samples, seeds, run, Clustered(labels[..], points[..])) && |run| == 2 * pass + 1
      invariant points.Length > 0 && forall p: nat :: 2 * p + 2 < |run| ==> Changes(run, p)
    {
      ghost var a := Clustered(labels[..], points[..]);
      var changed, middle := LloydPass(samples, labels, points);
      ghost var b, c := Clustered(labels[..], a.centroids), Clustered(labels[..], points[..]);
      RunOn(samples, seeds, run, a, b, c);
      ChangesOn(run, b, c);
      run := run + [b, c];
      if !changed {
        break;
      }
    }
  }

  lemma BelowAllDown(samples: seq<Sample>, seeds: seq<Perceptual>, x: real, y: real)
    requires BelowAll(samples, seeds, x) && y <= x
    ensures BelowAll(samples, seeds, y)
  {
  }
}
