/** A whole tensor: its partitions travel under keys of their own and come back as the sum over all ranks of all machines. */
module TensorSum {
  import opened Arith
  import opened EngineThreads
  import opened Aggregation
  import opened KeyProtocol
  import opened RoundProtocol
  import opened RoundTheorems
  import opened RoundValues
  import opened Slices
  import opened Partitions
  import opened AllReduce
  import opened WholeSum

  /** The first element of partition `i`. */
  function Start(unit: nat, bound: nat, i: nat): nat
    requires 0 < unit
  {
    i * (bound / unit)
  }

  /** The number of elements of partition `i` of a tensor of `n`. */
  function Size(n: nat, unit: nat, bound: nat, i: nat): nat
    requires 0 < unit && 0 < bound && i * bound < n * unit
  {
    PartAt(n * unit, bound, i).len / unit
  }

  /** How a tensor of `n` elements of `unit` bytes is cut: whole elements, at most `bound` bytes at a time. */
  predicate Cuttable(unit: nat, bound: nat)
  {
    0 < unit && 0 < bound && bound % unit == 0
  }

  lemma PartElements(n: nat, unit: nat, bound: nat, i: nat)
    requires Cuttable(unit, bound) && i * bound < n * unit
    ensures PartAt(n * unit, bound, i).offset == Start(unit, bound, i) * unit
    ensures PartAt(n * unit, bound, i).len == Size(n, unit, bound, i) * unit
    ensures Start(unit, bound, i) + Size(n, unit, bound, i) <= n
  {
    WholeElements(n, unit, bound, i);
    var u, start, size := bound / unit, Start(unit, bound, i), Size(n, unit, bound, i);
    assert bound == u * unit;
    assert i * (u * unit) == i * u * unit;
    Distribute(start, size, unit);
    if n < start + size { MulLess(n, start + size, unit); }
  }

  lemma PartBegins(size: nat, bound: nat, i: nat)
    requires 0 < bound && i < DivUp(size, bound)
    ensures i * bound < size
  {
    DivAtLeast(i + 1, bound, size + bound - 1);
    assert (i + 1) * bound == i * bound + bound;
  }

  /** The bytes of an element lie where the element does. */
  lemma ElementWithin(unit: nat, start: nat, size: nat, j: nat)
    requires 0 < unit && start * unit <= j * unit < start * unit + size * unit
    ensures start <= j < start + size
  {
    if j < start { MulLess(j, start, unit); }
    Distribute(start, size, unit);
    if start + size <= j { MulMono(start + size, j, unit); }
  }

  /** The partition of element `j`. */
  function PartWith(unit: nat, bound: nat, j: nat): nat
    requires Cuttable(unit, bound)
  {
    j * unit / bound
  }

  lemma PartExists(n: nat, unit: nat, bound: nat, j: nat)
    requires Cuttable(unit, bound) && j < n
    ensures PartWith(unit, bound, j) < DivUp(n * unit, bound)
    ensures PartWith(unit, bound, j) * bound <= j * unit < n * unit
  {
    var i := PartWith(unit, bound, j);
    MulLess(j, n, unit);
    DivAtLeast(i, bound, j * unit);
    DivAtLeast(i + 1, bound, n * unit + bound - 1);
    Distribute(i, 1, bound);
  }

  /** Every element lies in a partition, at a place of its own. */
  lemma ElementsOnce(n: nat, unit: nat, bound: nat, j: nat)
    requires Cuttable(unit, bound) && j < n
    ensures var i := PartWith(unit, bound, j);
            && i < DivUp(n * unit, bound) && i * bound < n * unit
            && Start(unit, bound, i) <= j < Start(unit, bound, i) + Size(n, unit, bound, i) <= n
  {
    var i := PartWith(unit, bound, j);
    PartExists(n, unit, bound, j);
    EveryByteOnce(n * unit, bound, j * unit, i);
    PartElements(n, unit, bound, i);
    ElementWithin(unit, Start(unit, bound, i), Size(n, unit, bound, i), j);
  }

  /** `whole` is the partitions put together. */
  predicate Joined<V(==)>(n: nat, unit: nat, bound: nat, parts: seq<seq<V>>, whole: seq<V>)
    requires Cuttable(unit, bound)
  {
    && |whole| == n && |parts| == DivUp(n * unit, bound)
    && forall i :: 0 <= i < |parts| ==> Fits(unit, bound, whole, i, parts[i])
  }

  predicate Fits<V(==)>(unit: nat, bound: nat, whole: seq<V>, i: nat, part: seq<V>)
    requires Cuttable(unit, bound)
  {
    var start := Start(unit, bound, i);
    start + |part| <= |whole| && whole[start..start + |part|] == part
  }

  /** Partitions of the right sizes make one tensor and no other. */
  lemma JoinedOnce<V>(n: nat, unit: nat, bound: nat, parts: seq<seq<V>>, a: seq<V>, b: seq<V>)
    requires Cuttable(unit, bound) && Joined(n, unit, bound, parts, a) && Joined(n, unit, bound, parts, b)
    requires forall i :: 0 <= i < |parts| && i * bound < n * unit ==> |parts[i]| == Size(n, unit, bound, i)
    ensures a == b
  {
    forall j | 0 <= j < n ensures a[j] == b[j] {
      var i := PartWith(unit, bound, j);
      ElementsOnce(n, unit, bound, j);
      SameAt(unit, bound, i, parts[i], a, b, j);
    }
  }

  lemma SameAt<V>(unit: nat, bound: nat, i: nat, part: seq<V>, a: seq<V>, b: seq<V>, j: nat)
    requires Cuttable(unit, bound) && Fits(unit, bound, a, i, part) && Fits(unit, bound, b, i, part)
    requires Start(unit, bound, i) <= j < Start(unit, bound, i) + |part|
    ensures a[j] == b[j]
  {
    var start := Start(unit, bound, i);
    assert a[j] == a[start..start + |part|][j - start];
    assert b[j] == b[start..start + |part|][j - start];
  }

  /** The gradients of one partition. */
  function Cut<V>(ranks: nat, n: nat, all: seq<seq<Vector<V>>>, start: nat, size: nat): (cut: seq<seq<Vector<V>>>)
    requires AllShaped(ranks, n, all) && start + size <= n
    ensures AllShaped(ranks, size, cut) && |cut| == |all|
    ensures forall w, r :: 0 <= w < |all| && 0 <= r < ranks ==> cut[w][r] == all[w][r][start..start + size]
  {
    seq(|all|, w requires 0 <= w < |all| => seq(ranks, r requires 0 <= r < ranks => all[w][r][start..start + size]))
  }

  lemma {:induction false} EveryoneCut<V>(ranks: nat, n: nat, all: seq<seq<Vector<V>>>, start: nat, size: nat, p: nat)
    requires AllShaped(ranks, n, all) && start + size <= n && p < size
    ensures Everyone(ranks, size, Cut(ranks, n, all, start, size), p) == Everyone(ranks, n, all, start + p)
    decreases |all|
  {
    if all != [] {
      var k := |all| - 1;
      var cut := Cut(ranks, n, all, start, size);
      EveryoneCut(ranks, n, all[..k], start, size, p);
      assert cut[..k] == Cut(ranks, n, all[..k], start, size);
      assert Column(size, cut[k], p) == Column(n, all[k], start + p);
    }
  }

  /** The partitions' rounds, one exchange each, under the keys of tensor `t`. */
  datatype Tensor<V> = Tensor(
    t: nat, n: nat, unit: nat, bound: nat, ranks: nat, all: seq<seq<Vector<V>>>, parts: seq<Exchange<V>>)

  predicate Laid<V>(x: Tensor<V>)
  {
    Cuttable(x.unit, x.bound) && AllShaped(x.ranks, x.n, x.all) && |x.parts| == DivUp(x.n * x.unit, x.bound)
  }

  function StartOf<V>(x: Tensor<V>, i: nat): nat
    requires Laid(x)
  {
    Start(x.unit, x.bound, i)
  }

  function SizeOf<V>(x: Tensor<V>, i: nat): (size: nat)
    requires Laid(x) && i < |x.parts|
    ensures StartOf(x, i) + size <= x.n
  {
    PartBegins(x.n * x.unit, x.bound, i);
    PartElements(x.n, x.unit, x.bound, i);
    Size(x.n, x.unit, x.bound, i)
  }

  /** The gradients of partition `i`. */
  function GradientsOf<V>(x: Tensor<V>, i: nat): (cut: seq<seq<Vector<V>>>)
    requires Laid(x) && i < |x.parts|
    ensures AllShaped(x.ranks, SizeOf(x, i), cut)
  {
    Cut(x.ranks, x.n, x.all, StartOf(x, i), SizeOf(x, i))
  }

  /** The sums of a partition are that part of all sums. */
  lemma PartOfSums<V>(m: Monoid<V>, x: Tensor<V>, i: nat)
    requires Laid(x) && i < |x.parts|
    ensures Fits(x.unit, x.bound, GrandSum(m, x.ranks, x.n, x.all), i,
                 GrandSum(m, x.ranks, SizeOf(x, i), GradientsOf(x, i)))
  {
    forall p | 0 <= p < SizeOf(x, i)
      ensures GrandSum(m, x.ranks, SizeOf(x, i), GradientsOf(x, i))[p] == GrandSum(m, x.ranks, x.n, x.all)[StartOf(x, i) + p]
    {
      EveryoneCut(x.ranks, x.n, x.all, StartOf(x, i), SizeOf(x, i), p);
    }
  }

  /** Partition `i` made its round under its key; `final` is what rank `r` of machine `w` has of it. */
  ghost predicate PartEnds<V>(c: Config<seq<V>>, m: Monoid<V>, s: Sys<seq<V>>, w: Worker, k: nat, x: Tensor<V>,
                              r: nat, i: nat, final: Vector<V>)
    requires Laid(x) && i < |x.parts|
  {
    Ends(c, m, s, KeyFor(x.t, i), w, k, SizeOf(x, i), x.unit, x.ranks, GradientsOf(x, i), x.parts[i], r, final)
  }

  lemma PartSummed<V(!new)>(c: Config<seq<V>>, m: Monoid<V>, events: seq<Event>, trace: seq<Sys<seq<V>>>, at: nat,
                            w: Worker, k: nat, x: Tensor<V>, r: nat, i: nat, final: Vector<V>)
    requires AddsElements(c, m) && IsRun(c, events, trace) && at < |trace| && Laid(x) && i < |x.parts|
    requires PartEnds(c, m, trace[at], w, k, x, r, i, final) && InTime(trace[at], KeyFor(x.t, i), w, k)
    ensures |final| == SizeOf(x, i) && Fits(x.unit, x.bound, GrandSum(m, x.ranks, x.n, x.all), i, final)
  {
    GradientsSummed(c, m, events, trace, at, KeyFor(x.t, i), w, k, SizeOf(x, i), x.unit, x.ranks, GradientsOf(x, i),
                    x.parts[i], r, final);
    PartOfSums(m, x, i);
  }

  /** Every partition of a tensor made its round, and rank `r` of machine `w` has them all. */
  ghost predicate Delivered<V>(c: Config<seq<V>>, m: Monoid<V>, s: Sys<seq<V>>, w: Worker, k: nat, x: Tensor<V>,
                               r: nat, finals: seq<Vector<V>>)
  {
    && Laid(x) && |finals| == |x.parts|
    && forall i :: 0 <= i < |finals| ==> PartEnds(c, m, s, w, k, x, r, i, finals[i])
  }

  ghost predicate AllInTime<V>(s: Sys<V>, w: Worker, k: nat, t: nat, parts: nat)
  {
    forall i :: 0 <= i < parts ==> InTime(s, KeyFor(t, i), w, k)
  }

  /** The whole tensor on every rank of every machine is the sum over all ranks of all machines. */
  lemma TensorSummed<V(!new)>(c: Config<seq<V>>, m: Monoid<V>, events: seq<Event>, trace: seq<Sys<seq<V>>>, at: nat,
                              w: Worker, k: nat, x: Tensor<V>, r: nat, finals: seq<Vector<V>>, tensor: Vector<V>)
    requires AddsElements(c, m) && IsRun(c, events, trace) && at < |trace|
    requires Delivered(c, m, trace[at], w, k, x, r, finals) && AllInTime(trace[at], w, k, x.t, |finals|)
    requires Joined(x.n, x.unit, x.bound, finals, tensor)
    ensures tensor == GrandSum(m, x.ranks, x.n, x.all)
  {
    var sums := GrandSum(m, x.ranks, x.n, x.all);
    forall i | 0 <= i < |finals| ensures |finals[i]| == SizeOf(x, i) && Fits(x.unit, x.bound, sums, i, finals[i]) {
      PartSummed(c, m, events, trace, at, w, k, x, r, i, finals[i]);
    }
    JoinedOnce(x.n, x.unit, x.bound, finals, tensor, sums);
  }

  /** The same in every run in which nobody laps. */
  lemma TensorSummedWithoutLapping<V(!new)>(c: Config<seq<V>>, m: Monoid<V>, events: seq<Event>, trace: seq<Sys<seq<V>>>,
                                            at: nat, w: Worker, k: nat, x: Tensor<V>, r: nat, finals: seq<Vector<V>>,
                                            tensor: Vector<V>)
    requires AddsElements(c, m) && IsRun(c, events, trace) && NobodyLaps(c, events, trace) && at < |trace|
    requires Delivered(c, m, trace[at], w, k, x, r, finals)
    requires Joined(x.n, x.unit, x.bound, finals, tensor)
    ensures tensor == GrandSum(m, x.ranks, x.n, x.all)
  {
    forall i | 0 <= i < |finals| ensures InTime(trace[at], KeyFor(x.t, i), w, k) {
      assert PartEnds(c, m, trace[at], w, k, x, r, i, finals[i]);
      SumRefinement(c, events, trace, at, KeyFor(x.t, i), w, k);
    }
    TensorSummed(c, m, events, trace, at, w, k, x, r, finals, tensor);
  }
}
