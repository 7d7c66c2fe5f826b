/**
 What the stages compute together: reduce-scatter on every machine, copy out, push and pull through
 the servers, copy in and all-gather leave the sum over all ranks of all machines on every rank.
 Collectives are specified by their result. Values are elements of a monoid.
 */
module AllReduce {
  import opened Arith
  import opened Slices

  datatype Monoid<!V> = Monoid(add: (V, V) -> V, zero: V)

  ghost predicate Lawful<V(!new)>(m: Monoid<V>)
  {
    && (forall x :: m.add(m.zero, x) == x && m.add(x, m.zero) == x)
    && (forall x, y, z :: m.add(m.add(x, y), z) == m.add(x, m.add(y, z)))
  }

  function Sum<V>(m: Monoid<V>, xs: seq<V>): V
  {
    if xs == [] then m.zero else m.add(Sum(m, xs[..|xs| - 1]), xs[|xs| - 1])
  }

  type Vector<V> = seq<V>

  /** One vector of `n` elements per rank. */
  predicate Shaped<V>(ranks: nat, n: nat, xs: seq<Vector<V>>)
  {
    |xs| == ranks && forall r :: 0 <= r < ranks ==> |xs[r]| == n
  }

  /** The `j`-th elements of all vectors. */
  function Column<V>(n: nat, xs: seq<Vector<V>>, j: nat): (col: seq<V>)
    requires Shaped(|xs|, n, xs) && j < n
    ensures |col| == |xs| && forall r :: 0 <= r < |xs| ==> col[r] == xs[r][j]
  {
    seq(|xs|, r requires 0 <= r < |xs| => xs[r][j])
  }

  function Map<V>(ranks: nat, n: nat, f: (nat, nat) --> V): (xs: seq<Vector<V>>)
    requires forall r: nat, j: nat :: r < ranks && j < n ==> f.requires(r, j)
    ensures Shaped(ranks, n, xs) && forall r: nat, j: nat :: r < ranks && j < n ==> xs[r][j] == f(r, j)
  {
    seq(ranks, r requires 0 <= r < ranks => seq(n, j requires 0 <= j < n => f(r, j)))
  }

  // ---------------------------------------------------------------------------
  // Collectives on one machine

  /** Rank `r` receives the sums of its `per` elements. */
  function ReduceScatter<V>(m: Monoid<V>, l: Layout, n: nat, ins: seq<Vector<V>>, outs: seq<Vector<V>>): seq<Vector<V>>
    requires Shaped(l.ranks, n, ins) && Shaped(l.ranks, n, outs)
  {
    Map(l.ranks, n, (r: nat, j: nat) requires r < l.ranks && j < n =>
          if r * l.per <= j < r * l.per + l.per then Sum(m, Column(n, ins, j)) else outs[r][j])
  }

  /** The root receives the sums of the last `left` elements. */
  function ReduceLeft<V>(m: Monoid<V>, l: Layout, n: nat, ins: seq<Vector<V>>, outs: seq<Vector<V>>): seq<Vector<V>>
    requires Shaped(l.ranks, n, ins) && Shaped(l.ranks, n, outs)
  {
    Map(l.ranks, n, (r: nat, j: nat) requires r < l.ranks && j < n =>
          if r == l.root && n <= j + l.left then Sum(m, Column(n, ins, j)) else outs[r][j])
  }

  function Reduced<V>(m: Monoid<V>, l: Layout, n: nat, ins: seq<Vector<V>>, outs: seq<Vector<V>>): seq<Vector<V>>
    requires Shaped(l.ranks, n, ins) && Shaped(l.ranks, n, outs)
  {
    var scattered := if l.per != 0 then ReduceScatter(m, l, n, ins, outs) else outs;
    if l.left != 0 then ReduceLeft(m, l, n, ins, scattered) else scattered
  }

  /** Every rank receives every rank's `per` elements. */
  function AllGather<V>(l: Layout, n: nat, outs: seq<Vector<V>>): seq<Vector<V>>
    requires Shaped(l.ranks, n, outs) && l.per * l.ranks + l.left == n && 0 < l.per
  {
    Map(l.ranks, n, (r: nat, j: nat) requires r < l.ranks && j < n =>
          if j < l.per * l.ranks then GatherAt(l, n, outs, j) else outs[r][j])
  }

  function GatherAt<V>(l: Layout, n: nat, outs: seq<Vector<V>>, j: nat): V
    requires Shaped(l.ranks, n, outs) && 0 < l.per && j < l.per * l.ranks && j < n
  {
    DivAtLeast(l.ranks, l.per, j);
    outs[j / l.per][j]
  }

  /** Every rank receives the root's last `left` elements. */
  function BroadcastLeft<V>(l: Layout, n: nat, outs: seq<Vector<V>>): seq<Vector<V>>
    requires Shaped(l.ranks, n, outs) && l.root < l.ranks
  {
    Map(l.ranks, n, (r: nat, j: nat) requires r < l.ranks && j < n =>
          if n <= j + l.left then outs[l.root][j] else outs[r][j])
  }

  function Gathered<V>(l: Layout, n: nat, outs: seq<Vector<V>>): seq<Vector<V>>
    requires Shaped(l.ranks, n, outs) && l.per * l.ranks + l.left == n && l.root < l.ranks
  {
    var all := if l.per != 0 then AllGather(l, n, outs) else outs;
    if l.left != 0 then BroadcastLeft(l, n, all) else all
  }

  // ---------------------------------------------------------------------------
  // Copies between a rank's device and the buffer the ranks share

  function CopyOut<V>(l: Layout, n: nat, outs: seq<Vector<V>>, buf: Vector<V>, r: nat): (buf': Vector<V>)
    requires Shaped(l.ranks, n, outs) && |buf| == n && r < l.ranks
    ensures |buf'| == n
  {
    seq(n, j requires 0 <= j < n => if Within(Slice(l, r), j) then outs[r][j] else buf[j])
  }

  predicate AreRanks(ranks: nat, order: seq<nat>)
  {
    forall i :: 0 <= i < |order| ==> order[i] < ranks
  }

  /** The ranks copy out one after the other, in the given order. */
  function CopyOutAll<V>(l: Layout, n: nat, outs: seq<Vector<V>>, buf: Vector<V>, order: seq<nat>): (buf': Vector<V>)
    requires Shaped(l.ranks, n, outs) && |buf| == n && AreRanks(l.ranks, order)
    ensures |buf'| == n
  {
    if order == [] then buf
    else
      var k := |order| - 1;
      CopyOut(l, n, outs, CopyOutAll(l, n, outs, buf, order[..k]), order[k])
  }

  /** Every rank copies its slice in; the ranks have devices of their own. */
  function CopyIn<V>(l: Layout, n: nat, outs: seq<Vector<V>>, buf: Vector<V>): seq<Vector<V>>
    requires Shaped(l.ranks, n, outs) && |buf| == n
  {
    Map(l.ranks, n, (r: nat, j: nat) requires r < l.ranks && j < n =>
          if Within(Slice(l, r), j) then buf[j] else outs[r][j])
  }

  // ---------------------------------------------------------------------------
  // One machine

  /** The layout of `n` whole elements. */
  function Plan(mode: Mode, n: nat, unit: nat, ranks: nat): Layout
    requires 0 < unit && Sound(mode, ranks)
  {
    LayoutOf(mode, n * unit, unit, ranks)
  }

  lemma PlanFacts(mode: Mode, n: nat, unit: nat, ranks: nat)
    requires 0 < unit && Sound(mode, ranks)
    ensures var l := Plan(mode, n, unit, ranks);
            && l.ranks == ranks && l.per * l.ranks + l.left == n && l.root < ranks
            && (l.per == 0 || l.root == ranks - 1)
  {
    DivUnique(n * unit, unit, n, 0);
  }

  /** After the reduction the owner of an element has its sum over the machine. */
  lemma OwnerHasSum<V>(m: Monoid<V>, mode: Mode, n: nat, unit: nat, ranks: nat, ins: seq<Vector<V>>,
                       outs: seq<Vector<V>>, j: nat)
    requires 0 < unit && Sound(mode, ranks) && Shaped(ranks, n, ins) && Shaped(ranks, n, outs) && j < n
    ensures var l := Plan(mode, n, unit, ranks);
            && l.ranks == ranks && Owner(l, j) < ranks
            && Shaped(ranks, n, Reduced(m, l, n, ins, outs))
            && Reduced(m, l, n, ins, outs)[Owner(l, j)][j] == Sum(m, Column(n, ins, j))
  {
    PlanFacts(mode, n, unit, ranks);
    OwnerInRange(mode, n * unit, unit, ranks, j);
    var l := Plan(mode, n, unit, ranks);
    if l.per != 0 && j < l.per * l.ranks {
      var r := j / l.per;
      DivAtLeast(r, l.per, j);
      DivAtLeast(r + 1, l.per, j);
      assert (r + 1) * l.per == r * l.per + l.per;
    }
  }

  /** The reduction leaves a rank's output alone where the rank is not the owner, and so does copying in. */
  lemma OthersUntouched<V>(m: Monoid<V>, mode: Mode, n: nat, unit: nat, ranks: nat, ins: seq<Vector<V>>,
                           outs: seq<Vector<V>>, buf: Vector<V>, r: nat, j: nat)
    requires 0 < unit && Sound(mode, ranks) && Shaped(ranks, n, ins) && Shaped(ranks, n, outs) && |buf| == n
    requires j < n && r < ranks && r != Owner(Plan(mode, n, unit, ranks), j)
    ensures var l := Plan(mode, n, unit, ranks);
            && l.ranks == ranks
            && Reduced(m, l, n, ins, outs)[r][j] == outs[r][j] && CopyIn(l, n, outs, buf)[r][j] == outs[r][j]
  {
    PlanFacts(mode, n, unit, ranks);
    var l := Plan(mode, n, unit, ranks);
    DivUnique(n * unit, unit, n, 0);
    SlicesTile(mode, n * unit, unit, ranks, r, j);
    assert !Within(Slice(l, r), j);
    MulMono(r + 1, ranks, l.per);
    Distribute(r, 1, l.per);
  }

  /** Whatever the order of the ranks, the buffer ends up with every element from its owner. */
  lemma {:induction false} BufferFromOwners<V>(mode: Mode, n: nat, unit: nat, ranks: nat, outs: seq<Vector<V>>,
                                               buf: Vector<V>, order: seq<nat>, j: nat)
    requires 0 < unit && Sound(mode, ranks) && Shaped(ranks, n, outs) && |buf| == n && j < n
    requires AreRanks(ranks, order)
    ensures var l := Plan(mode, n, unit, ranks);
            && l.ranks == ranks && Owner(l, j) < ranks
            && CopyOutAll(l, n, outs, buf, order)[j] == if Owner(l, j) in order then outs[Owner(l, j)][j] else buf[j]
  {
    PlanFacts(mode, n, unit, ranks);
    OwnerInRange(mode, n * unit, unit, ranks, j);
    if order != [] {
      var k := |order| - 1;
      assert order == order[..k] + [order[k]];
      BufferFromOwners(mode, n, unit, ranks, outs, buf, order[..k], j);
      DivUnique(n * unit, unit, n, 0);
      SlicesTile(mode, n * unit, unit, ranks, order[k], j);
    }
  }

  /** After copying in, the all-gather gives every rank the buffer. */
  lemma EveryRankHasBuffer<V>(mode: Mode, n: nat, unit: nat, ranks: nat, outs: seq<Vector<V>>, buf: Vector<V>,
                              r: nat, j: nat)
    requires 0 < unit && Sound(mode, ranks) && Shaped(ranks, n, outs) && |buf| == n && j < n && r < ranks
    ensures var l := Plan(mode, n, unit, ranks);
            && l.ranks == ranks && l.per * l.ranks + l.left == n && l.root < ranks
            && Shaped(ranks, n, Gathered(l, n, CopyIn(l, n, outs, buf)))
            && Gathered(l, n, CopyIn(l, n, outs, buf))[r][j] == buf[j]
  {
    PlanFacts(mode, n, unit, ranks);
    OwnerInRange(mode, n * unit, unit, ranks, j);
    var l := Plan(mode, n, unit, ranks);
    DivUnique(n * unit, unit, n, 0);
    SlicesTile(mode, n * unit, unit, ranks, Owner(l, j), j);
    var copied := CopyIn(l, n, outs, buf);
    assert copied[Owner(l, j)][j] == buf[j];
    GatheredAt(l, n, copied, r, j);
  }

  lemma GatheredAt<V>(l: Layout, n: nat, outs: seq<Vector<V>>, r: nat, j: nat)
    requires Shaped(l.ranks, n, outs) && l.per * l.ranks + l.left == n && l.root < l.ranks && r < l.ranks && j < n
    requires Owner(l, j) < l.ranks
    ensures Shaped(l.ranks, n, Gathered(l, n, outs)) && Gathered(l, n, outs)[r][j] == outs[Owner(l, j)][j]
  {
    var whole := l.per * l.ranks;
    assert l.per == 0 ==> whole == 0;
    var all := if l.per != 0 then AllGather(l, n, outs) else outs;
    if j < whole {
      assert all[r][j] == GatherAt(l, n, outs, j);
    } else {
      assert all[l.root][j] == outs[l.root][j];
    }
  }

  // ---------------------------------------------------------------------------
  // All machines

  lemma {:induction false} SumConcat<V(!new)>(m: Monoid<V>, xs: seq<V>, ys: seq<V>)
    requires Lawful(m)
    ensures Sum(m, xs + ys) == m.add(Sum(m, xs), Sum(m, ys))
  {
    if ys == [] {
      assert xs + ys == xs;
    } else {
      var k := |ys| - 1;
      assert (xs + ys)[..|xs + ys| - 1] == xs + ys[..k];
      SumConcat(m, xs, ys[..k]);
    }
  }

  predicate AllShaped<V>(ranks: nat, n: nat, all: seq<seq<Vector<V>>>)
  {
    forall k :: 0 <= k < |all| ==> Shaped(ranks, n, all[k])
  }

  /** The `j`-th elements of all ranks of all machines. */
  function Everyone<V>(ranks: nat, n: nat, all: seq<seq<Vector<V>>>, j: nat): seq<V>
    requires AllShaped(ranks, n, all) && j < n
  {
    if all == [] then [] else Everyone(ranks, n, all[..|all| - 1], j) + Column(n, all[|all| - 1], j)
  }

  /** The sum over all ranks of all machines. */
  function GrandSum<V>(m: Monoid<V>, ranks: nat, n: nat, all: seq<seq<Vector<V>>>): (sums: Vector<V>)
    requires AllShaped(ranks, n, all)
    ensures |sums| == n && forall j :: 0 <= j < n ==> sums[j] == Sum(m, Everyone(ranks, n, all, j))
  {
    seq(n, j requires 0 <= j < n => Sum(m, Everyone(ranks, n, all, j)))
  }

  /** Summing the machines' sums is summing everyone. */
  lemma {:induction false} SumOfSums<V(!new)>(m: Monoid<V>, ranks: nat, n: nat, all: seq<seq<Vector<V>>>,
                                              sums: seq<V>, j: nat)
    requires Lawful(m) && AllShaped(ranks, n, all) && j < n && |sums| == |all|
    requires forall k :: 0 <= k < |all| ==> sums[k] == Sum(m, Column(n, all[k], j))
    ensures Sum(m, sums) == Sum(m, Everyone(ranks, n, all, j))
  {
    if all != [] {
      var k := |all| - 1;
      SumOfSums(m, ranks, n, all[..k], sums[..k], j);
      SumConcat(m, Everyone(ranks, n, all[..k], j), Column(n, all[k], j));
    }
  }

  /** The buffer of a machine after all its ranks have copied out, in any order and over any old contents. */
  function HostBuffer<V>(m: Monoid<V>, l: Layout, n: nat, ins: seq<Vector<V>>, outs: seq<Vector<V>>, buf: Vector<V>,
                         order: seq<nat>): (b: Vector<V>)
    requires Shaped(l.ranks, n, ins) && Shaped(l.ranks, n, outs) && |buf| == n && AreRanks(l.ranks, order)
    ensures |b| == n
  {
    CopyOutAll(l, n, Reduced(m, l, n, ins, outs), buf, order)
  }

  lemma HostBufferSums<V>(m: Monoid<V>, mode: Mode, n: nat, unit: nat, ranks: nat, ins: seq<Vector<V>>,
                          outs: seq<Vector<V>>, buf: Vector<V>, order: seq<nat>, j: nat)
    requires 0 < unit && Sound(mode, ranks) && Shaped(ranks, n, ins) && Shaped(ranks, n, outs) && |buf| == n && j < n
    requires AreRanks(ranks, order) && forall r: nat :: r < ranks ==> r in order
    ensures Plan(mode, n, unit, ranks).ranks == ranks
    ensures HostBuffer(m, Plan(mode, n, unit, ranks), n, ins, outs, buf, order)[j] == Sum(m, Column(n, ins, j))
  {
    OwnerHasSum(m, mode, n, unit, ranks, ins, outs, j);
    BufferFromOwners(mode, n, unit, ranks, Reduced(m, Plan(mode, n, unit, ranks), n, ins, outs), buf, order, j);
  }

  /**
   The machines after copying out: `all[k][r]` is the gradient of rank `r` of machine `k`, `bufs[k]`
   what the machine's ranks copied out, in the order `orders[k]`, over outputs and a buffer that held
   anything before.
   */
  ghost predicate CopiedOut<V>(m: Monoid<V>, mode: Mode, n: nat, unit: nat, ranks: nat, all: seq<seq<Vector<V>>>,
                               outs: seq<seq<Vector<V>>>, stale: seq<Vector<V>>, orders: seq<seq<nat>>,
                               bufs: seq<Vector<V>>)
  {
    && 0 < unit && Sound(mode, ranks) && Plan(mode, n, unit, ranks).ranks == ranks
    && AllShaped(ranks, n, all) && AllShaped(ranks, n, outs) && |outs| == |all| == |orders|
    && Shaped(|all|, n, stale) && Shaped(|all|, n, bufs)
    && forall k :: 0 <= k < |all| ==>
         && AreRanks(ranks, orders[k]) && (forall r: nat :: r < ranks ==> r in orders[k])
         && bufs[k] == HostBuffer(m, Plan(mode, n, unit, ranks), n, all[k], outs[k], stale[k], orders[k])
  }

  /** What rank `r` of a machine ends with, after copying in what was pulled. */
  function Final<V>(m: Monoid<V>, mode: Mode, n: nat, unit: nat, ranks: nat, ins: seq<Vector<V>>, outs: seq<Vector<V>>,
                    pulled: Vector<V>, r: nat): Vector<V>
    requires 0 < unit && Sound(mode, ranks) && r < ranks && Plan(mode, n, unit, ranks).ranks == ranks
    requires Shaped(ranks, n, ins) && Shaped(ranks, n, outs) && |pulled| == n
  {
    var l := Plan(mode, n, unit, ranks);
    PlanFacts(mode, n, unit, ranks);
    Gathered(l, n, CopyIn(l, n, Reduced(m, l, n, ins, outs), pulled))[r]
  }

  lemma FinalLength<V>(m: Monoid<V>, mode: Mode, n: nat, unit: nat, ranks: nat, ins: seq<Vector<V>>,
                       outs: seq<Vector<V>>, pulled: Vector<V>, r: nat)
    requires 0 < unit && Sound(mode, ranks) && r < ranks && Plan(mode, n, unit, ranks).ranks == ranks
    requires Shaped(ranks, n, ins) && Shaped(ranks, n, outs) && |pulled| == n
    ensures |Final(m, mode, n, unit, ranks, ins, outs, pulled, r)| == n
  {
  }

  /** If the servers answer with the sum of the buffers, every rank ends with the sum over everyone. */
  lemma HierarchicalSum<V(!new)>(m: Monoid<V>, mode: Mode, n: nat, unit: nat, ranks: nat, all: seq<seq<Vector<V>>>,
                                 outs: seq<seq<Vector<V>>>, stale: seq<Vector<V>>, orders: seq<seq<nat>>,
                                 bufs: seq<Vector<V>>, pulled: Vector<V>, k: nat, r: nat, j: nat)
    requires Lawful(m) && CopiedOut(m, mode, n, unit, ranks, all, outs, stale, orders, bufs)
    requires k < |all| && r < ranks && j < n
    requires |pulled| == n && forall i: nat :: i < n ==> pulled[i] == Sum(m, Column(n, bufs, i))
    ensures var final := Final(m, mode, n, unit, ranks, all[k], outs[k], pulled, r);
            |final| == n && final[j] == Sum(m, Everyone(ranks, n, all, j))
  {
    forall i | 0 <= i < |all| ensures Column(n, bufs, j)[i] == Sum(m, Column(n, all[i], j)) {
      HostBufferSums(m, mode, n, unit, ranks, all[i], outs[i], stale[i], orders[i], j);
    }
    SumOfSums(m, ranks, n, all, Column(n, bufs, j), j);
    EveryRankHasBuffer(mode, n, unit, ranks, Reduced(m, Plan(mode, n, unit, ranks), n, all[k], outs[k]), pulled, r, j);
  }
}
