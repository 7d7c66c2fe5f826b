/**
 The two halves together: machines reduce among their ranks, push what their ranks copied out, and
 pull from the server. What every rank of every machine ends with is the sum over all ranks.
 */
module WholeSum {
  import opened EngineThreads
  import opened Sequences
  import opened Aggregation
  import opened KeyProtocol
  import opened RoundProtocol
  import opened RoundTheorems
  import opened RoundValues
  import Reducer
  import opened Slices
  import opened AllReduce

  /** The server adds buffers element by element. */
  ghost predicate AddsElements<V(!new)>(c: Config<seq<V>>, m: Monoid<V>)
  {
    && (forall a, b :: c.add(a, b) == Reducer.Zip(m.add, a, b))
    && Lawful(m) && Reducer.Commutative(m.add)
  }

  lemma ServerCommutes<V(!new)>(c: Config<seq<V>>, m: Monoid<V>)
    requires AddsElements(c, m)
    ensures Commutes(c)
  {
    forall a, b ensures c.add(a, b) == c.add(b, a) {
      Reducer.ZipLaws(m.add, a, b, a);
    }
    forall a, b, d ensures c.add(c.add(a, b), d) == c.add(a, c.add(b, d)) {
      Reducer.ZipLaws(m.add, a, b, d);
    }
  }

  /** The workers in the order of their numbers. */
  function Upto(n: nat): (s: seq<Worker>)
    ensures |s| == n && forall w :: 0 <= w < n ==> s[w] == w
  {
    seq(n, w => w)
  }

  lemma {:induction false} UptoDistinct(n: nat)
    ensures Distinct(Upto(n))
  {
    if n > 0 {
      UptoDistinct(n - 1);
      assert Upto(n) == Upto(n - 1) + [n - 1];
      DistinctSnoc(Upto(n - 1), n - 1);
    }
  }

  /** A full round is a rearrangement of all workers. */
  lemma RoundIsEveryone(n: nat, order: seq<Worker>)
    requires Round(n, order) && |order| == n
    ensures multiset(order) == multiset(Upto(n))
  {
    UptoDistinct(n);
    DistinctBelow(order, n);
    forall w: Worker ensures multiset(order)[w] == multiset(Upto(n))[w] {
      DistinctCount(order, w);
      DistinctCount(Upto(n), w);
      assert w < n ==> Upto(n)[w] == w;
    }
  }

  /** What the workers push for a key in a round. */
  function Pushed<V>(c: Config<seq<V>>, x: Key, k: nat): (bufs: seq<seq<V>>)
    ensures |bufs| == c.n && forall w :: 0 <= w < c.n ==> bufs[w] == c.val(w, x, k)
  {
    seq(c.n, w requires w >= 0 => c.val(w, x, k))
  }

  /** The fold of whole buffers is, in every place, the sum of the elements there. */
  lemma {:induction false} FoldByElement<V(!new)>(c: Config<seq<V>>, m: Monoid<V>, x: Key, k: nat, size: nat, n: nat, j: nat)
    requires AddsElements(c, m) && 0 < n <= c.n && j < size
    requires Shaped(c.n, size, Pushed(c, x, k))
    ensures |Fold(c, x, k, Upto(n))| == size
    ensures Fold(c, x, k, Upto(n))[j] == Sum(m, Column(size, Pushed(c, x, k), j)[..n])
  {
    var col := Column(size, Pushed(c, x, k), j);
    var order := Upto(n);
    assert order[..n - 1] == Upto(n - 1) && col[..n][..n - 1] == col[..n - 1];
    assert |Pushed(c, x, k)[n - 1]| == size;
    if n == 1 {
      assert col[..1] == [col[0]] && Sum(m, col[..0]) == m.zero;
    } else {
      FoldByElement(c, m, x, k, size, n - 1, j);
    }
  }

  /** A reply of `size` elements as a worker receives it: every element comes from one of the reads. */
  ghost predicate Received<V>(r: Reply<seq<V>>, size: nat, reply: Vector<V>)
  {
    && |reply| == size
    && forall j :: 0 <= j < size ==> exists p :: 0 <= p < |r| && j < |r[p].value| && reply[j] == r[p].value[j]
  }

  /** Worker `w` has its reply for round `k` of key `x`. */
  predicate Replied<V>(s: Sys<V>, x: Key, w: Worker, k: nat)
  {
    x in s.tracks && w < |s.tracks[x].replies| && k < |s.tracks[x].replies[w]|
  }

  /** A reply that left before the next round had begun is, in every place, the sum of what all workers pushed there. */
  lemma ReplyByElement<V(!new)>(c: Config<seq<V>>, m: Monoid<V>, events: seq<Event>, trace: seq<Sys<seq<V>>>, i: nat,
                                x: Key, w: Worker, k: nat, size: nat, reply: Vector<V>, j: nat)
    requires AddsElements(c, m) && IsRun(c, events, trace) && i < |trace| && Replied(trace[i], x, w, k)
    requires x in c.keys && w < c.n && j < size && Shaped(c.n, size, Pushed(c, x, k))
    requires LeftInTime(trace[i].tracks[x].replies[w][k]) && Received(trace[i].tracks[x].replies[w][k], size, reply)
    ensures reply[j] == Sum(m, Column(size, Pushed(c, x, k), j))
  {
    InTimeIsWhole(c, events, trace, i, x, w, k);
    var order := trace[i].tracks[x].rounds[k];
    RoundIsEveryone(c.n, order);
    ServerCommutes(c, m);
    FoldAnyOrder(c, x, k, order, Upto(c.n));
    FoldByElement(c, m, x, k, size, c.n, j);
    var col := Column(size, Pushed(c, x, k), j);
    assert col[..c.n] == col;
  }

  /** One partition's round on one machine: how it was cut up, what its buffers held before, and what came back. */
  datatype Exchange<V> = Exchange(
    mode: Mode, outs: seq<seq<Vector<V>>>, stale: seq<Vector<V>>, orders: seq<seq<nat>>, reply: Vector<V>)

  /**
   Worker `w` of the server is machine `w`. What the machines push for key `x` in round `k` is what
   their ranks copied out, and machine `w` has the reply.
   */
  ghost predicate Exchanged<V>(c: Config<seq<V>>, m: Monoid<V>, s: Sys<seq<V>>, x: Key, w: Worker, k: nat,
                               size: nat, unit: nat, ranks: nat, all: seq<seq<Vector<V>>>, e: Exchange<V>)
  {
    && x in c.keys && w < c.n == |all|
    && CopiedOut(m, e.mode, size, unit, ranks, all, e.outs, e.stale, e.orders, Pushed(c, x, k))
    && Replied(s, x, w, k) && Received(s.tracks[x].replies[w][k], size, e.reply)
  }

  lemma GradientsSummedAt<V(!new)>(c: Config<seq<V>>, m: Monoid<V>, events: seq<Event>, trace: seq<Sys<seq<V>>>, i: nat,
                                   x: Key, w: Worker, k: nat, size: nat, unit: nat, ranks: nat,
                                   all: seq<seq<Vector<V>>>, e: Exchange<V>, r: nat, j: nat)
    requires AddsElements(c, m) && IsRun(c, events, trace) && i < |trace| && r < ranks && j < size
    requires Exchanged(c, m, trace[i], x, w, k, size, unit, ranks, all, e)
    requires LeftInTime(trace[i].tracks[x].replies[w][k])
    ensures var final := Final(m, e.mode, size, unit, ranks, all[w], e.outs[w], e.reply, r);
            |final| == size && final[j] == Sum(m, Everyone(ranks, size, all, j))
  {
    forall p: nat | p < size ensures e.reply[p] == Sum(m, Column(size, Pushed(c, x, k), p)) {
      ReplyByElement(c, m, events, trace, i, x, w, k, size, e.reply, p);
    }
    HierarchicalSum(m, e.mode, size, unit, ranks, all, e.outs, e.stale, e.orders, Pushed(c, x, k), e.reply, w, r, j);
  }

  /** What rank `r` of machine `w` has in the end. */
  ghost predicate Ends<V>(c: Config<seq<V>>, m: Monoid<V>, s: Sys<seq<V>>, x: Key, w: Worker, k: nat, size: nat,
                          unit: nat, ranks: nat, all: seq<seq<Vector<V>>>, e: Exchange<V>, r: nat, final: Vector<V>)
  {
    && r < ranks && Exchanged(c, m, s, x, w, k, size, unit, ranks, all, e)
    && final == Final(m, e.mode, size, unit, ranks, all[w], e.outs[w], e.reply, r)
  }

  predicate InTime<V>(s: Sys<V>, x: Key, w: Worker, k: nat)
  {
    Replied(s, x, w, k) && LeftInTime(s.tracks[x].replies[w][k])
  }

  /** From gradients to sums, for one key: with a reply that left in time every rank ends with the sum over everyone. */
  lemma GradientsSummed<V(!new)>(c: Config<seq<V>>, m: Monoid<V>, events: seq<Event>, trace: seq<Sys<seq<V>>>, i: nat,
                                 x: Key, w: Worker, k: nat, size: nat, unit: nat, ranks: nat,
                                 all: seq<seq<Vector<V>>>, e: Exchange<V>, r: nat, final: Vector<V>)
    requires AddsElements(c, m) && IsRun(c, events, trace) && i < |trace|
    requires Ends(c, m, trace[i], x, w, k, size, unit, ranks, all, e, r, final) && InTime(trace[i], x, w, k)
    ensures AllShaped(ranks, size, all) && final == GrandSum(m, ranks, size, all)
  {
    FinalLength(m, e.mode, size, unit, ranks, all[w], e.outs[w], e.reply, r);
    forall j | 0 <= j < size ensures final[j] == Sum(m, Everyone(ranks, size, all, j)) {
      GradientsSummedAt(c, m, events, trace, i, x, w, k, size, unit, ranks, all, e, r, j);
    }
  }
}
