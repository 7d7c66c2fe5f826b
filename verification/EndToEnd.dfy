/**
 The stages of the machines and the server's rounds together. The pipeline moves tokens that say
 what a rank's slice of the shared buffer holds; here they stand for the elements themselves.
 */
module EndToEnd {
  import opened Options
  import opened Stages
  import Pipeline
  import PipelineRun
  import PipelineTheorems
  import opened EngineThreads
  import opened Aggregation
  import opened KeyProtocol
  import opened RoundProtocol
  import opened RoundTheorems
  import opened RoundValues
  import opened Slices
  import opened AllReduce
  import opened WholeSum

  type Content = Pipeline.Content

  /** One partition on one machine: in every round, every rank's output of the reduction and what was pulled. */
  datatype Data<!V> = Data(reduced: nat -> seq<Vector<V>>, pulled: nat -> Vector<V>)

  /** Element `j` of a slice of rank `r` that holds `x`. */
  function Element<V>(d: Data<V>, x: Content, r: nat, j: nat): Option<V>
  {
    match x
    case Reduced(k) => if r < |d.reduced(k)| && j < |d.reduced(k)[r]| then Some(d.reduced(k)[r][j]) else None
    case Pulled(k) => if j < |d.pulled(k)| then Some(d.pulled(k)[j]) else None
    case _ => None
  }

  /** The shared buffer holds the `n` elements of `v`, each in the slice of its owner. */
  predicate Holds<V(==)>(d: Data<V>, l: Layout, n: nat, buf: seq<Content>, v: Vector<V>)
  {
    && |v| == n
    && forall j: nat :: j < n ==> Owner(l, j) < |buf| && Element(d, buf[Owner(l, j)], Owner(l, j), j) == Some(v[j])
  }

  /** After round `k`'s copies in, rank `r` has in its slice what the buffer held there, and elsewhere what it had before. */
  predicate CopiedIn<V(==)>(d: Data<V>, l: Layout, n: nat, got: seq<seq<Content>>, k: nat,
                            before: seq<Vector<V>>, after: seq<Vector<V>>)
    requires Shaped(l.ranks, n, before) && |got| == l.ranks && forall r :: 0 <= r < |got| ==> k < |got[r]|
  {
    && Shaped(l.ranks, n, after)
    && forall r: nat, j: nat :: r < l.ranks && j < n ==>
         if Within(Slice(l, r), j) then Element(d, got[r][k], r, j) == Some(after[r][j]) else after[r][j] == before[r][j]
  }

  /** The buffer a machine pushes in round `k` is what its ranks copied out, whatever it held before and in whatever order. */
  lemma PushedIsCopiedOut<V>(g: PipelineTheorems.Setup, events: seq<PipelineTheorems.Event>,
                             trace: seq<PipelineTheorems.Machine>, i: nat, x: nat, k: nat,
                             d: Data<V>, m: Monoid<V>, mode: Mode, n: nat, unit: nat, ins: seq<Vector<V>>,
                             outs: seq<Vector<V>>, stale: Vector<V>, order: seq<nat>, v: Vector<V>)
    requires PipelineTheorems.IsRun(g, events, trace) && i < |trace| && x in g.compressed && x in trace[i].parts
    requires k < |trace[i].parts[x].pushed|
    requires 0 < unit && Sound(mode, g.ranks) && Shaped(g.ranks, n, ins) && Shaped(g.ranks, n, outs) && |stale| == n
    requires AreRanks(g.ranks, order) && forall r: nat :: r < g.ranks ==> r in order
    requires Plan(mode, n, unit, g.ranks).ranks == g.ranks
    requires d.reduced(k) == AllReduce.Reduced(m, Plan(mode, n, unit, g.ranks), n, ins, outs)
    ensures var l := Plan(mode, n, unit, g.ranks);
            Holds(d, l, n, trace[i].parts[x].pushed[k], v) <==> v == HostBuffer(m, l, n, ins, outs, stale, order)
  {
    var l := Plan(mode, n, unit, g.ranks);
    PipelineTheorems.RoundsFlow(g, events, trace, i, x, 0, k);
    var reduced, buf := d.reduced(k), trace[i].parts[x].pushed[k];
    var host := HostBuffer(m, l, n, ins, outs, stale, order);
    forall j: nat | j < n ensures Owner(l, j) < |buf| && Element(d, buf[Owner(l, j)], Owner(l, j), j) == Some(host[j]) {
      BufferFromOwners(mode, n, unit, g.ranks, reduced, stale, order, j);
    }
    if Holds(d, l, n, buf, v) {
      assert forall j: nat :: j < n ==> v[j] == host[j];
    }
  }

  /** What the ranks copy in in round `k` is round `k`'s pull. */
  lemma GotIsCopiedIn<V>(g: PipelineTheorems.Setup, events: seq<PipelineTheorems.Event>,
                         trace: seq<PipelineTheorems.Machine>, i: nat, x: nat, k: nat,
                         d: Data<V>, l: Layout, n: nat, before: seq<Vector<V>>, after: seq<Vector<V>>)
    requires PipelineTheorems.IsRun(g, events, trace) && i < |trace| && x in g.compressed && x in trace[i].parts
    requires l.ranks == g.ranks == |trace[i].parts[x].got| && Shaped(l.ranks, n, before) && |d.pulled(k)| == n
    requires forall r :: 0 <= r < g.ranks ==> k < |trace[i].parts[x].got[r]|
    ensures CopiedIn(d, l, n, trace[i].parts[x].got, k, before, after) <==> after == CopyIn(l, n, before, d.pulled(k))
  {
    var got := trace[i].parts[x].got;
    forall r: nat | r < g.ranks ensures got[r][k] == Pipeline.Pulled(k) {
      PipelineTheorems.RoundsFlow(g, events, trace, i, x, r, k);
    }
    if CopiedIn(d, l, n, got, k, before, after) {
      SameVectors(l.ranks, n, after, CopyIn(l, n, before, d.pulled(k)));
    }
  }

  lemma SameVectors<V>(ranks: nat, n: nat, a: seq<Vector<V>>, b: seq<Vector<V>>)
    requires Shaped(ranks, n, a) && Shaped(ranks, n, b)
    requires forall r: nat, j: nat :: r < ranks && j < n ==> a[r][j] == b[r][j]
    ensures a == b
  {
    forall r | 0 <= r < ranks ensures a[r] == b[r] {
      assert forall j: nat :: j < n ==> a[r][j] == b[r][j];
    }
  }

  // ---------------------------------------------------------------------------
  // All machines and the server

  /** A run of one machine, seen at step `at`, with the gradients of its ranks and what their outputs held before. */
  datatype Job<!V> = Job(
    events: seq<PipelineTheorems.Event>, trace: seq<PipelineTheorems.Machine>, at: nat,
    data: Data<V>, ins: seq<Vector<V>>, outs: seq<Vector<V>>)

  /** How every machine cuts the partition up among its ranks. */
  datatype Shape = Shape(mode: Mode, n: nat, unit: nat, ranks: nat)

  predicate Proper(sh: Shape)
  {
    0 < sh.unit && Sound(sh.mode, sh.ranks) && Plan(sh.mode, sh.n, sh.unit, sh.ranks).ranks == sh.ranks
  }

  function PlanOf(sh: Shape): (l: Layout)
    requires Proper(sh)
    ensures l.ranks == sh.ranks
  {
    Plan(sh.mode, sh.n, sh.unit, sh.ranks)
  }

  /** The machine has read the buffer for round `k` of partition `x`, reduced from its ranks' gradients, and pushes `v`. */
  ghost predicate Pushes<V>(g: PipelineTheorems.Setup, m: Monoid<V>, sh: Shape, x: nat, k: nat, job: Job<V>, v: Vector<V>)
  {
    && Proper(sh) && sh.ranks == g.ranks
    && PipelineTheorems.IsRun(g, job.events, job.trace) && job.at < |job.trace|
    && x in g.compressed && x in job.trace[job.at].parts && k < |job.trace[job.at].parts[x].pushed|
    && Shaped(sh.ranks, sh.n, job.ins) && Shaped(sh.ranks, sh.n, job.outs)
    && job.data.reduced(k) == AllReduce.Reduced(m, PlanOf(sh), sh.n, job.ins, job.outs)
    && Holds(job.data, PlanOf(sh), sh.n, job.trace[job.at].parts[x].pushed[k], v)
  }

  /** The machine's ranks have copied round `k` in and end with `after`, still to be gathered. */
  ghost predicate Receives<V>(sh: Shape, x: nat, k: nat, job: Job<V>, after: seq<Vector<V>>)
  {
    && Proper(sh) && job.at < |job.trace| && x in job.trace[job.at].parts
    && var got := job.trace[job.at].parts[x].got;
    && |got| == sh.ranks && (forall r :: 0 <= r < |got| ==> k < |got[r]|)
    && Shaped(sh.ranks, sh.n, job.data.reduced(k)) && |job.data.pulled(k)| == sh.n
    && CopiedIn(job.data, PlanOf(sh), sh.n, got, k, job.data.reduced(k), after)
  }

  lemma UptoCovers(n: nat)
    ensures AreRanks(n, Upto(n)) && forall r: nat :: r < n ==> r in Upto(n)
  {
    forall r: nat | r < n ensures r in Upto(n) {
      assert Upto(n)[r] == r;
    }
  }

  lemma PushesHostBuffer<V>(g: PipelineTheorems.Setup, m: Monoid<V>, sh: Shape, x: nat, k: nat, job: Job<V>, v: Vector<V>)
    requires Pushes(g, m, sh, x, k, job, v)
    ensures AreRanks(sh.ranks, Upto(sh.ranks)) && forall r: nat :: r < sh.ranks ==> r in Upto(sh.ranks)
    ensures |v| == sh.n && v == HostBuffer(m, PlanOf(sh), sh.n, job.ins, job.outs, v, Upto(sh.ranks))
  {
    UptoCovers(sh.ranks);
    PushedIsCopiedOut(g, job.events, job.trace, job.at, x, k, job.data, m, sh.mode, sh.n, sh.unit, job.ins, job.outs,
                      v, Upto(sh.ranks), v);
  }

  function AllIns<V>(jobs: seq<Job<V>>): (all: seq<seq<Vector<V>>>)
    ensures |all| == |jobs| && forall u :: 0 <= u < |jobs| ==> all[u] == jobs[u].ins
  {
    seq(|jobs|, u requires 0 <= u < |jobs| => jobs[u].ins)
  }

  function AllOuts<V>(jobs: seq<Job<V>>): (all: seq<seq<Vector<V>>>)
    ensures |all| == |jobs| && forall u :: 0 <= u < |jobs| ==> all[u] == jobs[u].outs
  {
    seq(|jobs|, u requires 0 <= u < |jobs| => jobs[u].outs)
  }

  /** Every machine pushes for key `x` in round `k` what it read out of its buffer. */
  ghost predicate AllPush<V>(g: PipelineTheorems.Setup, c: Config<seq<V>>, m: Monoid<V>, sh: Shape, x: nat, k: nat,
                             jobs: seq<Job<V>>)
  {
    |jobs| == c.n && forall u :: 0 <= u < |jobs| ==> Pushes(g, m, sh, x, k, jobs[u], c.val(u, x, k))
  }

  lemma AllCopiedOut<V>(g: PipelineTheorems.Setup, c: Config<seq<V>>, m: Monoid<V>, sh: Shape, x: nat, k: nat,
                        jobs: seq<Job<V>>)
    requires AllPush(g, c, m, sh, x, k, jobs) && Proper(sh)
    ensures CopiedOut(m, sh.mode, sh.n, sh.unit, sh.ranks, AllIns(jobs), AllOuts(jobs), Pushed(c, x, k),
                      Pipeline.Fill(c.n, Upto(sh.ranks)), Pushed(c, x, k))
  {
    forall u | 0 <= u < |jobs|
      ensures Shaped(sh.ranks, sh.n, jobs[u].ins) && Shaped(sh.ranks, sh.n, jobs[u].outs) && |c.val(u, x, k)| == sh.n
      ensures AreRanks(sh.ranks, Upto(sh.ranks)) && forall r: nat :: r < sh.ranks ==> r in Upto(sh.ranks)
      ensures c.val(u, x, k) == HostBuffer(m, PlanOf(sh), sh.n, jobs[u].ins, jobs[u].outs, c.val(u, x, k), Upto(sh.ranks))
    {
      assert Pushes(g, m, sh, x, k, jobs[u], c.val(u, x, k));
      PushesHostBuffer(g, m, sh, x, k, jobs[u], c.val(u, x, k));
    }
  }

  lemma ReceivesFinal<V>(g: PipelineTheorems.Setup, m: Monoid<V>, sh: Shape, x: nat, k: nat, job: Job<V>, v: Vector<V>,
                         after: seq<Vector<V>>, r: nat)
    requires Pushes(g, m, sh, x, k, job, v) && Receives(sh, x, k, job, after) && r < sh.ranks
    ensures var l := PlanOf(sh);
            && l.per * l.ranks + l.left == sh.n && l.root < l.ranks && Shaped(sh.ranks, sh.n, after)
            && Shaped(sh.ranks, sh.n, Gathered(l, sh.n, after))
            && Gathered(l, sh.n, after)[r]
               == Final(m, sh.mode, sh.n, sh.unit, sh.ranks, job.ins, job.outs, job.data.pulled(k), r)
  {
    PlanFacts(sh.mode, sh.n, sh.unit, sh.ranks);
    GotIsCopiedIn(g, job.events, job.trace, job.at, x, k, job.data, PlanOf(sh), sh.n, job.data.reduced(k), after);
  }

  /**
   From gradients to sums, through every thread of every machine and of the server. Machine `w`'s
   pull of round `k` is the server's reply to worker `w`. If that reply left before the next round
   had begun, every rank of the machine ends with the sum over all ranks of all machines.
   */
  lemma MachinesSum<V(!new)>(g: PipelineTheorems.Setup, c: Config<seq<V>>, m: Monoid<V>, events: seq<Event>,
                             trace: seq<Sys<seq<V>>>, i: nat, sh: Shape, x: Key, w: Worker, k: nat, jobs: seq<Job<V>>,
                             after: seq<Vector<V>>, r: nat)
    requires AddsElements(c, m) && IsRun(c, events, trace) && i < |trace| && x in c.keys && w < c.n
    requires Proper(sh) && AllPush(g, c, m, sh, x, k, jobs) && r < sh.ranks
    requires Receives(sh, x, k, jobs[w], after)
    requires InTime(trace[i], x, w, k) && Received(trace[i].tracks[x].replies[w][k], sh.n, jobs[w].data.pulled(k))
    ensures var l := PlanOf(sh);
            && l.per * l.ranks + l.left == sh.n && l.root < l.ranks && Shaped(sh.ranks, sh.n, after)
            && AllShaped(sh.ranks, sh.n, AllIns(jobs))
            && Gathered(l, sh.n, after)[r] == GrandSum(m, sh.ranks, sh.n, AllIns(jobs))
  {
    AllCopiedOut(g, c, m, sh, x, k, jobs);
    assert Pushes(g, m, sh, x, k, jobs[w], c.val(w, x, k));
    ReceivesFinal(g, m, sh, x, k, jobs[w], c.val(w, x, k), after, r);
    var e := Exchange(sh.mode, AllOuts(jobs), Pushed(c, x, k), Pipeline.Fill(c.n, Upto(sh.ranks)), jobs[w].data.pulled(k));
    assert Exchanged(c, m, trace[i], x, w, k, sh.n, sh.unit, sh.ranks, AllIns(jobs), e);
    GradientsSummed(c, m, events, trace, i, x, w, k, sh.n, sh.unit, sh.ranks, AllIns(jobs), e, r,
                    Gathered(PlanOf(sh), sh.n, after)[r]);
  }
}
