/** What the barriers of a machine guarantee, for every run of any number of ranks and partitions. */
module PipelineTheorems {
  import opened Options
  import opened Stages
  import opened Pipeline
  import opened PipelinePairs
  import opened PipelineSteps
  import PipelineRun
  import opened Sequences

  type Setup = PipelineRun.Setup
  type Machine = PipelineRun.Machine
  type Event = PipelineRun.Event

  lemma Successor(root: bool, compressed: bool, list: seq<QueueType>, i: nat)
    requires Ordered(list) && i < |list| && forall q :: q in list <==> InList(root, compressed, q)
    ensures Next(root, compressed, list[i]) == if i + 1 < |list| then Some(list[i + 1]) else None
  {
    assert list[i] in list;
    var next := Next(root, compressed, list[i]);
    if next.Some? {
      assert next.value in list;
      var j: nat :| j < |list| && list[j] == next.value;
      assert i < j;
    }
    if i + 1 < |list| {
      assert list[i + 1] in list && Ord(list[i]) < Ord(list[i + 1]);
    }
  }

  lemma Earliest(root: bool, compressed: bool, list: seq<QueueType>)
    requires Ordered(list) && list != [] && forall q :: q in list <==> InList(root, compressed, q)
    ensures list[0] == First(root)
  {
    assert list[0] in list && First(root) in list;
  }

  /** The walk of a task is the stage list of its role, stage by stage. */
  lemma WalkIsStageList(root: bool, compressed: bool, i: nat)
    requires StageList(Role(root, root, true, false), compressed).Some?
    requires i < |StageList(Role(root, root, true, false), compressed).value|
    ensures var list := StageList(Role(root, root, true, false), compressed).value;
            && list[0] == First(root)
            && Next(root, compressed, list[i]) == (if i + 1 < |list| then Some(list[i + 1]) else None)
            && forall q :: q in list <==> InList(root, compressed, q)
  {
    var r := Role(root, root, true, false);
    StageListOrder(r, compressed, i);
    assert forall q :: Has(r, compressed, q) <==> InList(root, compressed, q);
    Earliest(root, compressed, StageList(r, compressed).value);
    Successor(root, compressed, StageList(r, compressed).value, i);
  }

  /** `trace` is what happens when `events` occur in this order from the start. */
  ghost predicate IsRun(g: Setup, events: seq<Event>, trace: seq<Machine>)
  {
    && 1 <= g.ranks && |trace| == |events| + 1 && trace[0] == PipelineRun.Boot(g)
    && forall i :: 0 <= i < |events| ==>
         && PipelineRun.Shaped(g, trace[i]) && PipelineRun.Enabled(g, trace[i], events[i])
         && PipelineRun.Step(g, trace[i], events[i]) == Some(trace[i + 1])
  }

  lemma {:induction false} RunInv(g: Setup, events: seq<Event>, trace: seq<Machine>, i: nat)
    requires IsRun(g, events, trace) && i < |trace|
    ensures PipelineRun.MachineInv(g, trace[i])
  {
    if i == 0 {
      PipelineRun.BootInv(g);
    } else {
      RunInv(g, events, trace, i - 1);
      PipelineRun.StepInv(g, trace[i - 1], events[i - 1]);
    }
  }

  /** No table ever overflows and every command finds its task: nothing that can happen fails a check. */
  lemma NoCheckFails(g: Setup, events: seq<Event>, trace: seq<Machine>, e: Event)
    requires IsRun(g, events, trace)
    ensures PipelineRun.Shaped(g, trace[|events|])
    ensures PipelineRun.Enabled(g, trace[|events|], e) ==> PipelineRun.Step(g, trace[|events|], e).Some?
  {
    RunInv(g, events, trace, |events|);
    if PipelineRun.Enabled(g, trace[|events|], e) {
      PipelineRun.StepInv(g, trace[|events|], e);
    }
  }

  /** Every rank's sequence of collectives, with the same group ends, is a prefix of the root's. */
  lemma CollectivesAgree(g: Setup, events: seq<Event>, trace: seq<Machine>, i: nat, r: nat)
    requires IsRun(g, events, trace) && i < |trace| && r < g.ranks
    ensures |trace[i].posted| == g.ranks && trace[i].posted[r] <= trace[i].posted[g.ranks - 1]
  {
    RunInv(g, events, trace, i);
    if r < PipelineRun.Lead(g) {
      assert trace[i].posted[r] + trace[i].chan[r] == trace[i].posted[g.ranks - 1];
    }
  }

  /** A collective ends on a rank only after every rank has posted the very same one. */
  lemma EndedOnlyTogether(g: Setup, events: seq<Event>, trace: seq<Machine>, i: nat, r: nat, u: nat, k: nat)
    requires IsRun(g, events, trace) && i < |trace| && r < g.ranks && u < g.ranks
    ensures |trace[i].ended| == |trace[i].posted| == g.ranks
    ensures trace[i].ended[r] <= |trace[i].posted[u]|
    ensures k < trace[i].ended[r] ==> k < |trace[i].posted[r]| && trace[i].posted[u][k] == trace[i].posted[r][k]
  {
    RunInv(g, events, trace, i);
    assert trace[i].ended[r] <= |trace[i].posted[u]| && trace[i].ended[r] <= |trace[i].posted[r]|;
    CollectivesAgree(g, events, trace, i, r);
    CollectivesAgree(g, events, trace, i, u);
  }

  /** How often a rank has posted a collective. */
  function Posts(posted: seq<PipelineRun.Command>, op: QueueType, x: nat): nat
  {
    multiset(posted)[PipelineRun.Do(op, x)]
  }

  lemma PostedSplit(posted: seq<PipelineRun.Command>, i: nat, op: QueueType, x: nat)
    requires i <= |posted|
    ensures Posts(posted, op, x) == Posts(posted[..i], op, x) + Posts(posted[i..], op, x)
  {
    assert posted == posted[..i] + posted[i..];
  }

  /** Every task that enters REDUCE or BROADCAST is in a posted collective, and leaves it when that has ended. */
  lemma CollectivesPosted(g: Setup, events: seq<Event>, trace: seq<Machine>, i: nat, r: nat, x: nat, op: QueueType)
    requires IsRun(g, events, trace) && i < |trace| && r < g.ranks && x in g.compressed && (op == REDUCE || op == BROADCAST)
    ensures x in trace[i].parts && |trace[i].parts[x].tasks| == |trace[i].posted| == |trace[i].ended| == g.ranks
    ensures trace[i].ended[r] <= |trace[i].posted[r]|
    ensures Posts(trace[i].posted[r], op, x) == Taken(trace[i].parts[x].tasks[r], op)
    ensures Posts(trace[i].posted[r][..trace[i].ended[r]], op, x) == Finished(trace[i].parts[x].tasks[r], op)
  {
    RunInv(g, events, trace, i);
    var s := trace[i];
    assert PipelineRun.OpenOk(g, s.parts, s.posted[r], s.ended[r], r);
    OpenCounts(g, s.parts, s.posted[r], s.ended[r], r, x, op);
  }

  lemma OpenCounts(g: Setup, parts: map<nat, Part>, posted: seq<PipelineRun.Command>, ended: nat, r: nat, x: nat,
                   op: QueueType)
    requires PipelineRun.PartsShaped(g, parts) && r < g.ranks && PipelineRun.OpenOk(g, parts, posted, ended, r)
    requires x in parts && (op == REDUCE || op == BROADCAST)
    ensures Posts(posted, op, x) == Taken(parts[x].tasks[r], op)
    ensures Posts(posted[..ended], op, x) == Finished(parts[x].tasks[r], op)
  {
    PostedSplit(posted, ended, op, x);
  }

  /** No rank leaves a reduction or broadcast before every rank has joined it. */
  lemma CollectivesMeet(g: Setup, events: seq<Event>, trace: seq<Machine>, i: nat, r: nat, u: nat, x: nat, op: QueueType)
    requires IsRun(g, events, trace) && i < |trace| && r < g.ranks && u < g.ranks
    requires x in g.compressed && (op == REDUCE || op == BROADCAST)
    ensures x in trace[i].parts && |trace[i].parts[x].tasks| == g.ranks
    ensures Finished(trace[i].parts[x].tasks[r], op) <= Taken(trace[i].parts[x].tasks[u], op)
  {
    CollectivesPosted(g, events, trace, i, r, x, op);
    CollectivesPosted(g, events, trace, i, u, x, op);
    EndedOnlyTogether(g, events, trace, i, r, u, 0);
    CollectivesAgree(g, events, trace, i, r);
    CollectivesAgree(g, events, trace, i, u);
    var n, mine, theirs := trace[i].ended[r], trace[i].posted[r], trace[i].posted[u];
    assert mine[..n] == theirs[..n];
    PostedSplit(theirs, n, op, x);
  }

  lemma PartFacts(g: Setup, events: seq<Event>, trace: seq<Machine>, i: nat, x: nat)
    requires IsRun(g, events, trace) && i < |trace| && x in g.compressed
    ensures x in trace[i].parts && PartInv(PipelineRun.Cfg(g, x), trace[i].parts[x])
  {
    RunInv(g, events, trace, i);
  }

  /**
   While the root reads the buffer for round `k`, every rank has finished copying its slice of
   round `k` out, none has begun the next, and the buffer is all of round `k`.
   */
  predicate ReadsWholeRound(c: Config, p: Part, r: nat)
    requires Ranked(c, p) && r < c.ranks
  {
    var m := p.tasks[Root(c)];
    m.stage == Some(ReadStage(c.compressed)) && m.running ==>
      && Taken(p.tasks[r], COPYD2H) == Finished(p.tasks[r], COPYD2H) == m.round + 1
      && p.buf == Fill(c.ranks, Reduced(m.round))
  }

  lemma ReadsWholeRoundAt(c: Config, p: Part, r: nat)
    requires PartInv(c, p) && r < c.ranks
    ensures ReadsWholeRound(c, p, r)
  {
    var m := p.tasks[Root(c)];
    if m.stage == Some(ReadStage(c.compressed)) && m.running {
      RootReads(c, p);
      if r < Root(c) {
        ReadsAfterCopies(c.compressed, m, p.tasks[r], p.up[r], p.down[r]);
      }
    }
  }

  /** While a rank copies in for round `k`, the root's pull of round `k` has ended, no later one has begun, and the slice holds it. */
  predicate CopiesInRound(c: Config, p: Part, r: nat)
    requires Ranked(c, p) && r < c.ranks
  {
    var m, t := p.tasks[Root(c)], p.tasks[r];
    t.stage == Some(COPYH2D) && t.running ==>
      && Taken(m, PULL) == Finished(m, LastPull(c.compressed)) == t.round + 1
      && p.buf[r] == Pulled(t.round)
  }

  lemma CopiesInRoundAt(c: Config, p: Part, r: nat)
    requires PartInv(c, p) && r < c.ranks
    ensures CopiesInRound(c, p, r)
  {
    var m, t := p.tasks[Root(c)], p.tasks[r];
    if t.stage == Some(COPYH2D) && t.running {
      if r < Root(c) {
        CopiesInAfterPull(c.compressed, m, t, p.up[r], p.down[r]);
      }
      assert SliceOk(c.compressed, m, t, p.buf[r]);
    }
  }

  /** While a pull writes the buffer, the rank copies neither into it nor out of it. */
  predicate PullIsAlone(c: Config, p: Part, r: nat)
    requires Ranked(c, p) && r < c.ranks
  {
    var m, t := p.tasks[Root(c)], p.tasks[r];
    Finished(m, LastPull(c.compressed)) < Taken(m, PULL) ==>
      Taken(t, COPYD2H) == Finished(t, COPYD2H) && Taken(t, COPYH2D) == Finished(t, COPYH2D)
  }

  lemma PullIsAloneAt(c: Config, p: Part, r: nat)
    requires PartInv(c, p) && r < c.ranks
    ensures PullIsAlone(c, p, r)
  {
    var m, t := p.tasks[Root(c)], p.tasks[r];
    if Finished(m, LastPull(c.compressed)) < Taken(m, PULL) && r < Root(c) {
      PullsAlone(c.compressed, m, t, p.up[r], p.down[r]);
    }
  }

  /** The shared buffer is never read torn, stale or early: at every point of every run, for every partition and rank. */
  lemma BufferOrdered(g: Setup, events: seq<Event>, trace: seq<Machine>, i: nat, x: nat, r: nat)
    requires IsRun(g, events, trace) && i < |trace| && x in g.compressed && r < g.ranks
    ensures x in trace[i].parts && Ranked(PipelineRun.Cfg(g, x), trace[i].parts[x])
    ensures ReadsWholeRound(PipelineRun.Cfg(g, x), trace[i].parts[x], r)
    ensures CopiesInRound(PipelineRun.Cfg(g, x), trace[i].parts[x], r)
    ensures PullIsAlone(PipelineRun.Cfg(g, x), trace[i].parts[x], r)
  {
    PartFacts(g, events, trace, i, x);
    var c, p := PipelineRun.Cfg(g, x), trace[i].parts[x];
    ReadsWholeRoundAt(c, p, r);
    CopiesInRoundAt(c, p, r);
    PullIsAloneAt(c, p, r);
  }

  /** The root has entered stage `gate` of a round only after the rank has left stage `stage` of it. */
  predicate WaitsFor(m: Task, gate: QueueType, t: Task, stage: QueueType)
  {
    Taken(m, gate) <= Finished(t, stage)
  }

  /** The rank has entered stage `stage` of a round only after the root has entered `gate` of it. */
  predicate FollowsInto(t: Task, stage: QueueType, m: Task, gate: QueueType)
  {
    Taken(t, stage) <= Taken(m, gate)
  }

  predicate Barriers(compressed: bool, m: Task, t: Task)
  {
    && WaitsFor(m, REDUCE, t, COORDINATE_REDUCE)
    && WaitsFor(m, CONTEXT_PUSH, t, REDUCE)
    && WaitsFor(m, if compressed then COMPRESS else PUSH, t, COORDINATE_PUSH)
    && WaitsFor(m, BROADCAST, t, COORDINATE_BROADCAST)
    && FollowsInto(t, REDUCE, m, REDUCE)
    && FollowsInto(t, COPYD2H, m, CONTEXT_PULL)
    && FollowsInto(t, COPYH2D, m, COPYH2D)
    && FollowsInto(t, BROADCAST, m, BROADCAST)
  }

  lemma PairBarriers(compressed: bool, m: Task, t: Task, u: Up, d: Down)
    requires PairOk(compressed, m, t, u, d)
    ensures Barriers(compressed, m, t)
  {
  }

  /**
   Every barrier of the machine, at every point of every run. The root enters a collective, the scale
   exchange and the read of the buffer only after every rank is ready for it; a rank enters a
   collective, copies out and copies in only after the root has begun the step that allows it.
   */
  lemma BarriersHold(g: Setup, events: seq<Event>, trace: seq<Machine>, i: nat, x: nat, r: nat)
    requires IsRun(g, events, trace) && i < |trace| && x in g.compressed && r < g.ranks - 1
    ensures x in trace[i].parts && |trace[i].parts[x].tasks| == g.ranks
    ensures Barriers(g.compressed[x], trace[i].parts[x].tasks[g.ranks - 1], trace[i].parts[x].tasks[r])
  {
    PartFacts(g, events, trace, i, x);
    var p := trace[i].parts[x];
    PairBarriers(g.compressed[x], p.tasks[g.ranks - 1], p.tasks[r], p.up[r], p.down[r]);
  }

  function Bit(b: bool): nat
  {
    if b then 1 else 0
  }

  /** Signals a rank has raised for a stage are owed, under way, used by the root, or counted and waiting, at most one. */
  predicate SignalsAddUp(raised: nat, owed: bool, pending: nat, used: nat)
  {
    used + pending + Bit(owed) <= raised <= used + pending + Bit(owed) + 1
  }

  /**
   No signal and no permission is ever lost or made up. Every time a rank leaves one of the stages
   that announce something, one signal is raised; every time the root enters CONTEXT_PULL or COPYH2D,
   one permission to copy out or in is given, and it is under way, counted or used.
   */
  lemma SignalsConserved(g: Setup, events: seq<Event>, trace: seq<Machine>, i: nat, x: nat, r: nat)
    requires IsRun(g, events, trace) && i < |trace| && x in g.compressed && r < g.ranks - 1
    ensures x in trace[i].parts && Ranked(PipelineRun.Cfg(g, x), trace[i].parts[x])
    ensures var p := trace[i].parts[x];
            var m, t, u, d := p.tasks[g.ranks - 1], p.tasks[r], p.up[r], p.down[r];
            && SignalsAddUp(Finished(t, COORDINATE_REDUCE), t.owes == Some(ReduceReady), u.reduce, Taken(m, REDUCE))
            && SignalsAddUp(Finished(t, REDUCE), t.owes == Some(ContextPushReady), u.contextPush, Taken(m, CONTEXT_PUSH))
            && SignalsAddUp(Finished(t, COORDINATE_PUSH), t.owes == Some(PushReady), u.push,
                            Taken(m, if g.compressed[x] then COMPRESS else PUSH))
            && SignalsAddUp(Finished(t, COORDINATE_BROADCAST), t.owes == Some(BcastReady), u.bcast, Taken(m, BROADCAST))
            && d.copyD2HSent + d.contextCopy + Taken(t, COPYD2H) == Taken(m, CONTEXT_PULL)
            && d.copyH2DSent + d.copy + Taken(t, COPYH2D) == Taken(m, COPYH2D)
  {
    PartFacts(g, events, trace, i, x);
    var p := trace[i].parts[x];
    PairSignals(g.compressed[x], p.tasks[g.ranks - 1], p.tasks[r], p.up[r], p.down[r]);
  }

  lemma PairSignals(compressed: bool, m: Task, t: Task, u: Up, d: Down)
    requires TaskOk(true, compressed, m) && TaskOk(false, compressed, t) && PairOk(compressed, m, t, u, d)
    ensures SignalsAddUp(Finished(t, COORDINATE_REDUCE), t.owes == Some(ReduceReady), u.reduce, Taken(m, REDUCE))
    ensures SignalsAddUp(Finished(t, REDUCE), t.owes == Some(ContextPushReady), u.contextPush, Taken(m, CONTEXT_PUSH))
    ensures SignalsAddUp(Finished(t, COORDINATE_PUSH), t.owes == Some(PushReady), u.push,
                         Taken(m, if compressed then COMPRESS else PUSH))
    ensures SignalsAddUp(Finished(t, COORDINATE_BROADCAST), t.owes == Some(BcastReady), u.bcast, Taken(m, BROADCAST))
    ensures d.copyD2HSent + d.contextCopy + Taken(t, COPYD2H) == Taken(m, CONTEXT_PULL)
    ensures d.copyH2DSent + d.copy + Taken(t, COPYH2D) == Taken(m, COPYH2D)
  {
    PairBounds(compressed, m, t, u, d);
    assert Arrived(t, u, ReduceReady) + u.reduce <= Taken(m, Gate(compressed, ReduceReady)) + 1;
    assert Arrived(t, u, ContextPushReady) + u.contextPush <= Taken(m, Gate(compressed, ContextPushReady)) + 1;
    assert Arrived(t, u, PushReady) + u.push <= Taken(m, Gate(compressed, PushReady)) + 1;
    assert Arrived(t, u, BcastReady) + u.bcast <= Taken(m, Gate(compressed, BcastReady)) + 1;
  }

  /** In every round, what is pushed is every rank's slice of that round, and what every rank gets is that round's pull. */
  lemma RoundsFlow(g: Setup, events: seq<Event>, trace: seq<Machine>, i: nat, x: nat, r: nat, k: nat)
    requires IsRun(g, events, trace) && i < |trace| && x in g.compressed && r < g.ranks
    ensures x in trace[i].parts && Ranked(PipelineRun.Cfg(g, x), trace[i].parts[x])
    ensures var p := trace[i].parts[x];
            && |p.pushed| == Finished(p.tasks[g.ranks - 1], ReadStage(g.compressed[x]))
            && |p.got[r]| == Finished(p.tasks[r], COPYH2D)
            && (k < |p.pushed| ==> p.pushed[k] == Fill(g.ranks, Reduced(k)))
            && (k < |p.got[r]| ==> p.got[r][k] == Pulled(k))
  {
    PartFacts(g, events, trace, i, x);
    assert GotOk(trace[i].parts[x].tasks[r], trace[i].parts[x].got[r]);
  }

  // ---------------------------------------------------------------------------
  // No stall

  predicate Quiet(t: Task, u: Up, d: Down)
  {
    && !t.running && t.owes.None?
    && (forall s :: Pending(u, s) == 0) && d.copyD2HSent == 0 && d.copyH2DSent == 0
  }

  /** A rank is free to move on: its table lets it, or the root has called it to the collective. */
  predicate Free(m: Task, t: Task, d: Down)
  {
    t.stage.Some? &&
    var q := t.stage.value;
    && (q == COPYD2H ==> d.contextCopy == 1)
    && (q == COPYH2D ==> d.copy == 1)
    && (Collective(q) ==> Taken(t, q) < Taken(m, q))
  }

  /** If the root waits for a rank's signal and nothing is under way, that rank is free. */
  lemma AwaitedIsFree(compressed: bool, m: Task, t: Task, u: Up, d: Down, s: Signal)
    requires TaskOk(true, compressed, m) && TaskOk(false, compressed, t) && PairOk(compressed, m, t, u, d)
    requires Quiet(t, u, d) && !m.running && t.stage.Some? && t.round == m.round
    requires m.stage == Some(Gate(compressed, s)) && !Counted(compressed, m, t, u, s)
    ensures Free(m, t, d)
  {
    match s {
      case ReduceReady =>
      case ContextPushReady =>
      case PushReady =>
      case BcastReady =>
    }
  }

  /** If the root is a round further, the rank has been called to its broadcast. */
  lemma LateIsFree(compressed: bool, m: Task, t: Task, u: Up, d: Down)
    requires TaskOk(true, compressed, m) && TaskOk(false, compressed, t) && PairOk(compressed, m, t, u, d)
    requires t.round < m.round && !t.running
    ensures t.stage == Some(BROADCAST) && Taken(t, BROADCAST) < Taken(m, BROADCAST)
  {
  }

  /** Every rank has handed in round `k`. */
  predicate HandedIn(c: Config, p: Part, k: nat)
    requires Ranked(c, p)
  {
    forall r: nat :: r < c.ranks ==> k < p.tasks[r].round || (p.tasks[r].round == k && p.tasks[r].stage.Some?)
  }

  /** The action of a rank that is called to a collective. */
  predicate Called(c: Config, p: Part, a: Action)
    requires Ranked(c, p)
  {
    a.ATake? && a.r < Root(c) && Collective(a.q) && Taken(p.tasks[a.r], a.q) < Taken(p.tasks[Root(c)], a.q)
  }

  predicate Moves(c: Config, p: Part, a: Action)
    requires Ranked(c, p)
  {
    !a.AEnqueue? && (Enabled(c, p, a) || Called(c, p, a))
  }

  lemma UnquietMoves(c: Config, p: Part, r: nat) returns (a: Action)
    requires PartInv(c, p) && r < c.ranks
    requires if r == Root(c) then p.tasks[r].running else !Quiet(p.tasks[r], p.up[r], p.down[r])
    ensures Moves(c, p, a)
  {
    var t, u, d := p.tasks[r], p.up[r], p.down[r];
    if t.running {
      a := AFinish(r);
    } else if t.owes.Some? {
      a := ASend(r);
    } else if d.copyD2HSent != 0 {
      a := AListenCopy(r, true);
    } else if d.copyH2DSent != 0 {
      a := AListenCopy(r, false);
    } else {
      var s :| Pending(u, s) != 0;
      a := AListen(r, s);
    }
  }

  lemma Uncounted(c: Config, tasks: seq<Task>, up: seq<Up>, s: Signal) returns (r: nat)
    requires 1 <= c.ranks == |tasks| == |up| && |CountedSet(c, tasks, up, s)| != c.ranks - 1
    ensures r < Root(c) && !Counted(c.compressed, tasks[Root(c)], tasks[r], up[r], s)
  {
    var counted := CountedSet(c, tasks, up, s);
    BelowSize(Root(c));
    assert counted != Below(Root(c));
    r :| r < Root(c) && r !in counted;
  }

  lemma GateOf(c: Config, p: Part) returns (s: Signal)
    requires Ranked(c, p) && p.tasks[Root(c)].stage.Some? && TaskOk(true, c.compressed, p.tasks[Root(c)])
    requires !TableReady(c, p, Root(c), p.tasks[Root(c)].stage.value) && !p.tasks[Root(c)].running
    ensures Count(p.tables, s) != c.ranks - 1
    ensures !Held(c.compressed, p.tasks[Root(c)], s) ==> p.tasks[Root(c)].stage == Some(Gate(c.compressed, s))
  {
    match p.tasks[Root(c)].stage.value {
      case REDUCE => s := ReduceReady;
      case CONTEXT_PUSH => s := ContextPushReady;
      case COMPRESS => s := PushReady;
      case PUSH => s := PushReady;
      case BROADCAST => s := BcastReady;
    }
  }

  /** The rank that keeps the root's gate shut. */
  lemma ShutGate(c: Config, p: Part) returns (r: nat, s: Signal)
    requires PartInv(c, p) && p.tasks[Root(c)].stage.Some? && !p.tasks[Root(c)].running
    requires !TableReady(c, p, Root(c), p.tasks[Root(c)].stage.value)
    ensures r < Root(c) && p.tasks[Root(c)].stage == Some(Gate(c.compressed, s))
    ensures !Counted(c.compressed, p.tasks[Root(c)], p.tasks[r], p.up[r], s)
  {
    s := GateOf(c, p);
    assert TableOk(c, p.tasks, p.up, p.tables, s);
    r := Uncounted(c, p.tasks, p.up, s);
  }

  /** When nothing is under way and the root is in the round, someone can take a task. */
  lemma QuietMoves(c: Config, p: Part, k: nat) returns (a: Action)
    requires PartInv(c, p) && HandedIn(c, p, k)
    requires !p.tasks[Root(c)].running && p.tasks[Root(c)].round == k
    requires forall r: nat :: r < Root(c) ==> Quiet(p.tasks[r], p.up[r], p.down[r])
    ensures Moves(c, p, a)
  {
    var m := p.tasks[Root(c)];
    if TableReady(c, p, Root(c), m.stage.value) {
      a := ATake(Root(c), m.stage.value);
    } else {
      var r, s := ShutGate(c, p);
      var t := p.tasks[r];
      AwaitedRound(c.compressed, m, t, p.up[r], p.down[r], s);
      AwaitedIsFree(c.compressed, m, t, p.up[r], p.down[r], s);
      a := ATake(r, t.stage.value);
    }
  }

  lemma AwaitedRound(compressed: bool, m: Task, t: Task, u: Up, d: Down, s: Signal)
    requires TaskOk(true, compressed, m) && TaskOk(false, compressed, t) && PairOk(compressed, m, t, u, d)
    requires Quiet(t, u, d) && !m.running
    requires m.stage == Some(Gate(compressed, s)) && !Counted(compressed, m, t, u, s)
    ensures t.round <= m.round
  {
  }

  /** As long as every rank has handed in round `k` and not all have finished it, some thread can move. */
  lemma SomeoneMoves(c: Config, p: Part, k: nat, late: nat) returns (a: Action)
    requires PartInv(c, p) && HandedIn(c, p, k) && late < c.ranks && p.tasks[late].round == k
    ensures Moves(c, p, a)
  {
    var m := p.tasks[Root(c)];
    if m.running {
      a := UnquietMoves(c, p, Root(c));
    } else if r: nat :| r < Root(c) && !Quiet(p.tasks[r], p.up[r], p.down[r]) {
      a := UnquietMoves(c, p, r);
    } else if k < m.round {
      LateIsFree(c.compressed, m, p.tasks[late], p.up[late], p.down[late]);
      a := ATake(late, BROADCAST);
    } else {
      a := QuietMoves(c, p, k);
    }
  }

  /** Everything but handing in a partition. */
  predicate Progress(e: Event)
  {
    !(e.Local? && e.a.AEnqueue?)
  }

  /** The root has posted collectives and not yet closed their group. */
  predicate GroupOpen(own: seq<PipelineRun.Command>)
  {
    own != [] && own[|own| - 1] != PipelineRun.Group
  }

  /** When every command has arrived and the group is closed, whatever has not ended can end. */
  lemma LastGroupClosed(g: Setup, s: Machine, r: nat)
    requires PipelineRun.Shaped(g, s) && PipelineRun.ChansOk(g, s) && r < g.ranks && s.ended[r] < |s.posted[r]|
    requires forall u: nat :: u < PipelineRun.Lead(g) ==> s.chan[u] == []
    requires !GroupOpen(s.posted[PipelineRun.Lead(g)])
    ensures PipelineRun.Enabled(g, s, PipelineRun.Sync(r))
  {
    var own := s.posted[PipelineRun.Lead(g)];
    forall u: nat | u < g.ranks ensures s.posted[u] == own {
      if u < PipelineRun.Lead(g) {
        assert s.posted[u] + s.chan[u] == own;
      }
    }
    assert PipelineRun.ClosedAt(s.posted, |own| - 1);
  }

  /** No command is under way, no group open and no collective under way. */
  predicate Settled(g: Setup, s: Machine)
    requires PipelineRun.Shaped(g, s)
  {
    && (forall r: nat :: r < PipelineRun.Lead(g) ==> s.chan[r] == [])
    && (forall r: nat :: r < g.ranks ==> s.ended[r] == |s.posted[r]|)
  }

  lemma NothingOwed(g: Setup, parts: map<nat, Part>, x: nat, r: nat, op: QueueType, kind: PipelineRun.Kind)
    requires PipelineRun.PartsShaped(g, parts) && r < g.ranks && PipelineRun.CommandsOk(g, parts, [], r, kind)
    requires x in parts && Collective(op)
    ensures PipelineRun.Owed(g, parts[x], r, op, kind) == 0
  {
    var none: seq<PipelineRun.Command> := [];
    assert multiset(none)[PipelineRun.Do(op, x)] == 0;
  }

  lemma SettledFacts(g: Setup, s: Machine, x: nat, r: nat, op: QueueType)
    requires PipelineRun.MachineInv(g, s) && Settled(g, s) && x in s.parts && r < g.ranks && Collective(op)
    ensures PipelineRun.Inside(s.parts[x], r, op) == 0 && PipelineRun.Behind(g, s.parts[x], r, op) == 0
  {
    assert PipelineRun.OpenOk(g, s.parts, s.posted[r], s.ended[r], r);
    assert s.posted[r][s.ended[r]..] == [];
    NothingOwed(g, s.parts, x, r, op, PipelineRun.Joined);
    if r < PipelineRun.Lead(g) {
      assert s.chan[r] == [] && PipelineRun.CommandsOk(g, s.parts, s.chan[r], r, PipelineRun.Called);
      NothingOwed(g, s.parts, x, r, op, PipelineRun.Called);
    }
  }

  /** With all collectives settled, some stage thread can move or the root can post. */
  lemma SettledMoves(g: Setup, s: Machine, x: nat, k: nat, late: nat) returns (e: Event)
    requires PipelineRun.MachineInv(g, s) && Settled(g, s) && x in g.compressed && late < g.ranks
    requires HandedIn(PipelineRun.Cfg(g, x), s.parts[x], k) && s.parts[x].tasks[late].round == k
    ensures PipelineRun.Enabled(g, s, e) && Progress(e)
  {
    var c, p := PipelineRun.Cfg(g, x), s.parts[x];
    var a := SomeoneMoves(c, p, k, late);
    if a.ATake? && Collective(a.q) {
      SettledFacts(g, s, x, a.r, a.q);
      e := PipelineRun.Post(x, a.q);
    } else {
      if a.AFinish? && Collective(p.tasks[a.r].stage.value) {
        SettledFacts(g, s, x, a.r, p.tasks[a.r].stage.value);
      }
      e := PipelineRun.Local(x, a);
    }
  }

  /**
   No run ever gets stuck inside a round: until all ranks have finished it, some thread of some rank
   can move. A collective counts as able to end only when every rank has closed its group.
   */
  lemma NoStall(g: Setup, events: seq<Event>, trace: seq<Machine>, x: nat, k: nat, late: nat) returns (e: Event)
    requires IsRun(g, events, trace) && x in g.compressed && late < g.ranks
    requires x in trace[|events|].parts && Ranked(PipelineRun.Cfg(g, x), trace[|events|].parts[x])
    requires HandedIn(PipelineRun.Cfg(g, x), trace[|events|].parts[x], k)
    requires trace[|events|].parts[x].tasks[late].round == k
    ensures PipelineRun.Shaped(g, trace[|events|]) && PipelineRun.Enabled(g, trace[|events|], e) && Progress(e)
  {
    var s := trace[|events|];
    RunInv(g, events, trace, |events|);
    if r: nat :| r < PipelineRun.Lead(g) && s.chan[r] != [] {
      e := PipelineRun.Receive(r);
    } else if GroupOpen(s.posted[PipelineRun.Lead(g)]) {
      e := PipelineRun.EndGroup;
    } else if r: nat :| r < g.ranks && s.ended[r] != |s.posted[r]| {
      assert PipelineRun.OpenOk(g, s.parts, s.posted[r], s.ended[r], r);
      LastGroupClosed(g, s, r);
      e := PipelineRun.Sync(r);
    } else {
      e := SettledMoves(g, s, x, k, late);
    }
  }

  /** When no thread can move any more, every rank has finished every round that all ranks handed in. */
  lemma QuietMeansFinished(g: Setup, events: seq<Event>, trace: seq<Machine>, x: nat, k: nat, r: nat)
    requires IsRun(g, events, trace) && x in g.compressed && r < g.ranks
    requires x in trace[|events|].parts && Ranked(PipelineRun.Cfg(g, x), trace[|events|].parts[x])
    requires HandedIn(PipelineRun.Cfg(g, x), trace[|events|].parts[x], k)
    requires PipelineRun.Shaped(g, trace[|events|])
    requires forall e: Event :: Progress(e) ==> !PipelineRun.Enabled(g, trace[|events|], e)
    ensures k < trace[|events|].parts[x].tasks[r].round
  {
    if trace[|events|].parts[x].tasks[r].round == k {
      var e := NoStall(g, events, trace, x, k, r);
    }
  }
}
