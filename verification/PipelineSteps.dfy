/** Every step of a rank keeps the invariant of a partition, and no step fails a check. */
module PipelineSteps {
  import opened Sequences
  import opened Options
  import opened Stages
  import opened Pipeline
  import opened PipelinePairs

  // ---------------------------------------------------------------------------
  // One slice of the buffer

  predicate WritesAll(q: QueueType)
  {
    q == PULL || q == DECOMPRESS
  }

  lemma SliceRootTakes(compressed: bool, m: Task, t: Task, x: Content, q: QueueType)
    requires TaskOk(true, compressed, m) && m.stage == Some(q) && !m.running
    requires SliceOk(compressed, m, t, x)
    ensures SliceOk(compressed, Started(m), t, if WritesAll(q) then Torn else x)
  {
  }

  lemma SliceRootTakesOwn(compressed: bool, m: Task, x: Content, q: QueueType)
    requires TaskOk(true, compressed, m) && m.stage == Some(q) && !m.running
    requires SliceOk(compressed, m, m, x)
    ensures SliceOk(compressed, Started(m), Started(m), if WritesAll(q) || q == COPYD2H then Torn else x)
  {
  }

  function Written(compressed: bool, q: QueueType, round: nat, x: Content): Content
  {
    if q == DECOMPRESS || (q == PULL && !compressed) then Pulled(round)
    else if q == PULL then Packed(round)
    else x
  }

  lemma SliceRootFinishes(compressed: bool, m: Task, t: Task, u: Up, d: Down, x: Content, q: QueueType)
    requires TaskOk(true, compressed, m) && TaskOk(false, compressed, t) && PairOk(compressed, m, t, u, d)
    requires m.stage == Some(q) && m.running && SliceOk(compressed, m, t, x)
    ensures SliceOk(compressed, Proceeded(true, compressed, m, q), t, Written(compressed, q, m.round, x))
  {
    if WritesAll(q) {
      PullsAlone(compressed, m, t, u, d);
      SliceAfterPull(compressed, m, t, q, x);
    } else {
      SliceElsewhere(compressed, m, t, q, x);
    }
  }

  lemma SliceAfterPull(compressed: bool, m: Task, t: Task, q: QueueType, x: Content)
    requires TaskOk(true, compressed, m) && m.stage == Some(q) && m.running && WritesAll(q)
    requires Taken(t, COPYD2H) == Finished(t, COPYD2H) == Taken(m, PULL)
    ensures SliceOk(compressed, Proceeded(true, compressed, m, q), t, Written(compressed, q, m.round, x))
  {
  }

  lemma SliceElsewhere(compressed: bool, m: Task, t: Task, q: QueueType, x: Content)
    requires TaskOk(true, compressed, m) && m.stage == Some(q) && m.running && !WritesAll(q)
    requires SliceOk(compressed, m, t, x)
    ensures SliceOk(compressed, Proceeded(true, compressed, m, q), t, x)
  {
  }

  lemma SliceRootFinishesOwn(compressed: bool, m: Task, x: Content, q: QueueType)
    requires TaskOk(true, compressed, m) && m.stage == Some(q) && m.running && SliceOk(compressed, m, m, x)
    ensures var m' := Proceeded(true, compressed, m, q);
            SliceOk(compressed, m', m', if q == COPYD2H then Reduced(m.round) else Written(compressed, q, m.round, x))
  {
  }

  lemma SliceRankTakes(compressed: bool, m: Task, t: Task, u: Up, d: Down, x: Content, q: QueueType)
    requires TaskOk(true, compressed, m) && TaskOk(false, compressed, Started(t))
    requires PairOk(compressed, m, Started(t), u, d)
    requires t.stage == Some(q) && !t.running && SliceOk(compressed, m, t, x)
    ensures SliceOk(compressed, m, Started(t), if q == COPYD2H then Torn else x)
  {
    if q == COPYD2H {
      CopiesOutBeforeRead(compressed, m, Started(t), u, d);
    }
  }

  lemma SliceRankFinishes(compressed: bool, m: Task, t: Task, u: Up, d: Down, x: Content, q: QueueType)
    requires TaskOk(true, compressed, m) && TaskOk(false, compressed, t) && PairOk(compressed, m, t, u, d)
    requires t.stage == Some(q) && t.running && SliceOk(compressed, m, t, x)
    ensures SliceOk(compressed, m, Proceeded(false, compressed, t, q), if q == COPYD2H then Reduced(t.round) else x)
  {
    if q == COPYD2H {
      CopiesOutBeforeRead(compressed, m, t, u, d);
    }
  }

  // ---------------------------------------------------------------------------
  // The counting tables

  predicate SameCounted(c: Config, tasks: seq<Task>, up: seq<Up>, tasks': seq<Task>, up': seq<Up>, s: Signal)
    requires 1 <= c.ranks == |tasks| == |up| && c.ranks == |tasks'| == |up'|
  {
    forall r: nat {:trigger tasks[r]} {:trigger tasks'[r]} :: r < Root(c) ==>
      (Counted(c.compressed, tasks[Root(c)], tasks[r], up[r], s)
       <==> Counted(c.compressed, tasks'[Root(c)], tasks'[r], up'[r], s))
  }

  lemma TableKept(c: Config, tasks: seq<Task>, up: seq<Up>, tasks': seq<Task>, up': seq<Up>, tables: Tables,
                  tables': Tables, s: Signal)
    requires 1 <= c.ranks == |tasks| == |up| && c.ranks == |tasks'| == |up'|
    requires TableOk(c, tasks, up, tables, s) && SameCounted(c, tasks, up, tasks', up', s)
    requires Count(tables', s) == Count(tables, s)
    requires Held(c.compressed, tasks'[Root(c)], s) == Held(c.compressed, tasks[Root(c)], s)
    ensures TableOk(c, tasks', up', tables', s)
  {
    assert CountedSet(c, tasks', up', s) == CountedSet(c, tasks, up, s);
  }

  /** A full table means that every other rank's signal was counted. */
  lemma FullTable(c: Config, tasks: seq<Task>, up: seq<Up>, s: Signal, r: nat)
    requires 1 <= c.ranks == |tasks| == |up| && r < Root(c)
    requires |CountedSet(c, tasks, up, s)| == c.ranks - 1
    ensures Counted(c.compressed, tasks[Root(c)], tasks[r], up[r], s)
  {
    BelowSize(Root(c));
    SubsetSize(CountedSet(c, tasks, up, s), Below(Root(c)));
    assert r in CountedSet(c, tasks, up, s);
  }

  // ---------------------------------------------------------------------------
  // Steps of a non-root rank

  function RankSet(p: Part, r: nat, t: Task, u: Up, d: Down, x: Content, got: seq<Content>): Part
    requires r < |p.tasks| && r < |p.up| && r < |p.down| && r < |p.buf| && r < |p.got|
  {
    p.(tasks := p.tasks[r := t], up := p.up[r := u], down := p.down[r := d], buf := p.buf[r := x],
       got := p.got[r := got])
  }

  lemma SameParts(p: Part, r: nat)
    requires r < |p.tasks| && r < |p.up| && r < |p.down| && r < |p.buf| && r < |p.got|
    ensures p.tasks[r := p.tasks[r]] == p.tasks && p.up[r := p.up[r]] == p.up && p.down[r := p.down[r]] == p.down
    ensures p.buf[r := p.buf[r]] == p.buf && p.got[r := p.got[r]] == p.got
  {
  }

  /** What a step of rank `r` that leaves the other ranks and the root's tables alone has to show for itself. */
  lemma RankKeeps(c: Config, p: Part, r: nat, t: Task, u: Up, d: Down, x: Content, got: seq<Content>)
    requires PartInv(c, p) && r < Root(c)
    requires var m := p.tasks[Root(c)];
             && TaskOk(false, c.compressed, t) && PairOk(c.compressed, m, t, u, d)
             && SliceOk(c.compressed, m, t, x) && GotOk(t, got)
             && SameSignals(c.compressed, m, p.tasks[r], p.up[r], m, t, u)
    ensures PartInv(c, RankSet(p, r, t, u, d, x, got))
  {
    var p' := RankSet(p, r, t, u, d, x, got);
    forall s: Signal ensures TableOk(c, p'.tasks, p'.up, p'.tables, s) {
      assert TableOk(c, p.tasks, p.up, p.tables, s);
      TableKept(c, p.tasks, p.up, p'.tasks, p'.up, p.tables, p'.tables, s);
    }
  }

  /** Entering changes no count that the buffer and the logs depend on. */
  lemma SliceEnters(compressed: bool, root: bool, m: Task, t: Task, x: Content, got: seq<Content>)
    requires t.stage.None? && SliceOk(compressed, m, t, x) && GotOk(t, got)
    ensures SliceOk(compressed, m, Entered(root, t), x) && GotOk(Entered(root, t), got)
  {
  }

  lemma RankEnqueueKeeps(c: Config, p: Part, r: nat)
    requires PartInv(c, p) && r < Root(c) && p.tasks[r].stage.None?
    ensures PartInv(c, Enqueue(c, p, r))
  {
    var m, t := p.tasks[Root(c)], p.tasks[r];
    RankEnters(c.compressed, m, t, p.up[r], p.down[r]);
    SliceEnters(c.compressed, false, m, t, p.buf[r], p.got[r]);
    RankKeeps(c, p, r, Entered(false, t), p.up[r], p.down[r], p.buf[r], p.got[r]);
    assert Enqueue(c, p, r) == RankSet(p, r, Entered(false, t), p.up[r], p.down[r], p.buf[r], p.got[r]) by {
      SameParts(p, r);
    }
  }

  lemma SliceSends(compressed: bool, m: Task, t: Task, x: Content, got: seq<Content>)
    requires SliceOk(compressed, m, t, x) && GotOk(t, got)
    ensures SliceOk(compressed, m, Paid(t), x) && GotOk(Paid(t), got)
  {
  }

  lemma SendKeeps(c: Config, p: Part, r: nat)
    requires PartInv(c, p) && r < Root(c) && p.tasks[r].owes.Some?
    ensures PartInv(c, Send(c, p, r))
  {
    var m, t := p.tasks[Root(c)], p.tasks[r];
    RankSends(c.compressed, m, t, p.up[r], p.down[r]);
    SliceSends(c.compressed, m, t, p.buf[r], p.got[r]);
    var u := WithSignal(p.up[r], t.owes.value);
    RankKeeps(c, p, r, Paid(t), u, p.down[r], p.buf[r], p.got[r]);
    assert Send(c, p, r) == RankSet(p, r, Paid(t), u, p.down[r], p.buf[r], p.got[r]) by {
      SameParts(p, r);
    }
  }

  lemma TakenGot(t: Task, got: seq<Content>)
    requires GotOk(t, got)
    ensures GotOk(Started(t), got)
  {
  }

  /** Takes by table and takes by command alike. */
  lemma RankTakeKeeps(c: Config, p: Part, r: nat, q: QueueType)
    requires PartInv(c, p) && r < Root(c) && p.tasks[r].stage == Some(q) && !p.tasks[r].running
    requires TableReady(c, p, r, q)
    requires Collective(q) ==> Taken(p.tasks[r], q) < Taken(p.tasks[Root(c)], q)
    ensures PartInv(c, Take(c, p, r, q))
  {
    var m, t := p.tasks[Root(c)], p.tasks[r];
    RankTakes(c.compressed, m, t, p.up[r], p.down[r], q);
    SliceRankTakes(c.compressed, m, t, p.up[r], ClearDown(p.down[r], q), p.buf[r], q);
    var x := if q == COPYD2H then Torn else p.buf[r];
    TakenGot(t, p.got[r]);
    RankKeeps(c, p, r, Started(t), p.up[r], ClearDown(p.down[r], q), x, p.got[r]);
    assert Take(c, p, r, q) == RankSet(p, r, Started(t), p.up[r], ClearDown(p.down[r], q), x, p.got[r]) by {
      SameParts(p, r);
    }
  }

  lemma CopyKeeps(c: Config, p: Part, r: nat, out: bool)
    requires PartInv(c, p) && r < Root(c)
    requires 0 < if out then p.down[r].copyD2HSent else p.down[r].copyH2DSent
    ensures ListenCopy(c, p, r, out).Some? && PartInv(c, ListenCopy(c, p, r, out).value)
  {
    PairBounds(c.compressed, p.tasks[Root(c)], p.tasks[r], p.up[r], p.down[r]);
    var d := Allowed(p.down[r], out);
    RankKeeps(c, p, r, p.tasks[r], p.up[r], d, p.buf[r], p.got[r]);
    assert ListenCopy(c, p, r, out) == Some(RankSet(p, r, p.tasks[r], p.up[r], d, p.buf[r], p.got[r])) by {
      SameParts(p, r);
    }
  }

  lemma GotFinishes(compressed: bool, m: Task, t: Task, u: Up, d: Down, x: Content, got: seq<Content>, q: QueueType)
    requires TaskOk(true, compressed, m) && TaskOk(false, compressed, t) && PairOk(compressed, m, t, u, d)
    requires t.stage == Some(q) && t.running && SliceOk(compressed, m, t, x) && GotOk(t, got)
    ensures GotOk(Proceeded(false, compressed, t, q), if q == COPYH2D then got + [x] else got)
  {
    FinishCounts(false, compressed, t, q, COPYH2D);
    if q == COPYH2D {
      CopiesInAfterPull(compressed, m, t, u, d);
    }
  }

  lemma RankFinishKeeps(c: Config, p: Part, r: nat, q: QueueType)
    requires PartInv(c, p) && r < Root(c) && p.tasks[r].stage == Some(q) && p.tasks[r].running
    ensures PartInv(c, Finish(c, p, r, q))
  {
    var m, t := p.tasks[Root(c)], p.tasks[r];
    RankFinishes(c.compressed, m, t, p.up[r], p.down[r], q);
    SliceRankFinishes(c.compressed, m, t, p.up[r], p.down[r], p.buf[r], q);
    GotFinishes(c.compressed, m, t, p.up[r], p.down[r], p.buf[r], p.got[r], q);
    var t' := Proceeded(false, c.compressed, t, q);
    var x := if q == COPYD2H then Reduced(t.round) else p.buf[r];
    var got := if q == COPYH2D then p.got[r] + [p.buf[r]] else p.got[r];
    RankKeeps(c, p, r, t', p.up[r], p.down[r], x, got);
    assert Finish(c, p, r, q) == RankSet(p, r, t', p.up[r], p.down[r], x, got) by {
      SameParts(p, r);
    }
  }

  // ---------------------------------------------------------------------------
  // The root's listener

  /** The set of counted ranks gains the one that was heard, and was not full. */
  lemma ListenCounts(c: Config, tasks: seq<Task>, up: seq<Up>, up': seq<Up>, r: nat, s: Signal)
    requires 1 <= c.ranks == |tasks| == |up| == |up'| && r < Root(c) && up' == up[r := up'[r]]
    requires !Counted(c.compressed, tasks[Root(c)], tasks[r], up[r], s)
    requires Counted(c.compressed, tasks[Root(c)], tasks[r], up'[r], s)
    ensures |CountedSet(c, tasks, up', s)| == |CountedSet(c, tasks, up, s)| + 1 < c.ranks
  {
    var before, after := CountedSet(c, tasks, up, s), CountedSet(c, tasks, up', s);
    assert after == before + {r} by {
      forall i: nat ensures i in after <==> i in before + {r} {
        assert i < Root(c) && i != r ==> up'[i] == up[i];
      }
    }
    assert |after| < c.ranks by {
      BelowSize(Root(c));
      SubsetSize(after, Below(Root(c)));
    }
  }

  /** Hearing a signal changes no other signal's table. */
  lemma ListenOthers(c: Config, tasks: seq<Task>, up: seq<Up>, tables: Tables, r: nat, s0: Signal, s: Signal)
    requires 1 <= c.ranks == |tasks| == |up| && r < Root(c) && 0 < Pending(up[r], s0) && s != s0
    requires TableOk(c, tasks, up, tables, s)
    ensures TableOk(c, tasks, up[r := WithoutSignal(up[r], s0)], SetCount(tables, s0, Count(tables, s0) + 1), s)
  {
    var up' := up[r := WithoutSignal(up[r], s0)];
    assert SameCounted(c, tasks, up, tasks, up', s) by { HearingArrives(tasks[r], up[r], s0, s); }
    TableKept(c, tasks, up, tasks, up', tables, SetCount(tables, s0, Count(tables, s0) + 1), s);
  }

  lemma ListenTables(c: Config, p: Part, r: nat, s0: Signal)
    requires PartInv(c, p) && r < Root(c) && 0 < Pending(p.up[r], s0)
    ensures Listen(c, p, r, s0).Some?
    ensures var p' := Listen(c, p, r, s0).value; TablesOk(c, p'.tasks, p'.up, p'.tables)
  {
    var m, t, u := p.tasks[Root(c)], p.tasks[r], p.up[r];
    var up' := p.up[r := WithoutSignal(u, s0)];
    NotHeld(c, p, r, s0);
    assert |CountedSet(c, p.tasks, up', s0)| == |CountedSet(c, p.tasks, p.up, s0)| + 1 < c.ranks by {
      SignalCounts(c.compressed, m, t, u, p.down[r], s0);
      ListenCounts(c, p.tasks, p.up, up', r, s0);
    }
    assert TableOk(c, p.tasks, p.up, p.tables, s0);
    var tables' := SetCount(p.tables, s0, Count(p.tables, s0) + 1);
    forall s: Signal ensures TableOk(c, p.tasks, up', tables', s) {
      assert TableOk(c, p.tasks, p.up, p.tables, s);
      if s != s0 {
        ListenOthers(c, p.tasks, p.up, p.tables, r, s0, s);
      }
    }
  }

  lemma ListenKeeps(c: Config, p: Part, r: nat, s0: Signal)
    requires PartInv(c, p) && r < Root(c) && 0 < Pending(p.up[r], s0)
    ensures Listen(c, p, r, s0).Some? && PartInv(c, Listen(c, p, r, s0).value)
  {
    ListenTables(c, p, r, s0);
    HearingKeeps(c.compressed, p.tasks[Root(c)], p.tasks[r], p.up[r], s0);
  }

  lemma NotHeld(c: Config, p: Part, r: nat, s: Signal)
    requires PartInv(c, p) && r < Root(c) && 0 < Pending(p.up[r], s)
    ensures !Held(c.compressed, p.tasks[Root(c)], s)
  {
    if Held(c.compressed, p.tasks[Root(c)], s) {
      HeldQuiet(c.compressed, p.tasks[Root(c)], p.tasks[r], p.up[r], p.down[r]);
    }
  }

  // ---------------------------------------------------------------------------
  // Steps of the root

  /** A ready table means that every other rank has sent what the gate waits for. */
  lemma ReadyOpens(c: Config, p: Part, q: QueueType, r: nat)
    requires PartInv(c, p) && r < Root(c)
    requires p.tasks[Root(c)].stage == Some(q) && TableReady(c, p, Root(c), q)
    ensures GateOpen(c.compressed, p.tasks[Root(c)], p.tasks[r], p.up[r], q)
  {
    forall s: Signal | Gate(c.compressed, s) == q
      ensures Counted(c.compressed, p.tasks[Root(c)], p.tasks[r], p.up[r], s)
    {
      assert TableOk(c, p.tasks, p.up, p.tables, s);
      FullTable(c, p.tasks, p.up, s, r);
    }
  }

  predicate NoneCounted(c: Config, tasks: seq<Task>, up: seq<Up>, s: Signal)
    requires 1 <= c.ranks == |tasks| == |up|
  {
    forall r: nat {:trigger tasks[r]} :: r < Root(c) ==> !Counted(c.compressed, tasks[Root(c)], tasks[r], up[r], s)
  }

  lemma TableEmpty(c: Config, tasks: seq<Task>, up: seq<Up>, tables: Tables, s: Signal)
    requires 1 <= c.ranks == |tasks| == |up|
    requires NoneCounted(c, tasks, up, s) && Count(tables, s) == 0 && !Held(c.compressed, tasks[Root(c)], s)
    ensures TableOk(c, tasks, up, tables, s)
  {
    assert CountedSet(c, tasks, up, s) == {};
  }

  /** The counted signals of a gate are used up by passing it; the others stay. */
  lemma RootTakeCounted(c: Config, p: Part, q: QueueType, s: Signal)
    requires PartInv(c, p) && p.tasks[Root(c)].stage == Some(q) && !p.tasks[Root(c)].running
    requires TableReady(c, p, Root(c), q)
    ensures var tasks' := p.tasks[Root(c) := Started(p.tasks[Root(c)])];
            if Gate(c.compressed, s) == q then NoneCounted(c, tasks', p.up, s)
            else SameCounted(c, p.tasks, p.up, tasks', p.up, s)
  {
    var m := p.tasks[Root(c)];
    var tasks' := p.tasks[Root(c) := Started(m)];
    forall r: nat | r < Root(c)
      ensures tasks'[r] == p.tasks[r]
      ensures Counted(c.compressed, Started(m), p.tasks[r], p.up[r], s)
              <==> Gate(c.compressed, s) != q && Counted(c.compressed, m, p.tasks[r], p.up[r], s)
    {
      ReadyOpens(c, p, q, r);
      RootTakes(c.compressed, m, p.tasks[r], p.up[r], p.down[r], q);
    }
  }

  lemma RootTakeTable(c: Config, p: Part, q: QueueType, s: Signal)
    requires PartInv(c, p) && p.tasks[Root(c)].stage == Some(q) && !p.tasks[Root(c)].running
    requires TableReady(c, p, Root(c), q)
    ensures TableOk(c, p.tasks[Root(c) := Started(p.tasks[Root(c)])], p.up, ClearTables(p.tables, q), s)
  {
    var m := p.tasks[Root(c)];
    var tasks' := p.tasks[Root(c) := Started(m)];
    RootTakeCounted(c, p, q, s);
    assert TableOk(c, p.tasks, p.up, p.tables, s);
    if Gate(c.compressed, s) == q {
      TableEmpty(c, tasks', p.up, ClearTables(p.tables, q), s);
    } else if Held(c.compressed, m, s) {
      forall r: nat | r < Root(c) ensures !Counted(c.compressed, m, p.tasks[r], p.up[r], s) {
        HeldQuiet(c.compressed, m, p.tasks[r], p.up[r], p.down[r]);
      }
      TableEmpty(c, tasks', p.up, ClearTables(p.tables, q), s);
    } else {
      TableKept(c, p.tasks, p.up, tasks', p.up, p.tables, ClearTables(p.tables, q), s);
    }
  }

  lemma RootTakePairs(c: Config, p: Part, q: QueueType)
    requires PartInv(c, p) && p.tasks[Root(c)].stage == Some(q) && !p.tasks[Root(c)].running
    requires TableReady(c, p, Root(c), q)
    ensures var p' := Take(c, p, Root(c), q); PairsOk(c, p'.tasks, p'.up, p'.down)
  {
    var m := p.tasks[Root(c)];
    forall r: nat | r < Root(c)
      ensures PairOk(c.compressed, Started(m), p.tasks[r], p.up[r], Told(p.down[r], q))
    {
      ReadyOpens(c, p, q, r);
      RootTakes(c.compressed, m, p.tasks[r], p.up[r], p.down[r], q);
    }
  }

  lemma RootTakeSlices(c: Config, p: Part, q: QueueType)
    requires PartInv(c, p) && p.tasks[Root(c)].stage == Some(q) && !p.tasks[Root(c)].running
    ensures var p' := Take(c, p, Root(c), q); SlicesOk(c, p'.tasks, p'.buf)
  {
    var m := p.tasks[Root(c)];
    SliceRootTakesOwn(c.compressed, m, p.buf[Root(c)], q);
    forall r: nat | r < Root(c)
      ensures SliceOk(c.compressed, Started(m), p.tasks[r], if WritesAll(q) then Torn else p.buf[r])
    {
      SliceRootTakes(c.compressed, m, p.tasks[r], p.buf[r], q);
    }
  }

  lemma RootTakeKeeps(c: Config, p: Part, q: QueueType)
    requires PartInv(c, p) && p.tasks[Root(c)].stage == Some(q) && !p.tasks[Root(c)].running
    requires TableReady(c, p, Root(c), q)
    ensures PartInv(c, Take(c, p, Root(c), q))
  {
    RootTakePairs(c, p, q);
    RootTakeSlices(c, p, q);
    var p' := Take(c, p, Root(c), q);
    forall s: Signal ensures TableOk(c, p'.tasks, p'.up, p'.tables, s) {
      RootTakeTable(c, p, q, s);
    }
    TakenGot(p.tasks[Root(c)], p.got[Root(c)]);
  }

  lemma RootFinishTable(c: Config, p: Part, q: QueueType, s: Signal)
    requires PartInv(c, p) && p.tasks[Root(c)].stage == Some(q) && p.tasks[Root(c)].running
    ensures var p' := Finish(c, p, Root(c), q); TableOk(c, p'.tasks, p'.up, p'.tables, s)
  {
    var m := p.tasks[Root(c)];
    var m' := Proceeded(true, c.compressed, m, q);
    var p' := Finish(c, p, Root(c), q);
    assert TableOk(c, p.tasks, p.up, p.tables, s);
    if q != COMPRESS || s != PushReady {
      forall r: nat | r < Root(c)
        ensures Counted(c.compressed, m', p.tasks[r], p.up[r], s) <==> Counted(c.compressed, m, p.tasks[r], p.up[r], s)
      {
        RootFinishes(c.compressed, m, p.tasks[r], p.up[r], p.down[r], q);
      }
      TableKept(c, p.tasks, p.up, p'.tasks, p.up, p.tables, p'.tables, s);
    }
  }

  lemma RootFinishPairs(c: Config, p: Part, q: QueueType)
    requires PartInv(c, p) && p.tasks[Root(c)].stage == Some(q) && p.tasks[Root(c)].running
    ensures var p' := Finish(c, p, Root(c), q); PairsOk(c, p'.tasks, p'.up, p'.down)
  {
    var m := p.tasks[Root(c)];
    forall r: nat | r < Root(c)
      ensures PairOk(c.compressed, Proceeded(true, c.compressed, m, q), p.tasks[r], p.up[r], p.down[r])
    {
      RootFinishes(c.compressed, m, p.tasks[r], p.up[r], p.down[r], q);
    }
  }

  lemma WrittenSlices(compressed: bool, ranks: nat, buf: seq<Content>, root: nat, q: QueueType, round: nat)
    requires root < ranks == |buf|
    ensures var buf' := DoneWriting(compressed, ranks, buf, root, q, round);
            && |buf'| == ranks
            && (forall r: nat :: r < ranks && r != root ==> buf'[r] == Written(compressed, q, round, buf[r]))
            && buf'[root] == if q == COPYD2H then Reduced(round) else Written(compressed, q, round, buf[root])
  {
  }

  lemma RootFinishSlices(c: Config, p: Part, q: QueueType)
    requires PartInv(c, p) && p.tasks[Root(c)].stage == Some(q) && p.tasks[Root(c)].running
    ensures var p' := Finish(c, p, Root(c), q); SlicesOk(c, p'.tasks, p'.buf)
  {
    var m := p.tasks[Root(c)];
    WrittenSlices(c.compressed, c.ranks, p.buf, Root(c), q, m.round);
    SliceRootFinishesOwn(c.compressed, m, p.buf[Root(c)], q);
    forall r: nat | r < Root(c)
      ensures SliceOk(c.compressed, Proceeded(true, c.compressed, m, q), p.tasks[r],
                      Written(c.compressed, q, m.round, p.buf[r]))
    {
      SliceRootFinishes(c.compressed, m, p.tasks[r], p.up[r], p.down[r], p.buf[r], q);
    }
  }

  /** What the root reads for its push in round `k` is every rank's reduced slice of round `k`. */
  lemma RootReads(c: Config, p: Part)
    requires PartInv(c, p)
    requires p.tasks[Root(c)].stage == Some(ReadStage(c.compressed)) && p.tasks[Root(c)].running
    ensures p.buf == Fill(c.ranks, Reduced(p.tasks[Root(c)].round))
  {
    var m := p.tasks[Root(c)];
    forall r: nat | r < c.ranks ensures p.buf[r] == Reduced(m.round) {
      if r < Root(c) {
        ReadsAfterCopies(c.compressed, m, p.tasks[r], p.up[r], p.down[r]);
      }
      assert SliceOk(c.compressed, m, p.tasks[r], p.buf[r]);
    }
  }

  lemma GotRootFinishes(compressed: bool, m: Task, x: Content, got: seq<Content>, q: QueueType)
    requires TaskOk(true, compressed, m) && m.stage == Some(q) && m.running && SliceOk(compressed, m, m, x)
    requires GotOk(m, got)
    ensures GotOk(Proceeded(true, compressed, m, q), if q == COPYH2D then got + [x] else got)
  {
  }

  /** The record of what was pushed grows exactly when the stage that reads the buffer ends. */
  lemma PushedFinishes(compressed: bool, m: Task, q: QueueType)
    requires TaskOk(true, compressed, m) && m.stage == Some(q) && m.running
    ensures Finished(Proceeded(true, compressed, m, q), ReadStage(compressed))
         == Finished(m, ReadStage(compressed)) + if q == ReadStage(compressed) then 1 else 0
    ensures q == ReadStage(compressed) ==> Finished(m, ReadStage(compressed)) == m.round
  {
  }

  lemma RootFinishPushed(c: Config, p: Part, q: QueueType)
    requires PartInv(c, p) && p.tasks[Root(c)].stage == Some(q) && p.tasks[Root(c)].running
    ensures var p' := Finish(c, p, Root(c), q);
            && |p'.pushed| == Finished(p'.tasks[Root(c)], ReadStage(c.compressed))
            && forall k: nat :: k < |p'.pushed| ==> p'.pushed[k] == Fill(c.ranks, Reduced(k))
  {
    PushedFinishes(c.compressed, p.tasks[Root(c)], q);
    if q == ReadStage(c.compressed) {
      RootReads(c, p);
    }
  }

  lemma RootFinishLogs(c: Config, p: Part, q: QueueType)
    requires PartInv(c, p) && p.tasks[Root(c)].stage == Some(q) && p.tasks[Root(c)].running
    ensures var p' := Finish(c, p, Root(c), q); LogsOk(c, p'.tasks, p'.pushed, p'.got)
  {
    RootFinishPushed(c, p, q);
    GotRootFinishes(c.compressed, p.tasks[Root(c)], p.buf[Root(c)], p.got[Root(c)], q);
  }

  lemma RootFinishKeeps(c: Config, p: Part, q: QueueType)
    requires PartInv(c, p) && p.tasks[Root(c)].stage == Some(q) && p.tasks[Root(c)].running
    ensures PartInv(c, Finish(c, p, Root(c), q))
  {
    RootFinishPairs(c, p, q);
    RootFinishSlices(c, p, q);
    RootFinishLogs(c, p, q);
    var p' := Finish(c, p, Root(c), q);
    forall s: Signal ensures TableOk(c, p'.tasks, p'.up, p'.tables, s) {
      RootFinishTable(c, p, q, s);
    }
  }

  lemma SliceRootEnters(compressed: bool, m: Task, t: Task, x: Content)
    requires m.stage.None? && SliceOk(compressed, m, t, x)
    ensures SliceOk(compressed, Entered(true, m), t, x)
  {
  }

  lemma RootEnqueueKeeps(c: Config, p: Part)
    requires PartInv(c, p) && p.tasks[Root(c)].stage.None?
    ensures PartInv(c, Enqueue(c, p, Root(c)))
  {
    var m := p.tasks[Root(c)];
    var m' := Entered(true, m);
    var p' := Enqueue(c, p, Root(c));
    forall r: nat | r < Root(c)
      ensures PairOk(c.compressed, m', p.tasks[r], p.up[r], p.down[r])
      ensures SameSignals(c.compressed, m, p.tasks[r], p.up[r], m', p.tasks[r], p.up[r])
      ensures SliceOk(c.compressed, m', p.tasks[r], p.buf[r])
    {
      RootEnters(c.compressed, m, p.tasks[r], p.up[r], p.down[r]);
      SliceRootEnters(c.compressed, m, p.tasks[r], p.buf[r]);
    }
    SliceEnters(c.compressed, true, m, m, p.buf[Root(c)], p.got[Root(c)]);
    SliceRootEnters(c.compressed, m, m', p.buf[Root(c)]);
    forall s: Signal ensures TableOk(c, p'.tasks, p'.up, p'.tables, s) {
      assert TableOk(c, p.tasks, p.up, p.tables, s);
      TableKept(c, p.tasks, p.up, p'.tasks, p'.up, p.tables, p'.tables, s);
    }
  }
}
