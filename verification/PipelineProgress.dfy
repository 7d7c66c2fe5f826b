/** Every step uses up work, so a machine does a bounded number of steps per round that is handed in. */
module PipelineProgress {
  import opened Arith
  import opened Options
  import opened Stages
  import opened Pipeline
  import opened PipelinePairs
  import PipelineRun
  import opened PipelineTheorems
  import opened Sums

  /** What one stage of one task costs at most, the signals and commands it causes included. */
  function StageCost(ranks: nat): nat
  {
    6 * ranks + 4
  }

  /** Takes and finishes that are left in the round. */
  function StepsLeft(t: Task): nat
  {
    if t.stage.None? then 0 else 2 * (14 - Ord(t.stage.value)) - if t.running then 1 else 0
  }

  function TaskWork(ranks: nat, t: Task): nat
  {
    StepsLeft(t) * StageCost(ranks) + if t.owes.Some? then 2 else 0
  }

  /** The task of a rank and the signals from it and to it that are under way. */
  function RankWork(ranks: nat, t: Task, u: Up, d: Down): nat
  {
    TaskWork(ranks, t) + (u.reduce + u.contextPush + u.push + u.bcast) + (d.copyD2HSent + d.copyH2DSent)
  }

  function Works(p: Part): (ws: seq<nat>)
    requires |p.tasks| == |p.up| == |p.down|
    ensures |ws| == |p.tasks|
  {
    seq(|p.tasks|, r requires 0 <= r < |p.tasks| => RankWork(|p.tasks|, p.tasks[r], p.up[r], p.down[r]))
  }

  function PartWork(p: Part): nat
    requires |p.tasks| == |p.up| == |p.down|
  {
    SumOf(Works(p))
  }

  // ---------------------------------------------------------------------------
  // One rank

  lemma TakeCosts(ranks: nat, t: Task, q: QueueType)
    requires t.stage == Some(q) && !t.running
    ensures TaskWork(ranks, Started(t)) + StageCost(ranks) == TaskWork(ranks, t)
  {
    assert StepsLeft(t) == StepsLeft(Started(t)) + 1;
    Distribute(StepsLeft(Started(t)), 1, StageCost(ranks));
  }

  lemma FinishCosts(ranks: nat, root: bool, compressed: bool, t: Task, q: QueueType)
    requires t.stage == Some(q) && t.running && InList(root, compressed, q)
    ensures TaskWork(ranks, Proceeded(root, compressed, t, q)) + StageCost(ranks) <= TaskWork(ranks, t) + 2
  {
    var t' := Proceeded(root, compressed, t, q);
    assert StepsLeft(t') + 1 <= StepsLeft(t);
    MulMono(StepsLeft(t') + 1, StepsLeft(t), StageCost(ranks));
    Distribute(StepsLeft(t'), 1, StageCost(ranks));
  }

  lemma EnterCosts(ranks: nat, root: bool, t: Task)
    requires t.stage.None?
    ensures TaskWork(ranks, Entered(root, t)) <= TaskWork(ranks, t) + 28 * StageCost(ranks)
  {
    MulMono(StepsLeft(Entered(root, t)), 28, StageCost(ranks));
  }

  lemma ToldCosts(d: Down, q: QueueType)
    ensures var d' := Told(d, q); d'.copyD2HSent + d'.copyH2DSent <= d.copyD2HSent + d.copyH2DSent + 1
  {
  }

  // ---------------------------------------------------------------------------
  // One partition

  /** Taking a task pays for a stage; at the root it may send a signal to every other rank. */
  lemma TakeWork(c: Config, p: Part, r: nat, q: QueueType)
    requires Ranked(c, p) && r < c.ranks && p.tasks[r].stage == Some(q) && !p.tasks[r].running
    ensures PartWork(Take(c, p, r, q)) + StageCost(c.ranks) <= PartWork(p) + c.ranks - 1
  {
    var p' := Take(c, p, r, q);
    TakeCosts(c.ranks, p.tasks[r], q);
    forall i | 0 <= i < c.ranks && i != r ensures Works(p')[i] <= Works(p)[i] + 1 {
      ToldCosts(p.down[i], q);
    }
    SumDrops(Works(p), Works(p'), r, StageCost(c.ranks), 1);
  }

  lemma FinishWork(c: Config, p: Part, r: nat, q: QueueType)
    requires Ranked(c, p) && r < c.ranks && p.tasks[r].stage == Some(q) && p.tasks[r].running
    requires InList(r == Root(c), c.compressed, q)
    ensures PartWork(Finish(c, p, r, q)) < PartWork(p)
  {
    var p' := Finish(c, p, r, q);
    FinishCosts(c.ranks, r == Root(c), c.compressed, p.tasks[r], q);
    SumDrops(Works(p), Works(p'), r, 1, 0);
  }

  lemma SendWork(c: Config, p: Part, r: nat)
    requires Ranked(c, p) && r < c.ranks && p.tasks[r].owes.Some?
    ensures PartWork(Send(c, p, r)) < PartWork(p)
  {
    var p' := Send(c, p, r);
    assert Works(p')[r] + 1 == Works(p)[r];
    SumDrops(Works(p), Works(p'), r, 1, 0);
  }

  lemma ListenWork(c: Config, p: Part, r: nat, s: Signal)
    requires Ranked(c, p) && r < c.ranks && 0 < Pending(p.up[r], s) && Listen(c, p, r, s).Some?
    ensures PartWork(Listen(c, p, r, s).value) < PartWork(p)
  {
    var p' := Listen(c, p, r, s).value;
    assert Works(p')[r] + 1 == Works(p)[r];
    SumDrops(Works(p), Works(p'), r, 1, 0);
  }

  lemma ListenCopyWork(c: Config, p: Part, r: nat, out: bool)
    requires Ranked(c, p) && r < c.ranks
    requires 0 < if out then p.down[r].copyD2HSent else p.down[r].copyH2DSent
    requires ListenCopy(c, p, r, out).Some?
    ensures PartWork(ListenCopy(c, p, r, out).value) < PartWork(p)
  {
    var p' := ListenCopy(c, p, r, out).value;
    assert Works(p')[r] + 1 == Works(p)[r];
    SumDrops(Works(p), Works(p'), r, 1, 0);
  }

  lemma EnqueueWork(c: Config, p: Part, r: nat)
    requires Ranked(c, p) && r < c.ranks && p.tasks[r].stage.None?
    ensures PartWork(Enqueue(c, p, r)) <= PartWork(p) + 28 * StageCost(c.ranks)
  {
    var p' := Enqueue(c, p, r);
    EnterCosts(c.ranks, r == Root(c), p.tasks[r]);
    var before := Works(p)[r := Works(p)[r] + 28 * StageCost(c.ranks)];
    SumDrops(before, Works(p'), r, 0, 0);
    SumDrops(before, Works(p), r, 28 * StageCost(c.ranks), 0);
    SumUpdate(Works(p), r, Works(p)[r] + 28 * StageCost(c.ranks));
  }

  /** Every action but handing in a partition uses up work. */
  lemma ActWork(c: Config, p: Part, a: Action)
    requires PartInv(c, p) && Enabled(c, p, a) && Act(c, p, a).Some?
    ensures var p' := Act(c, p, a).value;
            && |p'.tasks| == |p'.up| == |p'.down|
            && (a.AEnqueue? ==> PartWork(p') <= PartWork(p) + 28 * StageCost(c.ranks))
            && (!a.AEnqueue? ==> PartWork(p') < PartWork(p))
  {
    match a {
      case AEnqueue(r) => EnqueueWork(c, p, r);
      case ATake(r, q) => TakeWork(c, p, r, q);
      case AFinish(r) => FinishWork(c, p, r, p.tasks[r].stage.value);
      case ASend(r) => SendWork(c, p, r);
      case AListen(r, s) => ListenWork(c, p, r, s);
      case AListenCopy(r, out) => ListenCopyWork(c, p, r, out);
    }
  }

  // ---------------------------------------------------------------------------
  // The machine

  function WorkAt(parts: map<nat, Part>, x: nat): nat
  {
    if x in parts && |parts[x].tasks| == |parts[x].up| == |parts[x].down| then PartWork(parts[x]) else 0
  }

  function WorkOf(parts: map<nat, Part>): nat -> nat
  {
    x => WorkAt(parts, x)
  }

  ghost function PartsWork(parts: map<nat, Part>): nat
  {
    Total(WorkOf(parts), parts.Keys)
  }

  lemma PartsChange(parts: map<nat, Part>, x: nat, p: Part)
    requires x in parts
    ensures PartsWork(parts[x := p]) + WorkAt(parts, x) == PartsWork(parts) + WorkAt(parts[x := p], x)
  {
    var parts' := parts[x := p];
    assert parts'.Keys == parts.Keys;
    TotalRemove(WorkOf(parts), parts.Keys, x);
    TotalRemove(WorkOf(parts'), parts.Keys, x);
    TotalSame(WorkOf(parts), WorkOf(parts'), parts.Keys - {x});
  }

  /** A command still to be obeyed and then to end, or only to end. */
  function Load(chan: seq<PipelineRun.Command>, posted: seq<PipelineRun.Command>, ended: nat): nat
  {
    2 * |chan| + if ended <= |posted| then |posted| - ended else 0
  }

  function Loads(s: Machine): (ls: seq<nat>)
    requires |s.chan| == |s.posted| == |s.ended|
    ensures |ls| == |s.chan| && forall r :: 0 <= r < |s.chan| ==> ls[r] == Load(s.chan[r], s.posted[r], s.ended[r])
  {
    seq(|s.chan|, r requires 0 <= r < |s.chan| => Load(s.chan[r], s.posted[r], s.ended[r]))
  }

  /** A group that is open has to be closed, with a command to every rank. */
  function GroupWork(g: Setup, own: seq<PipelineRun.Command>): nat
  {
    if GroupOpen(own) then 2 * g.ranks + 1 else 0
  }

  /** What is left to do: in the partitions, with the commands, and for an open group. */
  ghost function Work(g: Setup, s: Machine): nat
    requires PipelineRun.Shaped(g, s)
  {
    PartsWork(s.parts) + SumOf(Loads(s)) + GroupWork(g, s.posted[PipelineRun.Lead(g)])
  }

  /** A command is a load for every rank. */
  lemma AnnounceLoads(g: Setup, s: Machine, c: PipelineRun.Command)
    requires PipelineRun.Shaped(g, s)
    ensures SumOf(Loads(PipelineRun.Announce(g, s, c))) <= SumOf(Loads(s)) + 2 * g.ranks
  {
    SumRises(Loads(s), Loads(PipelineRun.Announce(g, s, c)), 2);
  }

  lemma ConsumeLoads(s: Machine, r: nat)
    requires |s.chan| == |s.posted| == |s.ended| && r < |s.chan| && s.chan[r] != [] && s.ended[r] <= |s.posted[r]|
    ensures SumOf(Loads(PipelineRun.Consume(s, r))) < SumOf(Loads(s))
  {
    SumDrops(Loads(s), Loads(PipelineRun.Consume(s, r)), r, 1, 0);
  }

  lemma EndLoads(s: Machine, r: nat)
    requires |s.chan| == |s.posted| == |s.ended| && r < |s.chan| && s.ended[r] < |s.posted[r]|
    ensures SumOf(Loads(s.(ended := s.ended[r := s.ended[r] + 1]))) < SumOf(Loads(s))
  {
    SumDrops(Loads(s), Loads(s.(ended := s.ended[r := s.ended[r] + 1])), r, 1, 0);
  }

  lemma LoadsIgnoreParts(s: Machine, parts: map<nat, Part>)
    requires |s.chan| == |s.posted| == |s.ended|
    ensures Loads(s.(parts := parts)) == Loads(s)
  {
  }

  /** Handing in a partition adds at most this much work. */
  function RoundCost(ranks: nat): nat
  {
    28 * StageCost(ranks)
  }

  predicate HandsIn(e: Event)
  {
    e.Local? && e.a.AEnqueue?
  }

  lemma LocalWork(g: Setup, s: Machine, x: nat, a: Action)
    requires PipelineRun.MachineInv(g, s) && PipelineRun.Enabled(g, s, PipelineRun.Local(x, a))
    requires PipelineRun.Step(g, s, PipelineRun.Local(x, a)).Some?
    ensures var s' := PipelineRun.Step(g, s, PipelineRun.Local(x, a)).value;
            && (a.AEnqueue? ==> PartsWork(s'.parts) <= PartsWork(s.parts) + RoundCost(g.ranks))
            && (!a.AEnqueue? ==> PartsWork(s'.parts) < PartsWork(s.parts))
  {
    var c := PipelineRun.Cfg(g, x);
    ActWork(c, s.parts[x], a);
    PartsChange(s.parts, x, Act(c, s.parts[x], a).value);
  }

  lemma TakePartsWork(g: Setup, parts: map<nat, Part>, x: nat, r: nat, q: QueueType)
    requires PipelineRun.PartsShaped(g, parts) && x in parts && r < g.ranks
    requires parts[x].tasks[r].stage == Some(q) && !parts[x].tasks[r].running
    ensures PartsWork(parts[x := Take(PipelineRun.Cfg(g, x), parts[x], r, q)]) + StageCost(g.ranks)
         <= PartsWork(parts) + g.ranks - 1
  {
    var c := PipelineRun.Cfg(g, x);
    TakeWork(c, parts[x], r, q);
    PartsChange(parts, x, Take(c, parts[x], r, q));
  }

  /** A stage pays for the command that announces it and for closing its group. */
  lemma AnnouncedWork(g: Setup, s: Machine, c: PipelineRun.Command, parts: map<nat, Part>)
    requires PipelineRun.Shaped(g, s) && PipelineRun.PartsShaped(g, parts)
    requires PartsWork(parts) + StageCost(g.ranks) <= PartsWork(s.parts) + g.ranks - 1
    ensures Work(g, PipelineRun.Announce(g, s, c).(parts := parts)) < Work(g, s)
  {
    AnnounceLoads(g, s, c);
    LoadsIgnoreParts(PipelineRun.Announce(g, s, c), parts);
  }

  lemma PostWork(g: Setup, s: Machine, x: nat, op: QueueType)
    requires PipelineRun.Shaped(g, s) && PipelineRun.Enabled(g, s, PipelineRun.Post(x, op))
    ensures var s' := PipelineRun.Step(g, s, PipelineRun.Post(x, op)).value;
            PipelineRun.Shaped(g, s') && Work(g, s') < Work(g, s)
  {
    TakePartsWork(g, s.parts, x, PipelineRun.Lead(g), op);
    AnnouncedWork(g, s, PipelineRun.Do(op, x),
                  s.parts[x := Take(PipelineRun.Cfg(g, x), s.parts[x], PipelineRun.Lead(g), op)]);
  }

  lemma EndGroupWork(g: Setup, s: Machine)
    requires PipelineRun.MachineInv(g, s) && PipelineRun.Enabled(g, s, PipelineRun.EndGroup)
    ensures var s' := PipelineRun.Announce(g, s, PipelineRun.Group);
            PipelineRun.Shaped(g, s') && Work(g, s') < Work(g, s)
  {
    AnnounceLoads(g, s, PipelineRun.Group);
  }

  lemma ReceiveWork(g: Setup, s: Machine, r: nat)
    requires PipelineRun.MachineInv(g, s) && PipelineRun.Enabled(g, s, PipelineRun.Receive(r))
    requires PipelineRun.Obey(g, s, r).Some? && PipelineRun.Shaped(g, PipelineRun.Obey(g, s, r).value)
    ensures Work(g, PipelineRun.Obey(g, s, r).value) < Work(g, s)
  {
    assert PipelineRun.OpenOk(g, s.parts, s.posted[r], s.ended[r], r);
    ConsumeLoads(s, r);
    match s.chan[r][0] {
      case Group =>
      case Do(op, x) =>
        LoadsIgnoreParts(PipelineRun.Consume(s, r), s.parts[x := Take(PipelineRun.Cfg(g, x), s.parts[x], r, op)]);
        TakePartsWork(g, s.parts, x, r, op);
    }
  }

  lemma FinishPartsWork(g: Setup, parts: map<nat, Part>, x: nat, r: nat, q: QueueType)
    requires PipelineRun.PartsOk(g, parts) && x in parts && r < g.ranks
    requires parts[x].tasks[r].stage == Some(q) && parts[x].tasks[r].running
    ensures PartsWork(parts[x := Finish(PipelineRun.Cfg(g, x), parts[x], r, q)]) < PartsWork(parts)
  {
    var c := PipelineRun.Cfg(g, x);
    FinishWork(c, parts[x], r, q);
    PartsChange(parts, x, Finish(c, parts[x], r, q));
  }

  lemma SyncWork(g: Setup, s: Machine, r: nat)
    requires PipelineRun.MachineInv(g, s) && PipelineRun.Enabled(g, s, PipelineRun.Sync(r))
    requires PipelineRun.Release(g, s, r).Some? && PipelineRun.Shaped(g, PipelineRun.Release(g, s, r).value)
    ensures Work(g, PipelineRun.Release(g, s, r).value) < Work(g, s)
  {
    EndLoads(s, r);
    match s.posted[r][s.ended[r]] {
      case Group =>
      case Do(op, x) =>
        LoadsIgnoreParts(s.(ended := s.ended[r := s.ended[r] + 1]),
                         s.parts[x := Finish(PipelineRun.Cfg(g, x), s.parts[x], r, op)]);
        FinishPartsWork(g, s.parts, x, r, op);
    }
  }

  /** Every step of a machine but handing in a partition leaves less to do. */
  lemma StepWork(g: Setup, s: Machine, e: Event)
    requires PipelineRun.MachineInv(g, s) && PipelineRun.Enabled(g, s, e)
    ensures PipelineRun.Step(g, s, e).Some? && PipelineRun.MachineInv(g, PipelineRun.Step(g, s, e).value)
    ensures var s' := PipelineRun.Step(g, s, e).value;
            if HandsIn(e) then Work(g, s') <= Work(g, s) + RoundCost(g.ranks) else Work(g, s') < Work(g, s)
  {
    PipelineRun.StepInv(g, s, e);
    match e {
      case Local(x, a) => LocalWork(g, s, x, a);
      case Post(x, op) => PostWork(g, s, x, op);
      case EndGroup => EndGroupWork(g, s);
      case Receive(r) => ReceiveWork(g, s, r);
      case Sync(r) => SyncWork(g, s, r);
    }
  }

  // ---------------------------------------------------------------------------
  // Runs

  function HandIns(events: seq<Event>): nat
  {
    if events == [] then 0 else HandIns(events[..|events| - 1]) + if HandsIn(events[|events| - 1]) then 1 else 0
  }

  /** So many steps are paid for if each hand-in pays for itself and `cost` more. */
  function Allowance(cost: nat, events: seq<Event>): nat
  {
    (cost + 1) * HandIns(events)
  }

  lemma RunStepWork(g: Setup, events: seq<Event>, trace: seq<Machine>, i: nat)
    requires IsRun(g, events, trace) && i < |events|
    ensures PipelineRun.Shaped(g, trace[i]) && PipelineRun.Shaped(g, trace[i + 1])
    ensures if HandsIn(events[i]) then Work(g, trace[i + 1]) <= Work(g, trace[i]) + RoundCost(g.ranks)
            else Work(g, trace[i + 1]) < Work(g, trace[i])
  {
    RunInv(g, events, trace, i);
    StepWork(g, trace[i], events[i]);
  }

  lemma HandInsNext(events: seq<Event>, i: nat)
    requires i < |events|
    ensures HandIns(events[..i + 1]) == HandIns(events[..i]) + if HandsIn(events[i]) then 1 else 0
  {
    assert events[..i + 1][..i] == events[..i];
  }

  /** What was done and what is left is paid for by what was handed in. */
  lemma {:induction false} PaidSoFar(events: seq<Event>, works: seq<nat>, cost: nat, i: nat)
    requires |works| == |events| + 1 && works[0] == 0 && i < |works|
    requires forall k :: 0 <= k < |events| ==>
               if HandsIn(events[k]) then works[k + 1] <= works[k] + cost else works[k + 1] < works[k]
    ensures HandIns(events[..i]) <= i && works[i] + (i - HandIns(events[..i])) <= cost * HandIns(events[..i])
  {
    if i > 0 {
      PaidSoFar(events, works, cost, i - 1);
      HandInsNext(events, i - 1);
      Paid(cost, HandIns(events[..i - 1]), i - 1, works[i - 1], works[i], HandsIn(events[i - 1]));
    }
  }

  lemma Paid(cost: nat, h: nat, done: nat, before: nat, after: nat, handsIn: bool)
    requires h <= done && before + (done - h) <= cost * h
    requires if handsIn then after <= before + cost else after < before
    ensures var h' := h + if handsIn then 1 else 0; after + (done + 1 - h') <= cost * h'
  {
    Distribute(h, 1, cost);
  }

  lemma BootWork(g: Setup)
    requires 1 <= g.ranks
    ensures PipelineRun.Shaped(g, PipelineRun.Boot(g)) && Work(g, PipelineRun.Boot(g)) == 0
  {
    var s := PipelineRun.Boot(g);
    forall x | x in s.parts ensures WorkOf(s.parts)(x) == 0 {
      FreshWork(PipelineRun.Cfg(g, x));
    }
    NoTotal(WorkOf(s.parts), s.parts.Keys);
    AllZero(Loads(s));
  }

  lemma FreshWork(c: Config)
    ensures PartWork(Fresh(c)) == 0
  {
    AllZero(Works(Fresh(c)));
  }

  lemma AllPaid(events: seq<Event>, works: seq<nat>, cost: nat)
    requires |works| == |events| + 1 && works[0] == 0
    requires forall k :: 0 <= k < |events| ==>
               if HandsIn(events[k]) then works[k + 1] <= works[k] + cost else works[k + 1] < works[k]
    ensures |events| <= Allowance(cost, events)
  {
    PaidSoFar(events, works, cost, |events|);
    assert events[..|events|] == events;
    Distribute(cost, 1, HandIns(events));
  }

  ghost function WorkIn(g: Setup, s: Machine): nat
  {
    if PipelineRun.Shaped(g, s) then Work(g, s) else 0
  }

  lemma StepsPaid(g: Setup, events: seq<Event>, trace: seq<Machine>, cost: nat)
    requires IsRun(g, events, trace) && RoundCost(g.ranks) <= cost
    ensures |events| <= Allowance(cost, events)
  {
    var works := seq(|trace|, i requires 0 <= i < |trace| => WorkIn(g, trace[i]));
    BootWork(g);
    forall k: nat | k < |events|
      ensures if HandsIn(events[k]) then works[k + 1] <= works[k] + cost else works[k + 1] < works[k]
    {
      RunStepWork(g, events, trace, k);
    }
    AllPaid(events, works, cost);
  }

  /**
   No run does more than a fixed number of steps per partition and round that a rank hands in. Since
   some thread can always move until a round is finished, every round that is handed in by all ranks
   is finished after that many steps, however the threads are scheduled.
   */
  lemma StepsBounded(g: Setup, events: seq<Event>, trace: seq<Machine>)
    requires IsRun(g, events, trace)
    ensures |events| <= Allowance(RoundCost(g.ranks), events)
  {
    StepsPaid(g, events, trace, RoundCost(g.ranks));
  }
}
