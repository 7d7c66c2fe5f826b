/**
 One partition of one tensor on the ranks of a machine: a distributed job, one PCIe switch, the
 last rank is the root. Every rank walks the partition through its stages; counting tables and
 signals keep the ranks in step around the CPU buffer they share.

 Signals may arrive in any order and any number of steps later, and a stage thread may take any
 task that is ready. So what holds here holds for every scheduling of the threads. When the ranks
 may join and leave a collective is up to `PipelineRun`.
 */
module Pipeline {
  import opened Options
  import opened Stages

  /** From a non-root rank to the root. */
  datatype Signal = ReduceReady | ContextPushReady | PushReady | BcastReady

  /** A partition's task on one rank: rounds completed, the stage it is in, whether a thread holds it, and a signal to send. */
  datatype Task = Task(round: nat, stage: Option<QueueType>, running: bool, owes: Option<Signal>)

  /** Signals of one non-root rank that are on their way to the root. */
  datatype Up = Up(reduce: nat, contextPush: nat, push: nat, bcast: nat)

  /** Signals on their way to one non-root rank, and its two counting tables. */
  datatype Down = Down(copyD2HSent: nat, contextCopy: nat, copyH2DSent: nat, copy: nat)

  /** The root's counting tables. */
  datatype Tables = Tables(reduce: nat, contextPush: nat, push: nat, bcast: nat)

  /** What a rank's slice of the shared buffer holds. */
  datatype Content = Blank | Torn | Reduced(round: nat) | Packed(round: nat) | Pulled(round: nat)

  /** `pushed` and `got` record, per round, what was read out of the buffer to be pushed and what each rank copied in. */
  datatype Part = Part(
    tasks: seq<Task>, up: seq<Up>, down: seq<Down>, tables: Tables, buf: seq<Content>,
    pushed: seq<seq<Content>>, got: seq<seq<Content>>)

  /** `ranks` local ranks; `compressed` tells whether the root compresses this partition. */
  datatype Config = Config(ranks: nat, compressed: bool)

  function Root(c: Config): int
  {
    c.ranks - 1
  }

  // ---------------------------------------------------------------------------
  // Stage order

  function First(root: bool): QueueType
  {
    if root then REDUCE else COORDINATE_REDUCE
  }

  function Next(root: bool, compressed: bool, q: QueueType): Option<QueueType>
  {
    match q
    case COORDINATE_REDUCE => Some(REDUCE)
    case REDUCE => Some(if root then CONTEXT_PUSH else COPYD2H)
    case CONTEXT_PUSH => Some(CONTEXT_PULL)
    case CONTEXT_PULL => Some(COPYD2H)
    case COPYD2H => Some(if !root then COORDINATE_PUSH else if compressed then COMPRESS else PUSH)
    case COORDINATE_PUSH => Some(COPYH2D)
    case COMPRESS => Some(PUSH)
    case PUSH => Some(PULL)
    case PULL => Some(if compressed then DECOMPRESS else COPYH2D)
    case DECOMPRESS => Some(COPYH2D)
    case COPYH2D => Some(if root then BROADCAST else COORDINATE_BROADCAST)
    case COORDINATE_BROADCAST => Some(BROADCAST)
    case BROADCAST => None
    case PCIE_REDUCE => None
  }

  predicate InList(root: bool, compressed: bool, q: QueueType)
  {
    match q
    case REDUCE => true
    case COPYD2H => true
    case COPYH2D => true
    case BROADCAST => true
    case COORDINATE_REDUCE => !root
    case COORDINATE_PUSH => !root
    case COORDINATE_BROADCAST => !root
    case CONTEXT_PUSH => root
    case CONTEXT_PULL => root
    case PUSH => root
    case PULL => root
    case COMPRESS => root && compressed
    case DECOMPRESS => root && compressed
    case PCIE_REDUCE => false
  }

  /** How often the task has entered (been taken from the queue of) stage `q`. */
  function Taken(t: Task, q: QueueType): nat
  {
    t.round + if t.stage.Some? && (Ord(q) < Ord(t.stage.value) || (q == t.stage.value && t.running)) then 1 else 0
  }

  /** How often the task has left stage `q`. */
  function Finished(t: Task, q: QueueType): nat
  {
    t.round + if t.stage.Some? && Ord(q) < Ord(t.stage.value) then 1 else 0
  }

  /** The stage whose completion a signal announces. */
  function Announces(s: Signal): QueueType
  {
    match s
    case ReduceReady => COORDINATE_REDUCE
    case ContextPushReady => REDUCE
    case PushReady => COORDINATE_PUSH
    case BcastReady => COORDINATE_BROADCAST
  }

  /** The root's stage that waits for a signal from every other rank. */
  function Gate(compressed: bool, s: Signal): QueueType
  {
    match s
    case ReduceReady => REDUCE
    case ContextPushReady => CONTEXT_PUSH
    case PushReady => if compressed then COMPRESS else PUSH
    case BcastReady => BROADCAST
  }

  function SignalAfter(q: QueueType): Option<Signal>
  {
    match q
    case COORDINATE_REDUCE => Some(ReduceReady)
    case REDUCE => Some(ContextPushReady)
    case COORDINATE_PUSH => Some(PushReady)
    case COORDINATE_BROADCAST => Some(BcastReady)
    case _ => None
  }

  function Pending(u: Up, s: Signal): nat
  {
    match s
    case ReduceReady => u.reduce
    case ContextPushReady => u.contextPush
    case PushReady => u.push
    case BcastReady => u.bcast
  }

  function SetPending(u: Up, s: Signal, n: nat): Up
  {
    match s
    case ReduceReady => u.(reduce := n)
    case ContextPushReady => u.(contextPush := n)
    case PushReady => u.(push := n)
    case BcastReady => u.(bcast := n)
  }

  function Count(t: Tables, s: Signal): nat
  {
    match s
    case ReduceReady => t.reduce
    case ContextPushReady => t.contextPush
    case PushReady => t.push
    case BcastReady => t.bcast
  }

  function SetCount(t: Tables, s: Signal, n: nat): Tables
  {
    match s
    case ReduceReady => t.(reduce := n)
    case ContextPushReady => t.(contextPush := n)
    case PushReady => t.(push := n)
    case BcastReady => t.(bcast := n)
  }

  // ---------------------------------------------------------------------------
  // Steps

  function Started(t: Task): Task
  {
    t.(running := true)
  }

  /** The task after its stage `q`: in the next queue, or done with the round. A non-root rank sends its signal afterwards. */
  function Proceeded(root: bool, compressed: bool, t: Task, q: QueueType): Task
  {
    match Next(root, compressed, q)
    case None => Task(t.round + 1, None, false, None)
    case Some(n) => Task(t.round, Some(n), false, if root then None else SignalAfter(q))
  }

  function Entered(root: bool, t: Task): Task
  {
    t.(stage := Some(First(root)), running := false)
  }

  predicate Ranked(c: Config, p: Part)
  {
    && 1 <= c.ranks == |p.tasks| == |p.up|
    && c.ranks == |p.down| == |p.buf| == |p.got|
  }

  /** Whether the counting table of rank `r`'s queue for `q`, if it has one, lets the partition pass. */
  predicate TableReady(c: Config, p: Part, r: nat, q: QueueType)
    requires Ranked(c, p) && r < c.ranks
  {
    if r == Root(c) then
      match q
      case REDUCE => p.tables.reduce == c.ranks - 1
      case CONTEXT_PUSH => p.tables.contextPush == c.ranks - 1
      case COMPRESS => p.tables.push == c.ranks - 1
      case PUSH => p.tables.push == c.ranks - 1
      case BROADCAST => p.tables.bcast == c.ranks - 1
      case _ => true
    else
      match q
      case COPYD2H => p.down[r].contextCopy == 1
      case COPYH2D => p.down[r].copy == 1
      case _ => true
  }

  function ClearTables(t: Tables, q: QueueType): Tables
  {
    match q
    case REDUCE => t.(reduce := 0)
    case CONTEXT_PUSH => t.(contextPush := 0)
    case COMPRESS => t.(push := 0)
    case PUSH => t.(push := 0)
    case BROADCAST => t.(bcast := 0)
    case _ => t
  }

  function ClearDown(d: Down, q: QueueType): Down
  {
    match q
    case COPYD2H => d.(contextCopy := 0)
    case COPYH2D => d.(copy := 0)
    case _ => d
  }

  /** The signals the root broadcasts while it runs a stage. */
  function Told(d: Down, q: QueueType): Down
  {
    match q
    case CONTEXT_PULL => d.(copyD2HSent := d.copyD2HSent + 1)
    case COPYH2D => d.(copyH2DSent := d.copyH2DSent + 1)
    case _ => d
  }

  function Fill<T>(n: nat, x: T): (s: seq<T>)
    ensures |s| == n && forall i :: 0 <= i < n ==> s[i] == x
  {
    seq(n, _ => x)
  }

  /** Stages that write the shared buffer leave their part of it torn while they run. */
  function StartWriting(ranks: nat, buf: seq<Content>, r: nat, q: QueueType): seq<Content>
    requires r < ranks == |buf|
  {
    match q
    case COPYD2H => buf[r := Torn]
    case PULL => Fill(ranks, Torn)
    case DECOMPRESS => Fill(ranks, Torn)
    case _ => buf
  }

  function DoneWriting(compressed: bool, ranks: nat, buf: seq<Content>, r: nat, q: QueueType, round: nat): seq<Content>
    requires r < ranks == |buf|
  {
    match q
    case COPYD2H => buf[r := Reduced(round)]
    case PULL => Fill(ranks, if compressed then Packed(round) else Pulled(round))
    case DECOMPRESS => Fill(ranks, Pulled(round))
    case _ => buf
  }

  /** A thread of rank `r` takes the task from the queue of stage `q`. */
  function Take(c: Config, p: Part, r: nat, q: QueueType): Part
    requires Ranked(c, p) && r < c.ranks
  {
    p.(tasks := p.tasks[r := Started(p.tasks[r])],
       tables := if r == Root(c) then ClearTables(p.tables, q) else p.tables,
       down := if r == Root(c) then seq(c.ranks, i requires 0 <= i < c.ranks =>
                                                  if i == Root(c) then p.down[i] else Told(p.down[i], q))
               else p.down[r := ClearDown(p.down[r], q)],
       buf := StartWriting(c.ranks, p.buf, r, q))
  }

  /** The root reads the buffer in COMPRESS if it compresses and otherwise in PUSH. */
  function ReadStage(compressed: bool): QueueType
  {
    if compressed then COMPRESS else PUSH
  }

  /** The stage that leaves the pulled values in the buffer. */
  function LastPull(compressed: bool): QueueType
  {
    if compressed then DECOMPRESS else PULL
  }

  /** A stage ends and hands the task on; after compression the push table is set back to full. */
  function Finish(c: Config, p: Part, r: nat, q: QueueType): Part
    requires Ranked(c, p) && r < c.ranks
  {
    p.(tasks := p.tasks[r := Proceeded(r == Root(c), c.compressed, p.tasks[r], q)],
       tables := if r == Root(c) && q == COMPRESS then p.tables.(push := c.ranks - 1) else p.tables,
       buf := DoneWriting(c.compressed, c.ranks, p.buf, r, q, p.tasks[r].round),
       pushed := if r == Root(c) && q == ReadStage(c.compressed) then p.pushed + [p.buf] else p.pushed,
       got := if q == COPYH2D then p.got[r := p.got[r] + [p.buf[r]]] else p.got)
  }

  function Enqueue(c: Config, p: Part, r: nat): Part
    requires Ranked(c, p) && r < c.ranks
  {
    p.(tasks := p.tasks[r := Entered(r == Root(c), p.tasks[r])])
  }

  function Paid(t: Task): Task
  {
    t.(owes := None)
  }

  function WithSignal(u: Up, s: Signal): Up
  {
    SetPending(u, s, Pending(u, s) + 1)
  }

  function WithoutSignal(u: Up, s: Signal): Up
    requires 0 < Pending(u, s)
  {
    SetPending(u, s, Pending(u, s) - 1)
  }

  function Send(c: Config, p: Part, r: nat): Part
    requires Ranked(c, p) && r < c.ranks && p.tasks[r].owes.Some?
  {
    p.(tasks := p.tasks[r := Paid(p.tasks[r])], up := p.up[r := WithSignal(p.up[r], p.tasks[r].owes.value)])
  }

  /** The root's listener counts a signal; a full table is a failed check. */
  function Listen(c: Config, p: Part, r: nat, s: Signal): Option<Part>
    requires Ranked(c, p) && r < c.ranks && 0 < Pending(p.up[r], s)
  {
    if Count(p.tables, s) < c.ranks - 1 then
      Some(p.(up := p.up[r := WithoutSignal(p.up[r], s)],
              tables := SetCount(p.tables, s, Count(p.tables, s) + 1)))
    else None
  }

  /** A non-root rank's listener counts the permission to copy out or in; its tables hold one. */
  function ListenCopy(c: Config, p: Part, r: nat, out: bool): Option<Part>
    requires Ranked(c, p) && r < c.ranks
    requires 0 < if out then p.down[r].copyD2HSent else p.down[r].copyH2DSent
  {
    var d := p.down[r];
    if (if out then d.contextCopy else d.copy) < 1 then
      Some(p.(down := p.down[r := Allowed(d, out)]))
    else None
  }

  function Allowed(d: Down, out: bool): Down
    requires 0 < if out then d.copyD2HSent else d.copyH2DSent
  {
    if out then d.(copyD2HSent := d.copyD2HSent - 1, contextCopy := d.contextCopy + 1)
    else d.(copyH2DSent := d.copyH2DSent - 1, copy := d.copy + 1)
  }

  datatype Action =
    | AEnqueue(r: nat) | ATake(r: nat, q: QueueType) | AFinish(r: nat)
    | ASend(r: nat) | AListen(r: nat, s: Signal) | AListenCopy(r: nat, out: bool)

  predicate Collective(q: QueueType)
  {
    q == REDUCE || q == BROADCAST
  }

  /** What the threads of a rank may do, collectives of a non-root rank aside: those follow a command. */
  predicate Enabled(c: Config, p: Part, a: Action)
    requires Ranked(c, p)
  {
    a.r < c.ranks &&
    var t := p.tasks[a.r];
    match a
    case AEnqueue(_) => t.stage.None?
    case ATake(r, q) => t.stage == Some(q) && !t.running && TableReady(c, p, r, q) && (Collective(q) ==> r == Root(c))
    case AFinish(_) => t.stage.Some? && t.running
    case ASend(_) => t.owes.Some?
    case AListen(r, s) => r != Root(c) && 0 < Pending(p.up[r], s)
    case AListenCopy(r, out) => r != Root(c) && 0 < if out then p.down[r].copyD2HSent else p.down[r].copyH2DSent
  }

  function Act(c: Config, p: Part, a: Action): Option<Part>
    requires Ranked(c, p) && Enabled(c, p, a)
  {
    match a
    case AEnqueue(r) => Some(Enqueue(c, p, r))
    case ATake(r, q) => Some(Take(c, p, r, q))
    case AFinish(r) => Some(Finish(c, p, r, p.tasks[r].stage.value))
    case ASend(r) => Some(Send(c, p, r))
    case AListen(r, s) => Listen(c, p, r, s)
    case AListenCopy(r, out) => ListenCopy(c, p, r, out)
  }

  function Fresh(c: Config): Part
  {
    Part(Fill(c.ranks, Task(0, None, false, None)), Fill(c.ranks, Up(0, 0, 0, 0)), Fill(c.ranks, Down(0, 0, 0, 0)),
         Tables(0, 0, 0, 0), Fill(c.ranks, Blank), [], Fill(c.ranks, []))
  }

  // ---------------------------------------------------------------------------
  // Invariant

  predicate TaskOk(root: bool, compressed: bool, t: Task)
  {
    && (t.stage.None? ==> !t.running && t.owes.None?)
    && (t.stage.Some? ==> InList(root, compressed, t.stage.value))
    && (t.owes.Some? ==>
          && !root && !t.running && t.stage.Some?
          && Next(false, compressed, Announces(t.owes.value)) == t.stage)
  }

  /** Signals of one kind the rank has sent so far. */
  function Sent(t: Task, s: Signal): int
  {
    Finished(t, Announces(s)) - if t.owes == Some(s) then 1 else 0
  }

  function Arrived(t: Task, u: Up, s: Signal): int
  {
    Sent(t, s) - Pending(u, s)
  }

  /** The root `m` passed each gate no more often than the rank's signal arrived. */
  predicate Heard(compressed: bool, m: Task, t: Task, u: Up)
  {
    && Taken(m, REDUCE) <= Arrived(t, u, ReduceReady)
    && Taken(m, CONTEXT_PUSH) <= Arrived(t, u, ContextPushReady)
    && Taken(m, Gate(compressed, PushReady)) <= Arrived(t, u, PushReady)
    && Taken(m, BROADCAST) <= Arrived(t, u, BcastReady)
  }

  /** The rank `t` joins no collective and copies nothing before the root `m` allowed it. */
  predicate Follows(m: Task, t: Task, d: Down)
  {
    && Taken(t, REDUCE) <= Taken(m, REDUCE)
    && Taken(t, BROADCAST) <= Taken(m, BROADCAST)
    && d.copyD2HSent + d.contextCopy + Taken(t, COPYD2H) == Taken(m, CONTEXT_PULL)
    && d.copyH2DSent + d.copy + Taken(t, COPYH2D) == Taken(m, COPYH2D)
  }

  predicate PairOk(compressed: bool, m: Task, t: Task, u: Up, d: Down)
  {
    Heard(compressed, m, t, u) && Follows(m, t, d)
  }

  /** A signal that was counted and not yet used by the root. */
  predicate Counted(compressed: bool, m: Task, t: Task, u: Up, s: Signal)
  {
    Taken(m, Gate(compressed, s)) < Arrived(t, u, s)
  }

  predicate PairsOk(c: Config, tasks: seq<Task>, up: seq<Up>, down: seq<Down>)
    requires 1 <= c.ranks == |tasks| == |up| == |down|
  {
    && TaskOk(true, c.compressed, tasks[Root(c)])
    && forall r: nat {:trigger tasks[r]} :: r < Root(c) ==>
      TaskOk(false, c.compressed, tasks[r]) && PairOk(c.compressed, tasks[Root(c)], tasks[r], up[r], down[r])
  }

  function CountedSet(c: Config, tasks: seq<Task>, up: seq<Up>, s: Signal): set<nat>
    requires 1 <= c.ranks == |tasks| == |up|
  {
    set r: nat | r < Root(c) && Counted(c.compressed, tasks[Root(c)], tasks[r], up[r], s)
  }

  /** Between COMPRESS and PUSH the push table is held full. */
  predicate Held(compressed: bool, m: Task, s: Signal)
  {
    compressed && s == PushReady && m.stage == Some(PUSH) && !m.running
  }

  predicate TableOk(c: Config, tasks: seq<Task>, up: seq<Up>, tables: Tables, s: Signal)
    requires 1 <= c.ranks == |tasks| == |up|
  {
    Count(tables, s) == if Held(c.compressed, tasks[Root(c)], s) then c.ranks - 1 else |CountedSet(c, tasks, up, s)|
  }

  predicate TablesOk(c: Config, tasks: seq<Task>, up: seq<Up>, tables: Tables)
    requires 1 <= c.ranks == |tasks| == |up|
  {
    forall s :: TableOk(c, tasks, up, tables, s)
  }

  /** What rank `t`'s slice holds while no pull is under way, given how far the root `m` is. */
  predicate SliceOk(compressed: bool, m: Task, t: Task, x: Content)
  {
    var pulls := Finished(m, LastPull(compressed));
    Taken(m, PULL) == pulls ==>
      && (Taken(t, COPYD2H) == pulls && 0 < pulls ==> x == Pulled(pulls - 1))
      && (Finished(t, COPYD2H) == pulls + 1 ==> x == Reduced(pulls))
  }

  predicate SlicesOk(c: Config, tasks: seq<Task>, buf: seq<Content>)
    requires 1 <= c.ranks == |tasks| == |buf|
  {
    forall r: nat {:trigger buf[r]} :: r < c.ranks ==> SliceOk(c.compressed, tasks[Root(c)], tasks[r], buf[r])
  }

  predicate GotOk(t: Task, got: seq<Content>)
  {
    && |got| == Finished(t, COPYH2D)
    && forall k: nat :: k < |got| ==> got[k] == Pulled(k)
  }

  predicate LogsOk(c: Config, tasks: seq<Task>, pushed: seq<seq<Content>>, got: seq<seq<Content>>)
    requires 1 <= c.ranks == |tasks| == |got|
  {
    && |pushed| == Finished(tasks[Root(c)], ReadStage(c.compressed))
    && (forall k: nat :: k < |pushed| ==> pushed[k] == Fill(c.ranks, Reduced(k)))
    && (forall r: nat {:trigger got[r]} :: r < c.ranks ==> GotOk(tasks[r], got[r]))
  }

  predicate PartInv(c: Config, p: Part)
  {
    && Ranked(c, p)
    && PairsOk(c, p.tasks, p.up, p.down)
    && TablesOk(c, p.tasks, p.up, p.tables)
    && SlicesOk(c, p.tasks, p.buf)
    && LogsOk(c, p.tasks, p.pushed, p.got)
  }
}
