/** All partitions of a machine together, and the ordered commands by which the root leads the collectives. */
module PipelineRun {
  import opened Options
  import opened Stages
  import opened Pipeline
  import opened PipelinePairs
  import opened PipelineSteps

  /** What the root tells the other ranks about collectives; `Group` closes a group. */
  datatype Command = Do(op: QueueType, x: nat) | Group

  /** `compressed` tells for every partition's key whether the root compresses it. */
  datatype Setup = Setup(ranks: nat, compressed: map<nat, bool>)

  /**
   `posted` is every rank's sequence of posted collectives and closed groups, `ended` how many of
   these the rank's synchronising thread is done with, in this order.
   */
  datatype Machine = Machine(
    parts: map<nat, Part>, chan: seq<seq<Command>>, posted: seq<seq<Command>>, ended: seq<nat>)

  datatype Event =
    | Local(x: nat, a: Action) | Post(x: nat, op: QueueType) | EndGroup | Receive(r: nat) | Sync(r: nat)

  function Lead(g: Setup): int
  {
    g.ranks - 1
  }

  function Cfg(g: Setup, x: nat): Config
    requires x in g.compressed
  {
    Config(g.ranks, g.compressed[x])
  }

  predicate PartsShaped(g: Setup, parts: map<nat, Part>)
  {
    && 1 <= g.ranks
    && parts.Keys == g.compressed.Keys
    && forall x :: x in parts ==> Ranked(Cfg(g, x), parts[x])
  }

  predicate Shaped(g: Setup, s: Machine)
  {
    g.ranks == |s.chan| == |s.posted| == |s.ended| && PartsShaped(g, s.parts)
  }

  /** Joining and leaving a collective: not up to the stage threads. */
  predicate OnCollective(p: Part, a: Action)
    requires a.r < |p.tasks|
  {
    || (a.ATake? && Collective(a.q))
    || (a.AFinish? && p.tasks[a.r].stage.Some? && Collective(p.tasks[a.r].stage.value))
  }

  predicate ClosedAt(posted: seq<seq<Command>>, j: nat)
  {
    forall r :: 0 <= r < |posted| ==> j < |posted[r]| && posted[r][j] == Group
  }

  /** Every rank has closed the group that position `i` belongs to: its collectives can complete. */
  ghost predicate ClosedFrom(posted: seq<seq<Command>>, i: nat)
  {
    exists j: nat :: i <= j && ClosedAt(posted, j)
  }

  ghost predicate Enabled(g: Setup, s: Machine, e: Event)
    requires Shaped(g, s)
  {
    match e
    case Local(x, a) =>
      x in s.parts && Pipeline.Enabled(Cfg(g, x), s.parts[x], a) && !OnCollective(s.parts[x], a)
    case Post(x, op) =>
      x in s.parts && Collective(op) && Pipeline.Enabled(Cfg(g, x), s.parts[x], ATake(Lead(g), op))
    case EndGroup =>
      var own := s.posted[Lead(g)]; own != [] && own[|own| - 1] != Group
    case Receive(r) => r < Lead(g) && s.chan[r] != []
    case Sync(r) => r < g.ranks && s.ended[r] < |s.posted[r]| && ClosedFrom(s.posted, s.ended[r])
  }

  /** The root adds a command to its own sequence and sends it to every other rank. */
  function Announce(g: Setup, s: Machine, c: Command): Machine
    requires Shaped(g, s)
  {
    s.(posted := s.posted[Lead(g) := s.posted[Lead(g)] + [c]],
       chan := seq(g.ranks, r requires 0 <= r < g.ranks => if r == Lead(g) then s.chan[r] else s.chan[r] + [c]))
  }

  function Consume(s: Machine, r: nat): Machine
    requires r < |s.chan| && r < |s.posted| && s.chan[r] != []
  {
    s.(chan := s.chan[r := s.chan[r][1..]], posted := s.posted[r := s.posted[r] + [s.chan[r][0]]])
  }

  /** A non-root rank looks its task up by key; a task that is not there is a failed check. */
  function Obey(g: Setup, s: Machine, r: nat): Option<Machine>
    requires Shaped(g, s) && r < Lead(g) && s.chan[r] != []
  {
    match s.chan[r][0]
    case Group => Some(Consume(s, r))
    case Do(op, x) =>
      if x in s.parts && s.parts[x].tasks[r].stage == Some(op) && !s.parts[x].tasks[r].running then
        Some(Consume(s, r).(parts := s.parts[x := Take(Cfg(g, x), s.parts[x], r, op)]))
      else None
  }

  /** Once the group has completed everywhere, the rank's synchronising thread hands its tasks on, one after the other. */
  function Release(g: Setup, s: Machine, r: nat): Option<Machine>
    requires Shaped(g, s) && r < g.ranks && s.ended[r] < |s.posted[r]|
  {
    var s1 := s.(ended := s.ended[r := s.ended[r] + 1]);
    match s.posted[r][s.ended[r]]
    case Group => Some(s1)
    case Do(op, x) =>
      if x in s.parts && s.parts[x].tasks[r].stage == Some(op) && s.parts[x].tasks[r].running then
        Some(s1.(parts := s.parts[x := Finish(Cfg(g, x), s.parts[x], r, op)]))
      else None
  }

  function Step(g: Setup, s: Machine, e: Event): Option<Machine>
    requires Shaped(g, s) && Enabled(g, s, e)
  {
    match e
    case Local(x, a) =>
      (match Act(Cfg(g, x), s.parts[x], a)
       case None => None
       case Some(p) => Some(s.(parts := s.parts[x := p])))
    case Post(x, op) =>
      Some(Announce(g, s, Do(op, x)).(parts := s.parts[x := Take(Cfg(g, x), s.parts[x], Lead(g), op)]))
    case EndGroup => Some(Announce(g, s, Group))
    case Receive(r) => Obey(g, s, r)
    case Sync(r) => Release(g, s, r)
  }

  function Boot(g: Setup): Machine
  {
    Machine(map x | x in g.compressed :: Fresh(Cfg(g, x)), Fill(g.ranks, []), Fill(g.ranks, []), Fill(g.ranks, 0))
  }

  // ---------------------------------------------------------------------------
  // Invariant

  /** The collectives `op` that the root has posted and rank `r` has not. */
  function Behind(g: Setup, p: Part, r: nat, op: QueueType): int
    requires Ranked(Config(g.ranks, false), p) && r < g.ranks
  {
    Taken(p.tasks[Lead(g)], op) - Taken(p.tasks[r], op)
  }

  /** The collectives `op` that rank `r` is in. */
  function Inside(p: Part, r: nat, op: QueueType): int
    requires r < |p.tasks|
  {
    Taken(p.tasks[r], op) - Finished(p.tasks[r], op)
  }

  /** A rank is called to a collective, in it, or has left it. */
  datatype Kind = Called | Joined | Left

  function Owed(g: Setup, p: Part, r: nat, op: QueueType, kind: Kind): int
    requires Ranked(Config(g.ranks, false), p) && r < g.ranks
  {
    match kind
    case Called => Behind(g, p, r, op)
    case Joined => Inside(p, r, op)
    case Left => Finished(p.tasks[r], op)
  }

  /** The commands name exactly the collectives the rank is behind with, is in, or has left. */
  predicate CommandsOk(g: Setup, parts: map<nat, Part>, cs: seq<Command>, r: nat, kind: Kind)
    requires PartsShaped(g, parts) && r < g.ranks
  {
    && (forall i :: 0 <= i < |cs| ==> (cs[i].Group? || (Collective(cs[i].op) && cs[i].x in parts)))
    && (forall x, op :: x in parts && Collective(op) ==> multiset(cs)[Do(op, x)] == Owed(g, parts[x], r, op, kind))
  }

  predicate PartsOk(g: Setup, parts: map<nat, Part>)
  {
    PartsShaped(g, parts) && forall x :: x in parts ==> PartInv(Cfg(g, x), parts[x])
  }

  predicate ChansOk(g: Setup, s: Machine)
    requires Shaped(g, s)
  {
    forall r: nat {:trigger s.chan[r]} :: r < Lead(g) ==>
      s.posted[r] + s.chan[r] == s.posted[Lead(g)] && CommandsOk(g, s.parts, s.chan[r], r, Called)
  }

  /** What has ended on one rank, every rank has posted. */
  predicate Together(posted: seq<seq<Command>>, ended: seq<nat>)
  {
    forall r, u :: 0 <= r < |ended| && 0 <= u < |posted| ==> ended[r] <= |posted[u]|
  }

  /** What a rank has posted and ended are the collectives it has left, and the rest those it is in. */
  predicate OpenOk(g: Setup, parts: map<nat, Part>, posted: seq<Command>, ended: nat, r: nat)
    requires PartsShaped(g, parts) && r < g.ranks
  {
    && ended <= |posted|
    && CommandsOk(g, parts, posted[ended..], r, Joined) && CommandsOk(g, parts, posted[..ended], r, Left)
  }

  predicate AllOpenOk(g: Setup, s: Machine)
    requires Shaped(g, s)
  {
    forall r: nat {:trigger s.posted[r]} :: r < g.ranks ==> OpenOk(g, s.parts, s.posted[r], s.ended[r], r)
  }

  predicate MachineInv(g: Setup, s: Machine)
  {
    Shaped(g, s) && PartsOk(g, s.parts) && ChansOk(g, s) && Together(s.posted, s.ended) && AllOpenOk(g, s)
  }

  lemma PartSet(g: Setup, parts: map<nat, Part>, x: nat, p: Part)
    requires PartsOk(g, parts) && x in parts && PartInv(Cfg(g, x), p)
    ensures PartsOk(g, parts[x := p])
  {
  }

  /** One partition moves on, and the commands change by as much. */
  lemma CommandsMove(g: Setup, parts: map<nat, Part>, cs: seq<Command>, cs': seq<Command>, r: nat, kind: Kind,
                     x: nat, p: Part)
    requires PartsShaped(g, parts) && r < g.ranks && CommandsOk(g, parts, cs, r, kind)
    requires x in parts && Ranked(Cfg(g, x), p)
    requires forall i :: 0 <= i < |cs'| ==> (cs'[i].Group? || (Collective(cs'[i].op) && cs'[i].x in parts))
    requires forall y, op :: y != x && Collective(op) ==> multiset(cs')[Do(op, y)] == multiset(cs)[Do(op, y)]
    requires forall op :: Collective(op) ==>
               multiset(cs')[Do(op, x)] + Owed(g, parts[x], r, op, kind)
               == multiset(cs)[Do(op, x)] + Owed(g, p, r, op, kind)
    ensures PartsShaped(g, parts[x := p]) && CommandsOk(g, parts[x := p], cs', r, kind)
  {
  }

  /** Commands added at the end of what is posted are open. */
  lemma OpenGrows(posted: seq<Command>, ended: nat, c: Command)
    requires ended <= |posted|
    ensures (posted + [c])[ended..] == posted[ended..] + [c] && (posted + [c])[..ended] == posted[..ended]
  {
  }

  lemma StaysTogether(posted: seq<seq<Command>>, posted': seq<seq<Command>>, ended: seq<nat>)
    requires Together(posted, ended) && |posted| == |posted'|
    requires forall u :: 0 <= u < |posted| ==> |posted[u]| <= |posted'[u]|
    ensures Together(posted', ended)
  {
    forall r, u | 0 <= r < |ended| && 0 <= u < |posted'| ensures ended[r] <= |posted'[u]| {
      assert ended[r] <= |posted[u]| <= |posted'[u]|;
    }
  }

  // ---------------------------------------------------------------------------
  // Rank by rank

  /** A partition moves on elsewhere: rank `r` is in the same collectives as before. */
  lemma OpenElsewhere(g: Setup, parts: map<nat, Part>, posted: seq<Command>, ended: nat, r: nat, x: nat, p: Part)
    requires PartsShaped(g, parts) && r < g.ranks && OpenOk(g, parts, posted, ended, r)
    requires x in parts && Ranked(Cfg(g, x), p)
    requires forall op :: Collective(op) ==> Inside(p, r, op) == Inside(parts[x], r, op)
    requires forall op :: Collective(op) ==> Finished(p.tasks[r], op) == Finished(parts[x].tasks[r], op)
    ensures PartsShaped(g, parts[x := p]) && OpenOk(g, parts[x := p], posted, ended, r)
  {
    CommandsMove(g, parts, posted[..ended], posted[..ended], r, Left, x, p);
    CommandsMove(g, parts, posted[ended..], posted[ended..], r, Joined, x, p);
  }

  /** Rank `r` joins a collective. */
  lemma OpenJoined(g: Setup, parts: map<nat, Part>, posted: seq<Command>, ended: nat, r: nat, x: nat, op: QueueType)
    requires PartsShaped(g, parts) && r < g.ranks && OpenOk(g, parts, posted, ended, r) && x in parts && Collective(op)
    requires parts[x].tasks[r].stage == Some(op) && !parts[x].tasks[r].running
    ensures var p := Take(Cfg(g, x), parts[x], r, op);
            PartsShaped(g, parts[x := p]) && OpenOk(g, parts[x := p], posted + [Do(op, x)], ended, r)
  {
    var p := Take(Cfg(g, x), parts[x], r, op);
    OpenGrows(posted, ended, Do(op, x));
    forall o: QueueType ensures Inside(p, r, o) == Inside(parts[x], r, o) + if o == op then 1 else 0 {
      StartTaken(parts[x].tasks[r], op, o);
    }
    CommandsMove(g, parts, posted[..ended], posted[..ended], r, Left, x, p);
    CommandsMove(g, parts, posted[ended..], posted[ended..] + [Do(op, x)], r, Joined, x, p);
  }

  lemma OpenGroup(g: Setup, parts: map<nat, Part>, posted: seq<Command>, ended: nat, r: nat)
    requires PartsShaped(g, parts) && r < g.ranks && OpenOk(g, parts, posted, ended, r)
    ensures OpenOk(g, parts, posted + [Group], ended, r)
  {
    OpenGrows(posted, ended, Group);
  }

  /** One collective fewer among the open commands. */
  lemma OpenShrinks(g: Setup, parts: map<nat, Part>, open: seq<Command>, r: nat, x: nat, op: QueueType)
    requires PartsOk(g, parts) && r < g.ranks && open != [] && CommandsOk(g, parts, open, r, Joined)
    requires open[0] == Do(op, x) && x in parts && Collective(op)
    requires parts[x].tasks[r].stage == Some(op) && parts[x].tasks[r].running
    ensures var p := Finish(Cfg(g, x), parts[x], r, op);
            PartsShaped(g, parts[x := p]) && CommandsOk(g, parts[x := p], open[1..], r, Joined)
  {
    var p := Finish(Cfg(g, x), parts[x], r, op);
    assert open == [Do(op, x)] + open[1..];
    forall o | Collective(o) ensures Inside(p, r, o) == Inside(parts[x], r, o) - if o == op then 1 else 0 {
      LeaveInside(Cfg(g, x), parts[x], r, op, o);
    }
    CommandsMove(g, parts, open, open[1..], r, Joined, x, p);
  }

  /** One collective more among the ended commands. */
  lemma EndedGrows(g: Setup, parts: map<nat, Part>, done: seq<Command>, r: nat, x: nat, op: QueueType)
    requires PartsOk(g, parts) && r < g.ranks && CommandsOk(g, parts, done, r, Left) && x in parts && Collective(op)
    requires parts[x].tasks[r].stage == Some(op) && parts[x].tasks[r].running
    ensures var p := Finish(Cfg(g, x), parts[x], r, op);
            PartsShaped(g, parts[x := p]) && CommandsOk(g, parts[x := p], done + [Do(op, x)], r, Left)
  {
    var p := Finish(Cfg(g, x), parts[x], r, op);
    forall o | Collective(o) ensures Finished(p.tasks[r], o) == Finished(parts[x].tasks[r], o) + if o == op then 1 else 0 {
      LeaveInside(Cfg(g, x), parts[x], r, op, o);
    }
    CommandsMove(g, parts, done, done + [Do(op, x)], r, Left, x, p);
  }

  /** Rank `r` leaves a collective. */
  lemma OpenLeft(g: Setup, parts: map<nat, Part>, posted: seq<Command>, ended: nat, r: nat, x: nat, op: QueueType)
    requires PartsOk(g, parts) && r < g.ranks && OpenOk(g, parts, posted, ended, r)
    requires ended < |posted| && posted[ended] == Do(op, x) && x in parts && Collective(op)
    requires parts[x].tasks[r].stage == Some(op) && parts[x].tasks[r].running
    ensures var p := Finish(Cfg(g, x), parts[x], r, op);
            PartsShaped(g, parts[x := p]) && OpenOk(g, parts[x := p], posted, ended + 1, r)
  {
    assert posted[ended..][1..] == posted[ended + 1..] && posted[..ended + 1] == posted[..ended] + [Do(op, x)];
    OpenShrinks(g, parts, posted[ended..], r, x, op);
    EndedGrows(g, parts, posted[..ended], r, x, op);
  }

  lemma LeaveInside(c: Config, p: Part, r: nat, q: QueueType, op: QueueType)
    requires PartInv(c, p) && r < c.ranks && p.tasks[r].stage == Some(q) && p.tasks[r].running && Collective(op)
    ensures Inside(Finish(c, p, r, q), r, op) == Inside(p, r, op) - if op == q then 1 else 0
    ensures Finished(Finish(c, p, r, q).tasks[r], op) == Finished(p.tasks[r], op) + if op == q then 1 else 0
  {
    FinishKeepsTaken(r == Root(c), c.compressed, p.tasks[r], q, op);
    FinishCounts(r == Root(c), c.compressed, p.tasks[r], q, op);
  }

  // ---------------------------------------------------------------------------
  // Steps

  lemma TakenLocal(c: Config, p: Part, a: Action, r: nat, op: QueueType)
    requires PartInv(c, p) && r < c.ranks && Collective(op)
    requires Pipeline.Enabled(c, p, a) && !(a.ATake? && Collective(a.q)) && Act(c, p, a).Some?
    ensures Ranked(c, Act(c, p, a).value)
    ensures Taken(Act(c, p, a).value.tasks[r], op) == Taken(p.tasks[r], op)
  {
    if a.r == r {
      var t := p.tasks[r];
      assert TaskOk(r == Root(c), c.compressed, t);
      match a {
        case AFinish(_) => FinishKeepsTaken(r == Root(c), c.compressed, t, t.stage.value, op);
        case ATake(_, q) => StartTaken(t, q, op);
        case _ =>
      }
    }
  }

  lemma InsideLocal(c: Config, p: Part, a: Action, r: nat, op: QueueType)
    requires PartInv(c, p) && r < c.ranks && Collective(op)
    requires Pipeline.Enabled(c, p, a) && !OnCollective(p, a) && Act(c, p, a).Some?
    ensures Ranked(c, Act(c, p, a).value)
    ensures Inside(Act(c, p, a).value, r, op) == Inside(p, r, op)
    ensures Finished(Act(c, p, a).value.tasks[r], op) == Finished(p.tasks[r], op)
  {
    TakenLocal(c, p, a, r, op);
    var t := p.tasks[a.r];
    if a.AFinish? {
      FinishCounts(a.r == Root(c), c.compressed, t, t.stage.value, op);
    }
  }

  /** No action of a rank fails a check, and each keeps the invariant. */
  lemma ActKeeps(c: Config, p: Part, a: Action)
    requires PartInv(c, p) && Pipeline.Enabled(c, p, a)
    ensures Act(c, p, a).Some? && PartInv(c, Act(c, p, a).value)
  {
    var root := a.r == Root(c);
    match a {
      case AEnqueue(r) => if root { RootEnqueueKeeps(c, p); } else { RankEnqueueKeeps(c, p, r); }
      case ATake(r, q) => if root { RootTakeKeeps(c, p, q); } else { RankTakeKeeps(c, p, r, q); }
      case AFinish(r) =>
        var q := p.tasks[r].stage.value;
        if root { RootFinishKeeps(c, p, q); } else { RankFinishKeeps(c, p, r, q); }
      case ASend(r) => SendKeeps(c, p, r);
      case AListen(r, s) => ListenKeeps(c, p, r, s);
      case AListenCopy(r, out) => CopyKeeps(c, p, r, out);
    }
  }

  lemma BootInv(g: Setup)
    requires 1 <= g.ranks
    ensures MachineInv(g, Boot(g))
  {
    var s := Boot(g);
    forall x | x in g.compressed ensures Ranked(Cfg(g, x), s.parts[x]) && PartInv(Cfg(g, x), s.parts[x]) {
      FreshInv(Cfg(g, x));
    }
    forall r: nat, kind | r < g.ranks ensures CommandsOk(g, s.parts, [], r, kind) {
      BootCommands(g, r, kind);
    }
    assert ChansOk(g, s) && AllOpenOk(g, s);
  }

  lemma BootCommands(g: Setup, r: nat, kind: Kind)
    requires PartsShaped(g, Boot(g).parts) && r < g.ranks
    ensures CommandsOk(g, Boot(g).parts, [], r, kind)
  {
  }

  lemma FreshInv(c: Config)
    requires 1 <= c.ranks
    ensures PartInv(c, Fresh(c))
  {
    var p := Fresh(c);
    assert forall r: nat :: r < c.ranks ==> Idle(p.tasks[r]) && Silent(p.up[r], p.down[r]) && |p.got[r]| == 0;
    UntouchedInv(c, p);
  }

  predicate Idle(t: Task)
  {
    t.round == 0 && t.stage.None? && !t.running && t.owes.None?
  }

  predicate Silent(u: Up, d: Down)
  {
    && u.reduce == u.contextPush == u.push == u.bcast == 0
    && d.copyD2HSent == d.contextCopy == d.copyH2DSent == d.copy == 0
  }

  lemma UntouchedRank(root: bool, compressed: bool, m: Task, t: Task, u: Up, d: Down, x: Content, got: seq<Content>)
    requires Idle(m) && Idle(t) && Silent(u, d) && |got| == 0
    ensures TaskOk(root, compressed, t) && PairOk(compressed, m, t, u, d)
    ensures SliceOk(compressed, m, t, x) && GotOk(t, got)
  {
  }

  lemma UntouchedUncounted(compressed: bool, m: Task, t: Task, u: Up, s: Signal)
    requires Idle(m) && Idle(t)
    ensures !Counted(compressed, m, t, u, s) && !Held(compressed, m, s)
  {
  }

  lemma UntouchedInv(c: Config, p: Part)
    requires Ranked(c, p) && p.pushed == [] && forall s :: Count(p.tables, s) == 0
    requires forall r: nat :: r < c.ranks ==> Idle(p.tasks[r]) && Silent(p.up[r], p.down[r]) && |p.got[r]| == 0
    ensures PartInv(c, p)
  {
    var m := p.tasks[Root(c)];
    forall r: nat | r < c.ranks
      ensures TaskOk(r == Root(c), c.compressed, p.tasks[r]) && PairOk(c.compressed, m, p.tasks[r], p.up[r], p.down[r])
      ensures SliceOk(c.compressed, m, p.tasks[r], p.buf[r]) && GotOk(p.tasks[r], p.got[r])
    {
      UntouchedRank(r == Root(c), c.compressed, m, p.tasks[r], p.up[r], p.down[r], p.buf[r], p.got[r]);
    }
    forall s: Signal ensures TableOk(c, p.tasks, p.up, p.tables, s) {
      UntouchedUncounted(c.compressed, m, m, p.up[Root(c)], s);
      forall r: nat | r < Root(c) ensures !Counted(c.compressed, m, p.tasks[r], p.up[r], s) {
        UntouchedUncounted(c.compressed, m, p.tasks[r], p.up[r], s);
      }
      TableEmpty(c, p.tasks, p.up, p.tables, s);
    }
  }

  lemma LocalInv(g: Setup, s: Machine, x: nat, a: Action)
    requires MachineInv(g, s) && Enabled(g, s, Local(x, a))
    ensures Step(g, s, Local(x, a)).Some? && MachineInv(g, Step(g, s, Local(x, a)).value)
  {
    var c, p := Cfg(g, x), s.parts[x];
    ActKeeps(c, p, a);
    var p' := Act(c, p, a).value;
    PartSet(g, s.parts, x, p');
    forall r: nat, op | r < g.ranks && Collective(op) ensures Taken(p'.tasks[r], op) == Taken(p.tasks[r], op) {
      TakenLocal(c, p, a, r, op);
    }
    BehindSame(g, s, x, p');
    forall r: nat | r < g.ranks ensures OpenOk(g, s.parts[x := p'], s.posted[r], s.ended[r], r) {
      forall op | Collective(op)
        ensures Inside(p', r, op) == Inside(p, r, op) && Finished(p'.tasks[r], op) == Finished(p.tasks[r], op)
      {
        InsideLocal(c, p, a, r, op);
      }
      OpenElsewhere(g, s.parts, s.posted[r], s.ended[r], r, x, p');
    }
  }

  /** Where nobody joins a collective, the channels stay right. */
  lemma BehindSame(g: Setup, s: Machine, x: nat, p: Part)
    requires Shaped(g, s) && ChansOk(g, s) && x in s.parts && Ranked(Cfg(g, x), p)
    requires forall r: nat, op :: r < g.ranks && Collective(op) ==> Taken(p.tasks[r], op) == Taken(s.parts[x].tasks[r], op)
    ensures PartsShaped(g, s.parts[x := p]) && ChansOk(g, s.(parts := s.parts[x := p]))
  {
    forall r: nat | r < Lead(g) ensures CommandsOk(g, s.parts[x := p], s.chan[r], r, Called) {
      CommandsMove(g, s.parts, s.chan[r], s.chan[r], r, Called, x, p);
    }
  }

  lemma PostBehind(g: Setup, p: Part, x: nat, r: nat, op: QueueType, o: QueueType)
    requires x in g.compressed && Ranked(Cfg(g, x), p) && r < Lead(g)
    requires p.tasks[Lead(g)].stage == Some(op) && !p.tasks[Lead(g)].running
    ensures Behind(g, Take(Cfg(g, x), p, Lead(g), op), r, o) == Behind(g, p, r, o) + if o == op then 1 else 0
  {
    StartTaken(p.tasks[Lead(g)], op, o);
  }

  lemma PostChans(g: Setup, s: Machine, x: nat, op: QueueType)
    requires Shaped(g, s) && ChansOk(g, s) && x in s.parts && Collective(op)
    requires s.parts[x].tasks[Lead(g)].stage == Some(op) && !s.parts[x].tasks[Lead(g)].running
    ensures var s' := Announce(g, s, Do(op, x)).(parts := s.parts[x := Take(Cfg(g, x), s.parts[x], Lead(g), op)]);
            Shaped(g, s') && ChansOk(g, s')
  {
    var p' := Take(Cfg(g, x), s.parts[x], Lead(g), op);
    forall r: nat | r < Lead(g) ensures CommandsOk(g, s.parts[x := p'], s.chan[r] + [Do(op, x)], r, Called) {
      forall o: QueueType {
        PostBehind(g, s.parts[x], x, r, op, o);
      }
      CommandsMove(g, s.parts, s.chan[r], s.chan[r] + [Do(op, x)], r, Called, x, p');
    }
  }

  /** The root posts a collective: it is in it, nobody else. */
  lemma PostOpen(g: Setup, s: Machine, x: nat, op: QueueType)
    requires Shaped(g, s) && AllOpenOk(g, s) && x in s.parts && Collective(op)
    requires s.parts[x].tasks[Lead(g)].stage == Some(op) && !s.parts[x].tasks[Lead(g)].running
    ensures var s' := Announce(g, s, Do(op, x)).(parts := s.parts[x := Take(Cfg(g, x), s.parts[x], Lead(g), op)]);
            Shaped(g, s') && AllOpenOk(g, s')
  {
    var p' := Take(Cfg(g, x), s.parts[x], Lead(g), op);
    OpenJoined(g, s.parts, s.posted[Lead(g)], s.ended[Lead(g)], Lead(g), x, op);
    forall r: nat | r < Lead(g) ensures OpenOk(g, s.parts[x := p'], s.posted[r], s.ended[r], r) {
      OpenElsewhere(g, s.parts, s.posted[r], s.ended[r], r, x, p');
    }
  }

  lemma PostInv(g: Setup, s: Machine, x: nat, op: QueueType)
    requires MachineInv(g, s) && Enabled(g, s, Post(x, op))
    ensures Step(g, s, Post(x, op)).Some? && MachineInv(g, Step(g, s, Post(x, op)).value)
  {
    PostChans(g, s, x, op);
    PostOpen(g, s, x, op);
    StaysTogether(s.posted, Announce(g, s, Do(op, x)).posted, s.ended);
    RootTakeKeeps(Cfg(g, x), s.parts[x], op);
    PartSet(g, s.parts, x, Take(Cfg(g, x), s.parts[x], Lead(g), op));
  }

  lemma EndGroupInv(g: Setup, s: Machine)
    requires MachineInv(g, s)
    ensures MachineInv(g, Announce(g, s, Group))
  {
    forall r: nat | r < Lead(g) ensures CommandsOk(g, s.parts, s.chan[r] + [Group], r, Called) {
      assert CommandsOk(g, s.parts, s.chan[r], r, Called);
    }
    OpenGroup(g, s.parts, s.posted[Lead(g)], s.ended[Lead(g)], Lead(g));
    StaysTogether(s.posted, Announce(g, s, Group).posted, s.ended);
  }

  /** The task that a command names is always there. */
  lemma LookupFinds(g: Setup, s: Machine, r: nat)
    requires MachineInv(g, s) && r < Lead(g) && s.chan[r] != [] && s.chan[r][0].Do?
    ensures var Do(op, x) := s.chan[r][0];
            && Collective(op) && x in s.parts
            && s.parts[x].tasks[r].stage == Some(op) && !s.parts[x].tasks[r].running
            && 0 < Behind(g, s.parts[x], r, op)
  {
    var Do(op, x) := s.chan[r][0];
    assert CommandsOk(g, s.parts, s.chan[r], r, Called);
    assert s.chan[r][0] in multiset(s.chan[r]);
    BehindWaits(Cfg(g, x), g, s.parts[x], r, op);
  }

  lemma BehindWaits(c: Config, g: Setup, p: Part, r: nat, op: QueueType)
    requires PartInv(c, p) && c.ranks == g.ranks && r < Lead(g) && Collective(op) && 0 < Behind(g, p, r, op)
    ensures p.tasks[r].stage == Some(op) && !p.tasks[r].running
  {
    CommandFindsTask(c.compressed, p.tasks[Lead(g)], p.tasks[r], p.up[r], p.down[r], op);
  }

  lemma ObeyBehind(g: Setup, p: Part, x: nat, r0: nat, r: nat, op: QueueType, o: QueueType)
    requires x in g.compressed && Ranked(Cfg(g, x), p) && r < Lead(g) && r0 < Lead(g)
    requires p.tasks[r0].stage == Some(op) && !p.tasks[r0].running
    ensures Behind(g, Take(Cfg(g, x), p, r0, op), r, o) == Behind(g, p, r, o) - if o == op && r == r0 then 1 else 0
  {
    StartTaken(p.tasks[r0], op, o);
  }

  lemma ObeyChans(g: Setup, s: Machine, r0: nat, x: nat, op: QueueType, r: nat)
    requires Shaped(g, s) && ChansOk(g, s) && r0 < Lead(g) && r < Lead(g) && x in s.parts
    requires s.chan[r0] != [] && s.chan[r0][0] == Do(op, x)
    requires s.parts[x].tasks[r0].stage == Some(op) && !s.parts[x].tasks[r0].running
    ensures var p' := Take(Cfg(g, x), s.parts[x], r0, op);
            PartsShaped(g, s.parts[x := p']) && CommandsOk(g, s.parts[x := p'], Consume(s, r0).chan[r], r, Called)
  {
    var p' := Take(Cfg(g, x), s.parts[x], r0, op);
    var chan' := Consume(s, r0).chan[r];
    assert s.chan[r0] == [Do(op, x)] + s.chan[r0][1..];
    forall o: QueueType {
      ObeyBehind(g, s.parts[x], x, r0, r, op, o);
    }
    CommandsMove(g, s.parts, s.chan[r], chan', r, Called, x, p');
  }

  lemma GroupChans(g: Setup, s: Machine, r0: nat)
    requires Shaped(g, s) && ChansOk(g, s) && r0 < Lead(g) && s.chan[r0] != [] && s.chan[r0][0] == Group
    ensures ChansOk(g, Consume(s, r0))
  {
    assert s.chan[r0] == [Group] + s.chan[r0][1..];
    assert CommandsOk(g, s.parts, s.chan[r0], r0, Called);
  }

  lemma DoChans(g: Setup, s: Machine, r0: nat, x: nat, op: QueueType)
    requires Shaped(g, s) && ChansOk(g, s) && r0 < Lead(g) && x in s.parts
    requires s.chan[r0] != [] && s.chan[r0][0] == Do(op, x)
    requires s.parts[x].tasks[r0].stage == Some(op) && !s.parts[x].tasks[r0].running
    ensures var s' := Consume(s, r0).(parts := s.parts[x := Take(Cfg(g, x), s.parts[x], r0, op)]);
            Shaped(g, s') && ChansOk(g, s')
  {
    var p' := Take(Cfg(g, x), s.parts[x], r0, op);
    assert s.chan[r0] == [Do(op, x)] + s.chan[r0][1..];
    forall r: nat | r < Lead(g)
      ensures PartsShaped(g, s.parts[x := p']) && CommandsOk(g, s.parts[x := p'], Consume(s, r0).chan[r], r, Called)
    {
      ObeyChans(g, s, r0, x, op, r);
    }
  }

  lemma ObeyKeeps(g: Setup, parts: map<nat, Part>, r: nat, x: nat, op: QueueType)
    requires PartsOk(g, parts) && r < Lead(g) && x in parts && Collective(op) && 0 < Behind(g, parts[x], r, op)
    ensures PartsOk(g, parts[x := Take(Cfg(g, x), parts[x], r, op)])
  {
    BehindWaits(Cfg(g, x), g, parts[x], r, op);
    RankTakeKeeps(Cfg(g, x), parts[x], r, op);
    PartSet(g, parts, x, Take(Cfg(g, x), parts[x], r, op));
  }

  /** A rank obeys a command: it is in the collective, for the others nothing changes. */
  lemma DoOpen(g: Setup, s: Machine, r0: nat, x: nat, op: QueueType)
    requires Shaped(g, s) && AllOpenOk(g, s) && r0 < Lead(g) && x in s.parts && Collective(op)
    requires s.chan[r0] != [] && s.chan[r0][0] == Do(op, x)
    requires s.parts[x].tasks[r0].stage == Some(op) && !s.parts[x].tasks[r0].running
    ensures var s' := Consume(s, r0).(parts := s.parts[x := Take(Cfg(g, x), s.parts[x], r0, op)]);
            Shaped(g, s') && AllOpenOk(g, s')
  {
    var p' := Take(Cfg(g, x), s.parts[x], r0, op);
    OpenJoined(g, s.parts, s.posted[r0], s.ended[r0], r0, x, op);
    forall r: nat | r < g.ranks && r != r0 ensures OpenOk(g, s.parts[x := p'], s.posted[r], s.ended[r], r) {
      OpenElsewhere(g, s.parts, s.posted[r], s.ended[r], r, x, p');
    }
  }

  lemma ReceiveInv(g: Setup, s: Machine, r0: nat)
    requires MachineInv(g, s) && Enabled(g, s, Receive(r0))
    ensures Step(g, s, Receive(r0)).Some? && MachineInv(g, Step(g, s, Receive(r0)).value)
  {
    StaysTogether(s.posted, Consume(s, r0).posted, s.ended);
    match s.chan[r0][0] {
      case Group =>
        GroupChans(g, s, r0);
        OpenGroup(g, s.parts, s.posted[r0], s.ended[r0], r0);
      case Do(op, x) =>
        LookupFinds(g, s, r0);
        DoChans(g, s, r0, x, op);
        DoOpen(g, s, r0, x, op);
        ObeyKeeps(g, s.parts, r0, x, op);
    }
  }

  /** The task of a collective that ends is there, and in that collective. */
  lemma SyncFinds(g: Setup, s: Machine, r: nat)
    requires MachineInv(g, s) && r < g.ranks && s.ended[r] < |s.posted[r]| && s.posted[r][s.ended[r]].Do?
    ensures var Do(op, x) := s.posted[r][s.ended[r]];
            && Collective(op) && x in s.parts
            && s.parts[x].tasks[r].stage == Some(op) && s.parts[x].tasks[r].running
  {
    assert OpenOk(g, s.parts, s.posted[r], s.ended[r], r);
    var open := s.posted[r][s.ended[r]..];
    assert open[0] == s.posted[r][s.ended[r]] && open[0] in multiset(open);
    assert CommandsOk(g, s.parts, open, r, Joined);
    var Do(op, x) := open[0];
    assert 0 < Inside(s.parts[x], r, op);
  }

  lemma EndsTogether(posted: seq<seq<Command>>, ended: seq<nat>, r: nat)
    requires Together(posted, ended) && r < |ended| && ClosedFrom(posted, ended[r])
    ensures Together(posted, ended[r := ended[r] + 1])
  {
    var j: nat :| ended[r] <= j && ClosedAt(posted, j);
    var ended' := ended[r := ended[r] + 1];
    forall i, u | 0 <= i < |ended'| && 0 <= u < |posted| ensures ended'[i] <= |posted[u]| {
      assert j < |posted[u]| && ended[i] <= |posted[u]|;
    }
  }

  /** A rank leaves a collective; nobody joins, and for the other ranks nothing changes. */
  lemma SyncTask(g: Setup, s: Machine, r0: nat, x: nat, op: QueueType)
    requires MachineInv(g, s) && r0 < g.ranks && s.ended[r0] < |s.posted[r0]|
    requires s.posted[r0][s.ended[r0]] == Do(op, x) && x in s.parts && Collective(op)
    requires s.parts[x].tasks[r0].stage == Some(op) && s.parts[x].tasks[r0].running
    ensures var p' := Finish(Cfg(g, x), s.parts[x], r0, op);
            && PartsOk(g, s.parts[x := p']) && ChansOk(g, s.(parts := s.parts[x := p']))
            && AllOpenOk(g, s.(parts := s.parts[x := p'], ended := s.ended[r0 := s.ended[r0] + 1]))
  {
    var c, p := Cfg(g, x), s.parts[x];
    var p' := Finish(c, p, r0, op);
    ActKeeps(c, p, AFinish(r0));
    PartSet(g, s.parts, x, p');
    forall r: nat, o | r < g.ranks && Collective(o) ensures Taken(p'.tasks[r], o) == Taken(p.tasks[r], o) {
      TakenLocal(c, p, AFinish(r0), r, o);
    }
    BehindSame(g, s, x, p');
    SyncOpen(g, s, r0, x, op);
  }

  lemma SyncOpen(g: Setup, s: Machine, r0: nat, x: nat, op: QueueType)
    requires Shaped(g, s) && PartsOk(g, s.parts) && AllOpenOk(g, s) && r0 < g.ranks && s.ended[r0] < |s.posted[r0]|
    requires s.posted[r0][s.ended[r0]] == Do(op, x) && x in s.parts && Collective(op)
    requires s.parts[x].tasks[r0].stage == Some(op) && s.parts[x].tasks[r0].running
    ensures var p' := Finish(Cfg(g, x), s.parts[x], r0, op);
            && PartsShaped(g, s.parts[x := p'])
            && AllOpenOk(g, s.(parts := s.parts[x := p'], ended := s.ended[r0 := s.ended[r0] + 1]))
  {
    var p' := Finish(Cfg(g, x), s.parts[x], r0, op);
    OpenLeft(g, s.parts, s.posted[r0], s.ended[r0], r0, x, op);
    forall r: nat | r < g.ranks && r != r0 ensures OpenOk(g, s.parts[x := p'], s.posted[r], s.ended[r], r) {
      OpenElsewhere(g, s.parts, s.posted[r], s.ended[r], r, x, p');
    }
  }

  lemma GroupEnds(g: Setup, parts: map<nat, Part>, posted: seq<Command>, ended: nat, r: nat)
    requires PartsShaped(g, parts) && r < g.ranks && OpenOk(g, parts, posted, ended, r)
    requires ended < |posted| && posted[ended] == Group
    ensures OpenOk(g, parts, posted, ended + 1, r)
  {
    assert posted[ended..] == [Group] + posted[ended + 1..];
    assert posted[..ended + 1] == posted[..ended] + [Group];
  }

  lemma SyncInv(g: Setup, s: Machine, r: nat)
    requires MachineInv(g, s) && Enabled(g, s, Sync(r))
    ensures Step(g, s, Sync(r)).Some? && MachineInv(g, Step(g, s, Sync(r)).value)
  {
    EndsTogether(s.posted, s.ended, r);
    match s.posted[r][s.ended[r]] {
      case Group =>
        assert OpenOk(g, s.parts, s.posted[r], s.ended[r], r);
        GroupEnds(g, s.parts, s.posted[r], s.ended[r], r);
      case Do(op, x) =>
        SyncFinds(g, s, r);
        SyncTask(g, s, r, x, op);
    }
  }

  lemma StepInv(g: Setup, s: Machine, e: Event)
    requires MachineInv(g, s) && Enabled(g, s, e)
    ensures Step(g, s, e).Some? && MachineInv(g, Step(g, s, e).value)
  {
    match e {
      case Local(x, a) => LocalInv(g, s, x, a);
      case Post(x, op) => PostInv(g, s, x, op);
      case EndGroup => EndGroupInv(g, s);
      case Receive(r) => ReceiveInv(g, s, r);
      case Sync(r) => SyncInv(g, s, r);
    }
  }
}
