/** The queue of one stage: tasks by priority, a counting table that opens it, and credits that limit what is under way. */
module ScheduledQueue {
  import opened Options
  import opened Stages

  /** A partition's task: `len` bytes. */
  datatype Entry = Entry(key: nat, priority: int, len: nat)

  // ---------------------------------------------------------------------------
  // Counting table

  class ReadyTable {
    const bound: nat
    var counts: map<nat, nat>

    constructor (bound: nat)
      ensures this.bound == bound && counts == map[]
    {
      this.bound := bound;
      counts := map[];
    }

    /** A key that was never counted has count zero. */
    function Count(key: nat): nat
      reads this
    {
      if key in counts then counts[key] else 0
    }

    predicate IsKeyReady(key: nat)
      reads this
    {
      Count(key) == bound
    }

    /** Counting beyond the bound is a failed check. */
    method AddReadyCount(key: nat) returns (ok: bool)
      modifies this
      ensures ok <==> old(Count(key)) < bound
      ensures Count(key) == old(Count(key)) + if ok then 1 else 0
      ensures forall k :: k != key ==> Count(k) == old(Count(k))
    {
      ok := Count(key) < bound;
      if ok {
        counts := counts[key := Count(key) + 1];
      }
    }

    method SetReadyCount(key: nat, cnt: nat)
      modifies this
      ensures Count(key) == cnt && forall k :: k != key ==> Count(k) == old(Count(k))
    {
      counts := counts[key := cnt];
    }

    method ClearReadyCount(key: nat)
      modifies this
      ensures Count(key) == 0 && forall k :: k != key ==> Count(k) == old(Count(k))
    {
      counts := counts[key := 0];
    }
  }

  // ---------------------------------------------------------------------------
  // Order

  /** Higher priority first; among equals the smaller key. */
  predicate Before(a: Entry, b: Entry)
  {
    if a.priority == b.priority then a.key < b.key else a.priority > b.priority
  }

  predicate Sorted(s: seq<Entry>)
  {
    forall i, j :: 0 <= i < j < |s| ==> !Before(s[j], s[i])
  }

  /** Puts the last entry of an otherwise sorted queue into its place. */
  method Insert(s: seq<Entry>, e: Entry) returns (r: seq<Entry>)
    requires Sorted(s)
    ensures Sorted(r) && multiset(r) == multiset(s + [e])
  {
    var i := |s|;
    while i > 0 && Before(e, s[i - 1])
      invariant 0 <= i <= |s| && forall j :: i <= j < |s| ==> Before(e, s[j])
    {
      i := i - 1;
    }
    r := s[..i] + [e] + s[i..];
    InsertContents(s, e, i);
    InsertSorted(s, e, i);
  }

  lemma InsertContents(s: seq<Entry>, e: Entry, i: nat)
    requires i <= |s|
    ensures multiset(s[..i] + [e] + s[i..]) == multiset(s + [e])
  {
    assert s == s[..i] + s[i..];
  }

  lemma InsertSorted(s: seq<Entry>, e: Entry, i: nat)
    requires Sorted(s) && i <= |s| && (0 < i ==> !Before(e, s[i - 1]))
    requires forall j :: i <= j < |s| ==> Before(e, s[j])
    ensures Sorted(s[..i] + [e] + s[i..])
  {
    forall j | 0 <= j < i ensures !Before(e, s[j]) {
      assert j == i - 1 || !Before(s[i - 1], s[j]);
    }
  }

  // ---------------------------------------------------------------------------
  // What a queue does, as values

  /** `out` are the tasks taken and not yet reported, `done` the reported ones. */
  datatype State = State(sq: seq<Entry>, credits: nat, out: seq<Entry>, done: seq<Entry>)

  /** May be taken: its event has fired, its table is full, and with scheduling its length fits the credits. */
  predicate Eligible(scheduled: bool, credits: nat, open: set<nat>, e: Entry)
  {
    e.key in open && (scheduled ==> e.len <= credits)
  }

  /** The first eligible place, or the length if there is none. */
  function First(scheduled: bool, credits: nat, open: set<nat>, s: seq<Entry>): (i: nat)
    ensures i <= |s| && (i < |s| ==> Eligible(scheduled, credits, open, s[i]))
    ensures forall j :: 0 <= j < i ==> !Eligible(scheduled, credits, open, s[j])
  {
    if s == [] then 0
    else if Eligible(scheduled, credits, open, s[0]) then 0
    else 1 + First(scheduled, credits, open, s[1..])
  }

  function Without(s: seq<Entry>, i: nat): seq<Entry>
    requires i < |s|
  {
    s[..i] + s[i + 1..]
  }

  function Keys(s: seq<Entry>): set<nat>
  {
    set e | e in s :: e.key
  }

  function Total(s: seq<Entry>): nat
  {
    if s == [] then 0 else Total(s[..|s| - 1]) + s[|s| - 1].len
  }

  lemma {:induction false} TotalWithout(s: seq<Entry>, i: nat)
    requires i < |s|
    ensures Total(s) == Total(Without(s, i)) + s[i].len
  {
    var n := |s| - 1;
    if i < n {
      TotalWithout(s[..n], i);
      assert Without(s, i) == Without(s[..n], i) + [s[n]];
    } else {
      assert Without(s, i) == s[..n];
    }
  }

  datatype Action = Add(e: Entry) | Get(open: set<nat>) | Report(j: nat)

  /** One call on the queue. */
  predicate Next(scheduled: bool, s: State, a: Action, s': State)
  {
    match a
    case Add(e) =>
      && s' == s.(sq := s'.sq)
      && (if scheduled then Sorted(s'.sq) && multiset(s'.sq) == multiset(s.sq + [e]) else s'.sq == s.sq + [e])
    case Get(open) => s' == Got(scheduled, s, open)
    case Report(j) =>
      && j < |s.out|
      && s' == State(s.sq, if scheduled then s.credits + s.out[j].len else s.credits, Without(s.out, j),
                     s.done + [s.out[j]])
  }

  function Got(scheduled: bool, s: State, open: set<nat>): State
  {
    var i := First(scheduled, s.credits, open, s.sq);
    if i == |s.sq| then s
    else State(Without(s.sq, i), if scheduled then s.credits - s.sq[i].len else s.credits, s.out + [s.sq[i]], s.done)
  }

  // ---------------------------------------------------------------------------
  // The queue object

  /** The counting tables of a process, as far as it has them. */
  datatype ReadyTables = ReadyTables(
    reduce: ReadyTable?, pcieReduce: ReadyTable?, contextPush: ReadyTable?, push: ReadyTable?,
    copy: ReadyTable?, contextCopy: ReadyTable?, bcast: ReadyTable?)

  /**
   The table that opens a stage. Signal roots, root devices and the CPU reducer's root wait for the
   signals of the others, other ranks for permission to copy.
   */
  function TableOf(q: QueueType, r: Role, cpuRoot: bool, tables: ReadyTables): ReadyTable?
  {
    match q
    case REDUCE => if r.signalRoot then tables.reduce else null
    case PCIE_REDUCE => if r.crossPcie && cpuRoot then tables.pcieReduce else null
    case CONTEXT_PUSH => if r.root then tables.contextPush else null
    case COMPRESS => if r.root then tables.push else null
    case PUSH => if r.root then tables.push else null
    case COPYH2D => if !r.root then tables.copy else null
    case COPYD2H => if !r.root then tables.contextCopy else null
    case BROADCAST => if r.signalRoot then tables.bcast else null
    case _ => null
  }

  class Queue {
    const qt: QueueType
    const scheduled: bool
    const rt: ReadyTable?
    var sq: seq<Entry>
    var credits: nat

    /** Only the leader's REDUCE queue is scheduled, and only when credits are configured. */
    constructor (q: QueueType, r: Role, cpuRoot: bool, tables: ReadyTables, credit: nat, bound: nat)
      ensures qt == q && rt == TableOf(q, r, cpuRoot, tables) && sq == []
      ensures scheduled == (q == REDUCE && r.signalRoot && credit != 0)
      ensures credits == if scheduled then bound * credit else 34359738368
      ensures q == REDUCE ==> rt == if r.signalRoot then tables.reduce else null
      ensures q == BROADCAST ==> rt == if r.signalRoot then tables.bcast else null
      ensures q == PCIE_REDUCE ==> rt == if r.crossPcie && cpuRoot then tables.pcieReduce else null
      ensures q == CONTEXT_PUSH ==> rt == if r.root then tables.contextPush else null
      ensures q == COMPRESS || q == PUSH ==> rt == if r.root then tables.push else null
      ensures q == COPYH2D ==> rt == if r.root then null else tables.copy
      ensures q == COPYD2H ==> rt == if r.root then null else tables.contextCopy
    {
      var s := q == REDUCE && r.signalRoot && credit != 0;
      qt := q;
      scheduled := s;
      rt := TableOf(q, r, cpuRoot, tables);
      sq := [];
      credits := if s then bound * credit else 34359738368;
    }

    predicate Opens(key: nat)
      reads this, rt
    {
      rt != null ==> rt.IsKeyReady(key)
    }

    method AddTask(e: Entry)
      requires scheduled ==> Sorted(sq)
      modifies this`sq
      ensures if scheduled then Sorted(sq) && multiset(sq) == multiset(old(sq) + [e]) else sq == old(sq) + [e]
      ensures scheduled ==> forall i, j :: 0 <= i < j < |sq| ==>
                sq[j].priority < sq[i].priority || (sq[j].priority == sq[i].priority && sq[i].key <= sq[j].key)
    {
      if scheduled {
        sq := Insert(sq, e);
      } else {
        sq := sq + [e];
      }
    }

    /** The keys whose event has fired and whose table is full. */
    ghost function OpenKeys(fired: set<nat>): set<nat>
      reads this, rt
    {
      set e | e in sq && e.key in fired && Opens(e.key) :: e.key
    }

    /** Takes the first eligible task; `fired` are the keys whose device event is done. */
    method GetTask(fired: set<nat>) returns (r: Option<Entry>)
      modifies this, rt
      ensures r.Some? ==>
                && r.value in old(sq) && r.value.key in fired && (scheduled ==> r.value.len <= old(credits))
                && (rt != null ==> old(rt.Count(r.value.key)) == rt.bound)
      ensures r == None ==> forall e :: e in old(sq) ==>
                e.key !in fired || (scheduled && old(credits) < e.len) || (rt != null && old(rt.Count(e.key)) != rt.bound)
      ensures var i := First(scheduled, old(credits), old(OpenKeys(fired)), old(sq));
              if i == |old(sq)| then
                r == None && sq == old(sq) && credits == old(credits)
                && (rt != null ==> forall k :: rt.Count(k) == old(rt.Count(k)))
              else
                && r == Some(old(sq)[i]) && sq == Without(old(sq), i)
                && credits == (if scheduled then old(credits) - old(sq)[i].len else old(credits))
                && (rt != null ==>
                      rt.Count(old(sq)[i].key) == 0
                      && forall k :: k != old(sq)[i].key ==> rt.Count(k) == old(rt.Count(k)))
    {
      ghost var open := OpenKeys(fired);
      var i := 0;
      while i < |sq| && !(sq[i].key in fired && (scheduled ==> sq[i].len <= credits) && Opens(sq[i].key))
        invariant i <= |sq| && forall j :: 0 <= j < i ==> !Eligible(scheduled, credits, open, sq[j])
      {
        i := i + 1;
      }
      FirstAt(scheduled, credits, open, sq, i);
      if i == |sq| {
        return None;
      }
      r := Some(sq[i]);
      if rt != null {
        rt.ClearReadyCount(sq[i].key);
      }
      if scheduled {
        credits := credits - sq[i].len;
      }
      sq := Without(sq, i);
    }

    /**
     Takes the task of a key. A scheduled queue may not be asked, and every task up to the one found
     must have its device event done; otherwise a check fails.
     */
    method GetTaskByKey(key: nat, fired: set<nat>) returns (ok: bool, r: Option<Entry>)
      modifies this`sq
      ensures ok <==> !scheduled && forall i :: 0 <= i < |old(sq)| && key !in Keys(old(sq)[..i]) ==> old(sq)[i].key in fired
      ensures r == None ==> sq == old(sq) && (ok ==> key !in Keys(sq))
      ensures r.Some? ==> ok && exists i :: 0 <= i < |old(sq)| && r == Some(old(sq)[i]) && old(sq)[i].key == key
                                            && sq == Without(old(sq), i) && key !in Keys(old(sq)[..i])
    {
      if scheduled {
        return false, None;
      }
      var i := 0;
      while i < |sq| && sq[i].key in fired && sq[i].key != key
        invariant i <= |sq| && key !in Keys(sq[..i])
        invariant forall j :: 0 <= j < i ==> sq[j].key in fired
      {
        assert sq[..i + 1] == sq[..i] + [sq[i]];
        i := i + 1;
      }
      if i == |sq| {
        assert sq[..i] == sq;
        return true, None;
      }
      if sq[i].key !in fired {
        return false, None;
      }
      assert forall j :: i < j < |sq| ==> sq[..j][i] == sq[i];
      ok, r := true, Some(sq[i]);
      sq := Without(sq, i);
    }

    method ReportFinish(size: nat)
      modifies this`credits
      ensures credits == old(credits) + if scheduled then size else 0
    {
      if scheduled {
        credits := credits + size;
      }
    }

    method Reset(key: nat, cnt: nat)
      modifies rt
      ensures rt != null ==> rt.Count(key) == cnt && forall k :: k != key ==> rt.Count(k) == old(rt.Count(k))
    {
      if rt != null {
        rt.SetReadyCount(key, cnt);
      }
    }
  }

  lemma {:induction false} FirstAt(scheduled: bool, credits: nat, open: set<nat>, s: seq<Entry>, i: nat)
    requires i <= |s| && (i < |s| ==> Eligible(scheduled, credits, open, s[i]))
    requires forall j :: 0 <= j < i ==> !Eligible(scheduled, credits, open, s[j])
    ensures First(scheduled, credits, open, s) == i
  {
    if i > 0 {
      FirstAt(scheduled, credits, open, s[1..], i - 1);
    }
  }

  // ---------------------------------------------------------------------------
  // Runs of a queue

  predicate IsRun(scheduled: bool, credits: nat, actions: seq<Action>, trace: seq<State>)
  {
    && |trace| == |actions| + 1 && trace[0] == State([], credits, [], [])
    && forall i :: 0 <= i < |actions| ==> Next(scheduled, trace[i], actions[i], trace[i + 1])
  }

  /** The tasks put into the queue so far. */
  function Added(actions: seq<Action>): seq<Entry>
  {
    if actions == [] then []
    else
      var n := |actions| - 1;
      Added(actions[..n]) + if actions[n].Add? then [actions[n].e] else []
  }

  ghost predicate Inv(scheduled: bool, credits: nat, added: seq<Entry>, s: State)
  {
    && (scheduled ==> Sorted(s.sq) && s.credits + Total(s.out) == credits)
    && (!scheduled ==> s.credits == credits)
    && multiset(s.sq) + multiset(s.out) + multiset(s.done) == multiset(added)
  }

  lemma WithoutContents(s: seq<Entry>, i: nat)
    requires i < |s|
    ensures multiset(s) == multiset(Without(s, i)) + multiset{s[i]}
    ensures Sorted(s) ==> Sorted(Without(s, i))
  {
    assert s == s[..i] + [s[i]] + s[i + 1..];
  }

  lemma AddInv(scheduled: bool, credits: nat, added: seq<Entry>, s: State, e: Entry, s': State)
    requires Inv(scheduled, credits, added, s) && Next(scheduled, s, Add(e), s')
    ensures Inv(scheduled, credits, added + [e], s')
  {
    assert multiset(s'.sq) == multiset(s.sq) + multiset{e};
    assert multiset(added + [e]) == multiset(added) + multiset{e};
  }

  lemma GetInv(scheduled: bool, credits: nat, added: seq<Entry>, s: State, open: set<nat>)
    requires Inv(scheduled, credits, added, s)
    ensures Inv(scheduled, credits, added, Got(scheduled, s, open))
  {
    var i := First(scheduled, s.credits, open, s.sq);
    if i < |s.sq| {
      var e := s.sq[i];
      WithoutContents(s.sq, i);
      assert multiset(s.out + [e]) == multiset(s.out) + multiset{e};
      assert (s.out + [e])[..|s.out|] == s.out;
    }
  }

  lemma ReportInv(scheduled: bool, credits: nat, added: seq<Entry>, s: State, j: nat, s': State)
    requires Inv(scheduled, credits, added, s) && Next(scheduled, s, Report(j), s')
    ensures Inv(scheduled, credits, added, s')
  {
    WithoutContents(s.out, j);
    TotalWithout(s.out, j);
    assert multiset(s'.done) == multiset(s.done) + multiset{s.out[j]};
  }

  lemma StepInv(scheduled: bool, credits: nat, added: seq<Entry>, s: State, a: Action, s': State)
    requires Inv(scheduled, credits, added, s) && Next(scheduled, s, a, s')
    ensures Inv(scheduled, credits, added + if a.Add? then [a.e] else [], s')
  {
    assert added + [] == added;
    match a {
      case Add(e) => AddInv(scheduled, credits, added, s, e, s');
      case Get(open) => GetInv(scheduled, credits, added, s, open);
      case Report(j) => ReportInv(scheduled, credits, added, s, j, s');
    }
  }

  lemma {:induction false} RunInv(scheduled: bool, credits: nat, actions: seq<Action>, trace: seq<State>, i: nat)
    requires IsRun(scheduled, credits, actions, trace) && i < |trace|
    ensures Inv(scheduled, credits, Added(actions[..i]), trace[i])
  {
    if i > 0 {
      RunInv(scheduled, credits, actions, trace, i - 1);
      assert actions[..i][..i - 1] == actions[..i - 1];
      StepInv(scheduled, credits, Added(actions[..i - 1]), trace[i - 1], actions[i - 1], trace[i]);
    }
  }

  /** Credits and the lengths under way always add up to the credits at the start; no task is lost or doubled. */
  lemma CreditsConserved(scheduled: bool, credits: nat, actions: seq<Action>, trace: seq<State>, i: nat)
    requires IsRun(scheduled, credits, actions, trace) && i < |trace|
    ensures scheduled ==> trace[i].credits + Total(trace[i].out) == credits
    ensures multiset(trace[i].sq) + multiset(trace[i].out) + multiset(trace[i].done) == multiset(Added(actions[..i]))
  {
    RunInv(scheduled, credits, actions, trace, i);
  }

  /** The task taken is eligible, and no other eligible task comes before it by priority and key. */
  lemma TakesFirst(credits: nat, actions: seq<Action>, trace: seq<State>, i: nat, e: Entry)
    requires IsRun(true, credits, actions, trace) && i < |actions| && actions[i].Get?
    requires e in trace[i].sq && e.key in actions[i].open && e.len <= trace[i].credits
    ensures |trace[i + 1].out| == |trace[i].out| + 1
    ensures var taken := trace[i + 1].out[|trace[i].out|];
            && taken in trace[i].sq && taken.key in actions[i].open && taken.len <= trace[i].credits
            && e.priority <= taken.priority && (e.priority == taken.priority ==> taken.key <= e.key)
  {
    RunInv(true, credits, actions, trace, i);
    var s := trace[i];
    var k := First(true, s.credits, actions[i].open, s.sq);
    var j :| 0 <= j < |s.sq| && s.sq[j] == e;
    assert k <= j;
  }

  /**
   With nothing under way the next call grants a task, because no task is longer than the credits:
   one that no open task comes before. So an open task that is first in order is granted itself.
   */
  lemma NoStall(credits: nat, actions: seq<Action>, trace: seq<State>, i: nat, e: Entry)
    requires IsRun(true, credits, actions, trace) && i < |actions| && actions[i].Get?
    requires trace[i].out == [] && e in trace[i].sq && e.key in actions[i].open && e.len <= credits
    ensures |trace[i + 1].out| == 1
    ensures var taken := trace[i + 1].out[0];
            && taken in trace[i].sq && taken.key in actions[i].open && taken.len <= credits
            && e.priority <= taken.priority && (e.priority == taken.priority ==> taken.key <= e.key)
    ensures (forall f :: f in trace[i].sq && f != e && f.key in actions[i].open && f.len <= credits ==>
               f.priority < e.priority || (f.priority == e.priority && e.key < f.key))
            ==> trace[i + 1].out == [e]
  {
    RunInv(true, credits, actions, trace, i);
    TakesFirst(credits, actions, trace, i, e);
  }
}
