/**
 The queues and counting tables of a process as objects, under the barriers of the pipeline: what they
 do to the counts of a partition is what the pipeline's steps do, so what holds there holds for them.
 */
module QueueTables {
  import opened Options
  import opened Stages
  import opened ScheduledQueue
  import Pipeline

  /** The role of rank `r` when all ranks are on one switch and the job is distributed. */
  function RoleOf(c: Pipeline.Config, r: nat): Role
  {
    var root := r == Pipeline.Root(c);
    Role(root, root, true, false)
  }

  /** The tables a process has: who waits for signals counts them, other ranks count permissions to copy. */
  method CreateTables(local: nat, switchSize: nat, switches: nat, r: Role, cpuRoot: bool) returns (t: ReadyTables)
    requires 0 < local && 0 < switchSize && 0 < switches
    ensures if r.root then
              && t.contextPush != null && t.contextPush.bound == local - 1 && t.push != null && t.push.bound == local - 1
              && t.copy == null && t.contextCopy == null
            else
              && t.contextPush == null && t.push == null
              && t.copy != null && t.copy.bound == 1 && t.contextCopy != null && t.contextCopy.bound == 1
    ensures if r.crossPcie && cpuRoot then t.pcieReduce != null && t.pcieReduce.bound == switches - 1
            else t.pcieReduce == null
    ensures if r.signalRoot then
              && t.reduce != null && t.reduce.bound == switchSize - 1 && t.bcast != null && t.bcast.bound == switchSize - 1
            else t.reduce == null && t.bcast == null
    ensures Apart(t) && forall x: ReadyTable? :: x in Objects(t) && x != null ==> x.counts == map[]
  {
    var contextPush: ReadyTable?, push: ReadyTable?, copy: ReadyTable?, contextCopy: ReadyTable? := null, null, null, null;
    if r.root {
      contextPush := new ReadyTable(local - 1);
      push := new ReadyTable(local - 1);
    } else {
      copy := new ReadyTable(1);
      contextCopy := new ReadyTable(1);
    }
    var pcieReduce: ReadyTable? := null;
    if r.crossPcie && cpuRoot {
      pcieReduce := new ReadyTable(switches - 1);
    }
    var reduce: ReadyTable?, bcast: ReadyTable? := null, null;
    if r.signalRoot {
      reduce := new ReadyTable(switchSize - 1);
      bcast := new ReadyTable(switchSize - 1);
    }
    t := ReadyTables(reduce, pcieReduce, contextPush, push, copy, contextCopy, bcast);
  }

  function Objects(t: ReadyTables): set<ReadyTable?>
  {
    {t.reduce, t.pcieReduce, t.contextPush, t.push, t.copy, t.contextCopy, t.bcast}
  }

  /** No two of the tables are the same object. */
  predicate Apart(t: ReadyTables)
  {
    && (t.reduce != null ==> t.reduce !in {t.pcieReduce, t.contextPush, t.push, t.copy, t.contextCopy, t.bcast})
    && (t.pcieReduce != null ==> t.pcieReduce !in {t.contextPush, t.push, t.copy, t.contextCopy, t.bcast})
    && (t.contextPush != null ==> t.contextPush !in {t.push, t.copy, t.contextCopy, t.bcast})
    && (t.push != null ==> t.push !in {t.copy, t.contextCopy, t.bcast})
    && (t.copy != null ==> t.copy !in {t.contextCopy, t.bcast})
    && (t.contextCopy != null ==> t.contextCopy != t.bcast)
  }

  /** The tables of rank `r` hold the counts that the pipeline has for partition `key`. */
  predicate Mirrors(t: ReadyTables, c: Pipeline.Config, p: Pipeline.Part, r: nat, key: nat)
    reads Objects(t)
  {
    && Pipeline.Ranked(c, p) && r < c.ranks && Apart(t)
    && if r == Pipeline.Root(c) then
         && t.reduce != null && t.reduce.bound == c.ranks - 1 && t.reduce.Count(key) == p.tables.reduce
         && t.contextPush != null && t.contextPush.bound == c.ranks - 1 && t.contextPush.Count(key) == p.tables.contextPush
         && t.push != null && t.push.bound == c.ranks - 1 && t.push.Count(key) == p.tables.push
         && t.bcast != null && t.bcast.bound == c.ranks - 1 && t.bcast.Count(key) == p.tables.bcast
       else
         && t.copy != null && t.copy.bound == 1 && t.copy.Count(key) == p.down[r].copy
         && t.contextCopy != null && t.contextCopy.bound == 1 && t.contextCopy.Count(key) == p.down[r].contextCopy
  }

  /** The queue of every stage and rank lets a partition through exactly when the pipeline does. */
  lemma OpensExactly(q: Queue, t: ReadyTables, c: Pipeline.Config, p: Pipeline.Part, r: nat, key: nat)
    requires Mirrors(t, c, p, r, key) && q.rt == TableOf(q.qt, RoleOf(c, r), false, t)
    ensures q.Opens(key) <==> Pipeline.TableReady(c, p, r, q.qt)
  {
  }

  /** The root's listener counts a signal in the table of the stage that waits for it; a full table fails a check. */
  method Hear(t: ReadyTables, s: Pipeline.Signal, key: nat, ghost c: Pipeline.Config, ghost p: Pipeline.Part, ghost from: nat)
    returns (ok: bool)
    requires Pipeline.Ranked(c, p) && Mirrors(t, c, p, Pipeline.Root(c), key)
    requires from < Pipeline.Root(c) && 0 < Pipeline.Pending(p.up[from], s)
    modifies Objects(t)
    ensures ok <==> Pipeline.Listen(c, p, from, s).Some?
    ensures ok ==> Mirrors(t, c, Pipeline.Listen(c, p, from, s).value, Pipeline.Root(c), key)
    ensures forall x: ReadyTable?, k: nat :: x in Objects(t) && x != null && k != key ==> x.Count(k) == old(x.Count(k))
  {
    match s {
      case ReduceReady => ok := t.reduce.AddReadyCount(key);
      case ContextPushReady => ok := t.contextPush.AddReadyCount(key);
      case PushReady => ok := t.push.AddReadyCount(key);
      case BcastReady => ok := t.bcast.AddReadyCount(key);
    }
  }

  /** Another rank's listener counts the permission to copy out or in. */
  method HearCopy(t: ReadyTables, out: bool, key: nat, ghost c: Pipeline.Config, ghost p: Pipeline.Part, ghost r: nat)
    returns (ok: bool)
    requires Mirrors(t, c, p, r, key) && r < Pipeline.Root(c)
    requires 0 < if out then p.down[r].copyD2HSent else p.down[r].copyH2DSent
    modifies Objects(t)
    ensures ok <==> Pipeline.ListenCopy(c, p, r, out).Some?
    ensures ok ==> Mirrors(t, c, Pipeline.ListenCopy(c, p, r, out).value, r, key)
    ensures forall x: ReadyTable?, k: nat :: x in Objects(t) && x != null && k != key ==> x.Count(k) == old(x.Count(k))
  {
    if out {
      ok := t.contextCopy.AddReadyCount(key);
    } else {
      ok := t.copy.AddReadyCount(key);
    }
  }

  /** A stage thread takes a task: the pipeline allows it, and the tables are those after its step. */
  method TakeTask(q: Queue, t: ReadyTables, fired: set<nat>, ghost c: Pipeline.Config, ghost p: Pipeline.Part,
                  ghost r: nat, ghost key: nat)
    returns (e: Option<Entry>)
    requires Mirrors(t, c, p, r, key) && q.rt == TableOf(q.qt, RoleOf(c, r), false, t)
    modifies q, q.rt
    ensures e.Some? && e.value.key == key ==> Pipeline.TableReady(c, p, r, q.qt)
    ensures e.Some? && e.value.key == key ==> Mirrors(t, c, Pipeline.Take(c, p, r, q.qt), r, key)
    ensures !(e.Some? && e.value.key == key) ==> Mirrors(t, c, p, r, key)
  {
    OpensExactly(q, t, c, p, r, key);
    e := q.GetTask(fired);
  }

  /** After compression the root sets the table of its PUSH queue back to full. */
  method RestorePush(q: Queue, t: ReadyTables, key: nat, local: nat, ghost c: Pipeline.Config, ghost p: Pipeline.Part)
    requires Pipeline.Ranked(c, p) && Mirrors(t, c, p, Pipeline.Root(c), key) && local == c.ranks
    requires q.qt == PUSH && q.rt == TableOf(PUSH, RoleOf(c, Pipeline.Root(c)), false, t)
    modifies q.rt
    ensures Mirrors(t, c, Pipeline.Finish(c, p, Pipeline.Root(c), COMPRESS), Pipeline.Root(c), key)
  {
    q.Reset(key, local - 1);
  }
}
