/** How the partitions of one tensor walk through their stage lists and together fire one callback. */
module TaskLifecycle {
  import opened Stages

  /** Shared by the partitions of one tensor: finished ones, and how often the callback ran. */
  class Counter {
    var finished: nat
    var callbacks: nat

    constructor ()
      ensures finished == 0 && callbacks == 0
    {
      finished, callbacks := 0, 0;
    }
  }

  /** What happens to a task that has finished a stage; `Failed` is a failed check. */
  datatype Outcome = Queued(q: QueueType) | Completed | Failed

  class Task {
    const counter: Counter
    const total: nat
    var list: seq<QueueType>

    constructor (list: seq<QueueType>, counter: Counter, total: nat)
      ensures this.list == list && this.counter == counter && this.total == total
    {
      this.list, this.counter, this.total := list, counter, total;
    }

    /** The current stage leaves the list; the task goes to the next queue, or it is done and counted. */
    method FinishOrProceed() returns (r: Outcome)
      modifies this, counter
      ensures old(list) == [] ==>
                r == Failed && list == [] && counter.finished == old(counter.finished)
                && counter.callbacks == old(counter.callbacks)
      ensures old(list) != [] ==>
                && list == old(list)[1..]
                && r == (if list != [] then Queued(list[0]) else Completed)
                && counter.finished == old(counter.finished) + (if list == [] then 1 else 0)
                && counter.callbacks == old(counter.callbacks)
                                        + if list == [] && old(counter.finished) + 1 == total then 1 else 0
    {
      if |list| < 1 {
        return Failed;
      }
      list := list[1..];
      if |list| > 0 {
        r := Queued(list[0]);
      } else {
        var v := counter.finished;
        counter.finished := v + 1;
        if v == total - 1 {
          counter.callbacks := counter.callbacks + 1;
        }
        r := Completed;
      }
    }
  }

  // ---------------------------------------------------------------------------
  // All partitions of a tensor

  /** Per partition what it has visited and what is left; and the shared counter. */
  datatype Tensor = Tensor(visited: seq<seq<QueueType>>, left: seq<seq<QueueType>>, finished: nat, callbacks: nat)

  function Enqueued(parts: nat, list: seq<QueueType>): Tensor
  {
    Tensor(seq(parts, _ => []), seq(parts, _ => list), 0, 0)
  }

  /** Partition `i` finishes its current stage. */
  function Finish(t: Tensor, i: nat): Tensor
    requires i < |t.left| == |t.visited| && t.left[i] != []
  {
    var last := |t.left[i]| == 1;
    Tensor(t.visited[i := t.visited[i] + [t.left[i][0]]], t.left[i := t.left[i][1..]],
           t.finished + (if last then 1 else 0),
           t.callbacks + if last && t.finished + 1 == |t.left| then 1 else 0)
  }

  predicate IsRun(parts: nat, list: seq<QueueType>, order: seq<nat>, trace: seq<Tensor>)
  {
    && |trace| == |order| + 1 && trace[0] == Enqueued(parts, list)
    && forall k :: 0 <= k < |order| ==>
         && order[k] < |trace[k].left| == |trace[k].visited| && trace[k].left[order[k]] != []
         && trace[k + 1] == Finish(trace[k], order[k])
  }

  function Emptied(left: seq<seq<QueueType>>): nat
  {
    if left == [] then 0 else Emptied(left[..|left| - 1]) + if left[|left| - 1] == [] then 1 else 0
  }

  function Remaining(left: seq<seq<QueueType>>): nat
  {
    if left == [] then 0 else Remaining(left[..|left| - 1]) + |left[|left| - 1]|
  }

  lemma {:induction false} CountUpdate(left: seq<seq<QueueType>>, i: nat, rest: seq<QueueType>)
    requires i < |left|
    ensures Remaining(left[i := rest]) + |left[i]| == Remaining(left) + |rest|
    ensures Emptied(left[i := rest]) + (if left[i] == [] then 1 else 0) == Emptied(left) + if rest == [] then 1 else 0
  {
    var n := |left| - 1;
    if i < n {
      CountUpdate(left[..n], i, rest);
      assert left[i := rest][..n] == left[..n][i := rest];
    } else {
      assert left[i := rest][..n] == left[..n];
    }
  }

  lemma {:induction false} EmptiedAll(left: seq<seq<QueueType>>)
    ensures Emptied(left) <= |left|
    ensures Emptied(left) == |left| <==> forall i :: 0 <= i < |left| ==> left[i] == []
  {
    if left != [] {
      EmptiedAll(left[..|left| - 1]);
    }
  }

  ghost predicate Inv(parts: nat, list: seq<QueueType>, steps: nat, t: Tensor)
  {
    && |t.left| == |t.visited| == parts
    && (forall i :: 0 <= i < parts ==> t.visited[i] + t.left[i] == list)
    && t.finished == Emptied(t.left) && t.callbacks == (if Emptied(t.left) == parts then 1 else 0)
    && Remaining(t.left) + steps == parts * |list|
  }

  lemma {:induction false} StartCounts(parts: nat, list: seq<QueueType>, left: seq<seq<QueueType>>)
    requires |left| == parts && list != [] && forall i :: 0 <= i < parts ==> left[i] == list
    ensures Emptied(left) == 0 && Remaining(left) == parts * |list|
  {
    if parts > 0 {
      StartCounts(parts - 1, list, left[..parts - 1]);
    }
  }

  lemma StepInv(parts: nat, list: seq<QueueType>, steps: nat, t: Tensor, i: nat)
    requires Inv(parts, list, steps, t) && i < parts && t.left[i] != []
    ensures Inv(parts, list, steps + 1, Finish(t, i))
  {
    var rest := t.left[i][1..];
    CountUpdate(t.left, i, rest);
    EmptiedAll(t.left);
    EmptiedAll(t.left[i := rest]);
    assert t.left[i] == [t.left[i][0]] + rest;
    assert t.visited[i] + [t.left[i][0]] + rest == list;
  }

  lemma {:induction false} RunInv(parts: nat, list: seq<QueueType>, order: seq<nat>, trace: seq<Tensor>, k: nat)
    requires IsRun(parts, list, order, trace) && k < |trace| && 0 < parts && list != []
    ensures Inv(parts, list, k, trace[k])
  {
    if k == 0 {
      StartCounts(parts, list, trace[0].left);
    } else {
      RunInv(parts, list, order, trace, k - 1);
      StepInv(parts, list, k - 1, trace[k - 1], order[k - 1]);
    }
  }

  /**
   In every run every partition visits its list in order, one stage less is left after each step, and
   the callback has fired exactly once when all partitions are done and not before.
   */
  lemma CallbackOnce(parts: nat, list: seq<QueueType>, order: seq<nat>, trace: seq<Tensor>, k: nat)
    requires IsRun(parts, list, order, trace) && k < |trace| && 0 < parts && list != []
    ensures var t := trace[k];
            && |t.left| == |t.visited| == parts
            && (forall i :: 0 <= i < parts ==> t.visited[i] + t.left[i] == list)
            && Remaining(t.left) + k == parts * |list|
            && t.callbacks == if forall i :: 0 <= i < parts ==> t.left[i] == [] then 1 else 0
  {
    RunInv(parts, list, order, trace, k);
    EmptiedAll(trace[k].left);
  }
}
