/**
 The aggregation server in synchronous, non-blocking mode with first-in first-out
 engine queues and no compressor: the request handler and the engine threads.
 */
module Aggregation {
  import opened EngineThreads
  import opened Sequences

  type Worker = nat

  /** What the handler queues for an engine thread; `src` is the payload the request keeps alive. */
  datatype Message<+V> =
    | CopyFirst(key: Key, sender: Worker, src: V)
    | SumRecv(key: Key, sender: Worker, src: V)
    | AllRecv(key: Key)

  /** The pull bookkeeping of one key on one engine thread. */
  datatype Flags = Flags(finished: bool, pullCnt: nat, seen: set<Worker>, parked: seq<Worker>)

  /**
   What the server hands to the transport, for the request of one worker on one key. A pull reply
   carries no value: the transport reads the buffer of the key itself, when it sends.
   */
  datatype Output = PushAck(to: Worker, key: Key) | PullReply(to: Worker, key: Key)

  /**
   `stored` holds the keys whose buffer is allocated, with its contents; `merged` the keys whose
   merged buffer aliases the stored one, which is the case once a round has completed.
   */
  datatype Server<V> = Server(
    stored: map<Key, V>,
    requests: map<Key, seq<Worker>>,
    merged: set<Key>,
    flags: map<(nat, Key), Flags>,
    queues: seq<seq<Message<V>>>,
    threads: Threads)

  /** `Crash` is a failed CHECK. */
  datatype Outcome<V> = Handled(server: Server<V>, out: seq<Output>) | Crash

  const NO_FLAGS := Flags(false, 0, {}, [])

  function FlagsAt(flags: map<(nat, Key), Flags>, t: nat, x: Key): Flags
  {
    if (t, x) in flags then flags[(t, x)] else NO_FLAGS
  }

  function RequestsAt(requests: map<Key, seq<Worker>>, x: Key): seq<Worker>
  {
    if x in requests then requests[x] else []
  }

  function Acks(to: seq<Worker>, x: Key): (out: seq<Output>)
    ensures |out| == |to| && forall i :: 0 <= i < |to| ==> out[i] == PushAck(to[i], x)
  {
    seq(|to|, i requires 0 <= i < |to| => PushAck(to[i], x))
  }

  function Replies(to: seq<Worker>, x: Key): (out: seq<Output>)
    ensures |out| == |to| && forall i :: 0 <= i < |to| ==> out[i] == PullReply(to[i], x)
  {
    seq(|to|, i requires 0 <= i < |to| => PullReply(to[i], x))
  }

  lemma RepliesConcat(a: seq<Worker>, b: seq<Worker>, x: Key)
    ensures Replies(a + b, x) == Replies(a, x) + Replies(b, x)
  {
  }

  function Enqueue<V>(queues: seq<seq<Message<V>>>, t: nat, m: Message<V>): seq<seq<Message<V>>>
    requires t < |queues|
  {
    queues[t := queues[t] + [m]]
  }

  /** All pulls of the round are answered: the flags start over, parked pulls stay. */
  function ResetIfComplete(n: nat, f: Flags): Flags
  {
    if f.pullCnt == n then Flags(false, 0, {}, f.parked) else f
  }

  function Answer(f: Flags, w: Worker): Flags
  {
    f.(pullCnt := f.pullCnt + 1, seen := f.seen + {w})
  }

  function HandlePush<V>(n: nat, s: Server<V>, w: Worker, x: Key, v: V, len: nat): Outcome<V>
  {
    var reqs := RequestsAt(s.requests, x) + [w];
    if x !in s.stored then
      if |reqs| < n then Handled(s.(requests := s.requests[x := reqs]), [])
      else Handled(s.(stored := s.stored[x := v], requests := s.requests[x := []]), Acks(reqs, x))
    else
      match ChooseThread(s.threads, x, len)
      case Abort => Crash
      case Chosen(threads, t) =>
        if |s.queues| <= t then Crash
        else
          var m := if |reqs| == 1 then CopyFirst(x, w, v) else SumRecv(x, w, v);
          var queues := Enqueue(s.queues, t, m);
          if |reqs| == n then
            Handled(s.(threads := threads, queues := Enqueue(queues, t, AllRecv(x)),
                       requests := s.requests[x := []]),
                    [PushAck(w, x)])
          else
            Handled(s.(threads := threads, queues := queues, requests := s.requests[x := reqs]), [PushAck(w, x)])
  }

  function HandlePull<V>(n: nat, s: Server<V>, w: Worker, x: Key): Outcome<V>
  {
    if x !in s.stored then Crash
    else
      match ChooseThread(s.threads, x, 0)
      case Abort => Crash
      case Chosen(threads, t) =>
        var f := FlagsAt(s.flags, t, x);
        if f.finished && w !in f.seen then
          if x !in s.merged then Crash
          else
            Handled(s.(flags := s.flags[(t, x) := ResetIfComplete(n, Answer(f, w))]),
                    [PullReply(w, x)])
        else
          Handled(s.(flags := s.flags[(t, x) := f.(parked := f.parked + [w])]), [])
  }

  /** One visit of the walk over the parked pulls: who is answered, where it goes on, whether it stops. */
  datatype Visited = Visited(flags: Flags, to: seq<Worker>, next: nat, complete: bool)

  function Visit(n: nat, f: Flags, i: nat): Visited
    requires i < |f.parked|
  {
    var w := f.parked[i];
    if w !in f.seen then
      var f1 := Answer(f, w).(parked := f.parked[..i] + f.parked[i + 1..]);
      Visited(ResetIfComplete(n, f1), [w], i, f1.pullCnt == n)
    else
      Visited(ResetIfComplete(n, f), [], i + 1, f.pullCnt == n)
  }

  datatype Drained = Drained(flags: Flags, to: seq<Worker>)

  /** The walk over the parked pulls from position `i`: the flags it leaves and the senders it answers. */
  function Drain(n: nat, f: Flags, i: nat): Drained
    requires i <= |f.parked|
    decreases |f.parked| - i
  {
    if i == |f.parked| then Drained(f, [])
    else
      var v := Visit(n, f, i);
      if v.complete then Drained(v.flags, v.to)
      else var d := Drain(n, v.flags, v.next); Drained(d.flags, v.to + d.to)
  }

  ghost function After(to: seq<Worker>, d: Drained): Drained
  {
    Drained(d.flags, to + d.to)
  }

  lemma DrainVisit(n: nat, f: Flags, i: nat, to: seq<Worker>)
    requires i < |f.parked|
    ensures var v := Visit(n, f, i);
            After(to, Drain(n, f, i)) ==
            After(to + v.to, if v.complete then Drained(v.flags, []) else Drain(n, v.flags, v.next))
  {
    var v := Visit(n, f, i);
    if v.complete {
      assert to + v.to == to + v.to + [];
    } else {
      var d := Drain(n, v.flags, v.next);
      assert to + (v.to + d.to) == to + v.to + d.to;
    }
  }

  /** The walk from `start` has answered `to` and is at place `it` with flags `f`. */
  ghost predicate Walked(n: nat, start: Flags, f: Flags, it: nat, to: seq<Worker>, complete: bool)
  {
    it <= |f.parked| && Drain(n, start, 0) == After(to, if complete then Drained(f, []) else Drain(n, f, it))
  }

  lemma WalkStep(n: nat, start: Flags, f: Flags, it: nat, to: seq<Worker>)
    requires Walked(n, start, f, it, to, false) && it < |f.parked|
    ensures var v := Visit(n, f, it);
            v.next <= |v.flags.parked| && Walked(n, start, v.flags, v.next, to + v.to, v.complete)
  {
    DrainVisit(n, f, it, to);
  }

  lemma WalkEnd(n: nat, start: Flags, f: Flags, it: nat, to: seq<Worker>, complete: bool)
    requires Walked(n, start, f, it, to, complete) && (complete || it == |f.parked|)
    ensures Drain(n, start, 0) == Drained(f, to)
  {
    assert to + [] == to;
  }

  /** One turn of engine thread `i`: pop the front message and apply it. */
  function EngineTurn<V>(n: nat, add: (V, V) -> V, s: Server<V>, i: nat): Outcome<V>
    requires i < |s.queues| && s.queues[i] != []
  {
    var m := s.queues[i][0];
    var s1 := s.(queues := s.queues[i := s.queues[i][1..]]);
    if m.key !in s.stored then Crash
    else
      match m
      case CopyFirst(x, _, v) => Handled(s1.(stored := s.stored[x := v]), [])
      case SumRecv(x, _, v) => Handled(s1.(stored := s.stored[x := add(s.stored[x], v)]), [])
      case AllRecv(x) =>
        var d := Drain(n, FlagsAt(s.flags, i, x).(finished := true), 0);
        Handled(s1.(merged := s.merged + {x}, flags := s.flags[(i, x) := d.flags]), Replies(d.to, x))
  }

  function Boot<V>(threadNum: nat): Server<V>
  {
    Server(map[], map[], {}, map[], seq(threadNum, _ => []), Threads(seq(threadNum, _ => 0), map[]))
  }

  lemma FirstVisit(n: nat, f: Flags)
    requires f.parked != [] && f.parked[0] !in f.seen
    ensures var rest := Flags(f.finished, f.pullCnt + 1, f.seen + {f.parked[0]}, f.parked[1..]);
            Visit(n, f, 0) == Visited(ResetIfComplete(n, rest), [f.parked[0]], 0, f.pullCnt + 1 == n)
  {
    assert f.parked[..0] + f.parked[1..] == f.parked[1..];
  }

  lemma HeadApart(parked: seq<Worker>, seen: set<Worker>)
    requires parked != [] && Distinct(parked) && seen !! Elems(parked)
    ensures parked[0] !in seen && Distinct(parked[1..]) && (seen + {parked[0]}) !! Elems(parked[1..])
    ensures seen + {parked[0]} + Elems(parked[1..]) == seen + Elems(parked)
    ensures [parked[0]] + parked[1..] == parked
  {
    DistinctTail(parked);
    assert parked == [parked[0]] + parked[1..];
    assert Elems(parked) == {parked[0]} + Elems(parked[1..]);
  }

  /**
   What the walk achieves when the parked senders are distinct and none was answered yet: everybody
   parked is answered, in order, and the flags start over exactly when that completes the round.
   */
  lemma {:induction false} DrainAnswersAll(n: nat, f: Flags)
    requires f.pullCnt + |f.parked| <= n && f.pullCnt < n
    requires Distinct(f.parked) && f.seen !! Elems(f.parked)
    ensures Drain(n, f, 0).to == f.parked
    ensures Drain(n, f, 0).flags ==
            if f.pullCnt + |f.parked| == n then NO_FLAGS
            else Flags(f.finished, f.pullCnt + |f.parked|, f.seen + Elems(f.parked), [])
    decreases |f.parked|
  {
    if f.parked == [] {
      assert f.seen + Elems([]) == f.seen;
    } else {
      HeadApart(f.parked, f.seen);
      FirstVisit(n, f);
      if f.pullCnt + 1 < n {
        DrainAnswersAll(n, Visit(n, f, 0).flags);
      }
    }
  }

  // ---------------------------------------------------------------------------
  // The server as it runs

  class ParameterServer<V(==)> {
    const workerNum: nat
    const threadNum: nat
    var stored: map<Key, V>
    var requests: map<Key, seq<Worker>>
    var merged: set<Key>
    var flags: map<(nat, Key), Flags>
    var queues: seq<seq<Message<V>>>
    var accLoad: seq<nat>
    var hashCache: map<Key, nat>
    var sent: seq<Output>

    function State(): Server<V>
      reads this
    {
      Server(stored, requests, merged, flags, queues, Threads(accLoad, hashCache))
    }

    constructor (workers: nat, threads: nat)
      ensures workerNum == workers && threadNum == threads
      ensures State() == Boot(threads) && sent == []
    {
      workerNum, threadNum := workers, threads;
      stored, requests, merged, flags := map[], map[], {}, map[];
      queues, accLoad, hashCache := seq(threads, _ => []), seq(threads, _ => 0), map[];
      sent := [];
    }

    method GetThreadID(key: Key, len: nat) returns (ok: bool, tid: nat)
      modifies `accLoad, `hashCache
      ensures var c := ChooseThread(old(Threads(accLoad, hashCache)), key, len);
              if ok then c == Chosen(Threads(accLoad, hashCache), tid)
              else c.Abort? && unchanged(this)
    {
      if key in hashCache { return true, hashCache[key]; }
      if len == 0 { return false, 0; }
      var minIndex, minLoad := -1, UINT64_MAX;
      for i := 0 to |accLoad|
        invariant minIndex == LeastLoaded(accLoad[..i])
        invariant minLoad == if minIndex < 0 then UINT64_MAX else accLoad[minIndex]
      {
        assert accLoad[..i + 1][..i] == accLoad[..i];
        if accLoad[i] < minLoad { minIndex, minLoad := i, accLoad[i]; }
      }
      assert accLoad[..|accLoad|] == accLoad;
      if minIndex < 0 { return false, 0; }
      accLoad := accLoad[minIndex := (accLoad[minIndex] + len) % WORD];
      hashCache := hashCache[key := minIndex];
      return true, minIndex;
    }

    method SendPushResponses(to: seq<Worker>, x: Key)
      modifies `sent
      ensures sent == old(sent) + Acks(to, x)
    {
      for i := 0 to |to|
        invariant sent == old(sent) + Acks(to[..i], x)
      {
        assert to[..i + 1][..i] == to[..i];
        sent := sent + [PushAck(to[i], x)];
      }
      assert to[..|to|] == to;
    }

    method Push(w: Worker, x: Key, v: V, len: nat) returns (ok: bool)
      modifies this
      ensures var r := HandlePush(workerNum, old(State()), w, x, v, len);
              if ok then r.Handled? && r.server == State() && sent == old(sent) + r.out
              else r.Crash?
    {
      if x !in stored {
        InitPush(w, x, v);
        ok := true;
      } else {
        ok := RoundPush(w, x, v, len);
      }
    }

    method InitPush(w: Worker, x: Key, v: V)
      requires x !in stored
      modifies `stored, `requests, `sent
      ensures var r := HandlePush(workerNum, old(State()), w, x, v, 0);
              r.server == State() && sent == old(sent) + r.out
    {
      var reqs := RequestsAt(requests, x) + [w];
      requests := requests[x := reqs];
      if |reqs| < workerNum { return; }
      stored := stored[x := v];
      SendPushResponses(reqs, x);
      requests := requests[x := []];
    }

    method RoundPush(w: Worker, x: Key, v: V, len: nat) returns (ok: bool)
      requires x in stored
      modifies `requests, `queues, `accLoad, `hashCache, `sent
      ensures var r := HandlePush(workerNum, old(State()), w, x, v, len);
              if ok then r.Handled? && r.server == State() && sent == old(sent) + r.out
              else r.Crash?
    {
      var reqs := RequestsAt(requests, x);
      var tid;
      ok, tid := GetThreadID(x, len);
      if !ok || |queues| <= tid { return false; }
      if reqs == [] {
        queues := Enqueue(queues, tid, CopyFirst(x, w, v));
      } else {
        queues := Enqueue(queues, tid, SumRecv(x, w, v));
      }
      reqs := reqs + [w];
      sent := sent + [PushAck(w, x)];
      if |reqs| == workerNum {
        queues := Enqueue(queues, tid, AllRecv(x));
        reqs := [];
      }
      requests := requests[x := reqs];
    }

    method Pull(w: Worker, x: Key) returns (ok: bool)
      modifies this
      ensures var r := HandlePull(workerNum, old(State()), w, x);
              if ok then r.Handled? && r.server == State() && sent == old(sent) + r.out
              else r.Crash?
    {
      if x !in stored { return false; }
      var tid;
      ok, tid := GetThreadID(x, 0);
      if !ok { return; }
      var f := FlagsAt(flags, tid, x);
      if f.finished && w !in f.seen {
        if x !in merged { return false; }
        sent := sent + [PullReply(w, x)];
        f := f.(pullCnt := f.pullCnt + 1, seen := f.seen + {w});
        if f.pullCnt == workerNum {
          f := f.(finished := false, pullCnt := 0, seen := {});
        }
      } else {
        f := f.(parked := f.parked + [w]);
      }
      flags := flags[(tid, x) := f];
    }

    method Engine(add: (V, V) -> V, i: nat) returns (ok: bool)
      requires i < |queues| && queues[i] != []
      modifies this
      ensures var r := EngineTurn(workerNum, add, old(State()), i);
              if ok then r.Handled? && r.server == State() && sent == old(sent) + r.out
              else r.Crash?
    {
      var m := queues[i][0];
      queues := queues[i := queues[i][1..]];
      if m.key !in stored { return false; }
      match m {
        case CopyFirst(x, _, v) => stored := stored[x := v];
        case SumRecv(x, _, v) => stored := stored[x := add(stored[x], v)];
        case AllRecv(x) => AllReceived(i, x);
      }
      return true;
    }

    method AllReceived(i: nat, x: Key)
      modifies `merged, `flags, `sent
      ensures merged == old(merged) + {x}
      ensures var d := Drain(workerNum, FlagsAt(old(flags), i, x).(finished := true), 0);
              flags == old(flags)[(i, x) := d.flags] && sent == old(sent) + Replies(d.to, x)
    {
      merged := merged + {x};
      var f := DrainParked(FlagsAt(flags, i, x).(finished := true), x);
      flags := flags[(i, x) := f];
    }

    method DrainParked(start: Flags, x: Key) returns (f: Flags)
      modifies `sent
      ensures var d := Drain(workerNum, start, 0);
              f == d.flags && sent == old(sent) + Replies(d.to, x)
    {
      f := start;
      ghost var to: seq<Worker> := [];
      var it: nat, complete := 0, false;
      while it < |f.parked| && !complete
        invariant it <= |f.parked|
        invariant sent == old(sent) + Replies(to, x)
        invariant Walked(workerNum, start, f, it, to, complete)
        decreases if complete then 0 else 1 + |f.parked| - it
      {
        ghost var v := Visit(workerNum, f, it);
        WalkStep(workerNum, start, f, it, to);
        RepliesConcat(to, v.to, x);
        f, it, complete := VisitParked(f, it, x);
        to := to + v.to;
      }
      WalkEnd(workerNum, start, f, it, to, complete);
    }

    method VisitParked(f: Flags, it: nat, x: Key) returns (f': Flags, it': nat, complete: bool)
      requires it < |f.parked|
      modifies `sent
      ensures var v := Visit(workerNum, f, it);
              v == Visited(f', v.to, it', complete) && sent == old(sent) + Replies(v.to, x)
    {
      var w := f.parked[it];
      f', it', complete := f, it, false;
      if w !in f.seen {
        sent := sent + [PullReply(w, x)];
        f' := f.(pullCnt := f.pullCnt + 1, seen := f.seen + {w}, parked := f.parked[..it] + f.parked[it + 1..]);
      } else {
        it' := it + 1;
      }
      if f'.pullCnt == workerNum {
        f' := f'.(finished := false, pullCnt := 0, seen := {});
        complete := true;
      }
    }
  }
}
