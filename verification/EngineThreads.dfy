/** Sticky greedy choice of the server's engine thread for a key. */
module EngineThreads {
  import opened Sums

  type Key = nat

  const UINT64_MAX: nat := 0xFFFF_FFFF_FFFF_FFFF
  const WORD: nat := UINT64_MAX + 1

  /** Accumulated load per engine thread, and the thread every known key was given. */
  datatype Threads = Threads(load: seq<nat>, cache: map<Key, nat>)

  /** `Abort` is a failed CHECK: the server process ends. */
  datatype Choice = Chosen(threads: Threads, tid: nat) | Abort

  /** The scan for the first least-loaded thread; it only considers loads below the largest uint64. */
  function LeastLoaded(load: seq<nat>): (r: int)
    ensures -1 <= r < |load|
    ensures r < 0 ==> forall j :: 0 <= j < |load| ==> UINT64_MAX <= load[j]
    ensures 0 <= r ==> load[r] < UINT64_MAX
    ensures 0 <= r ==> forall j :: 0 <= j < |load| ==> load[r] <= load[j]
    ensures 0 <= r ==> forall j :: 0 <= j < r ==> load[r] < load[j]
  {
    if load == [] then -1
    else
      var n := |load| - 1;
      var r := LeastLoaded(load[..n]);
      if load[n] < (if r < 0 then UINT64_MAX else load[r]) then n else r
  }

  function ChooseThread(t: Threads, key: Key, len: nat): (c: Choice)
    ensures c.Abort? <==>
            key !in t.cache && (len == 0 || forall j :: 0 <= j < |t.load| ==> UINT64_MAX <= t.load[j])
    ensures c.Chosen? ==> key in c.threads.cache && c.threads.cache[key] == c.tid
    ensures c.Chosen? ==> |c.threads.load| == |t.load|
    ensures c.Chosen? ==> forall k :: k in t.cache ==> k in c.threads.cache && c.threads.cache[k] == t.cache[k]
    ensures c.Chosen? && key in t.cache ==> c.threads == t
    ensures c.Chosen? && key !in t.cache ==> c.tid < |t.load| && c.threads.cache.Keys == t.cache.Keys + {key}
    ensures c.Chosen? && key !in t.cache ==> forall j :: 0 <= j < |t.load| ==> t.load[c.tid] <= t.load[j]
    ensures c.Chosen? && key !in t.cache ==> forall j :: 0 <= j < c.tid ==> t.load[c.tid] < t.load[j]
    ensures c.Chosen? && key !in t.cache ==>
            && c.threads.load[c.tid] == (t.load[c.tid] + len) % WORD
            && forall j :: 0 <= j < |t.load| && j != c.tid ==> c.threads.load[j] == t.load[j]
  {
    if key in t.cache then Chosen(t, t.cache[key])
    else if len == 0 then Abort
    else
      var i := LeastLoaded(t.load);
      if i < 0 then Abort
      else
        Chosen(Threads(t.load[i := (t.load[i] + len) % WORD], t.cache[key := i]), i)
  }

  /** A new key goes to a least-loaded thread, which gets its length added if that does not wrap around. */
  lemma NewKeyChosen(t: Threads, key: Key, len: nat, bound: nat)
    requires key !in t.cache && 0 < len && 0 < |t.load| && bound + len < UINT64_MAX
    requires forall j :: 0 <= j < |t.load| ==> t.load[j] <= bound
    ensures var c := ChooseThread(t, key, len);
            && c.Chosen? && c.tid < |t.load| && c.threads.cache == t.cache[key := c.tid]
            && c.threads.load == t.load[c.tid := t.load[c.tid] + len]
  {
    assert t.load[0] <= bound;
    var i := LeastLoaded(t.load);
    NoWrap(t.load[i] + len);
  }

  lemma NoWrap(x: nat)
    requires x < UINT64_MAX
    ensures x % WORD == x
  {
  }

  // ---------------------------------------------------------------------------
  // Every request history

  datatype Request = Request(key: Key, len: nat)

  /** The threads after answering `reqs` from idle, as long as no CHECK fails. */
  function Serve(threadNum: nat, reqs: seq<Request>): Choice
  {
    if reqs == [] then Chosen(Threads(seq(threadNum, _ => 0), map[]), 0)
    else
      match Serve(threadNum, reqs[..|reqs| - 1])
      case Abort => Abort
      case Chosen(t, _) => ChooseThread(t, reqs[|reqs| - 1].key, reqs[|reqs| - 1].len)
  }

  /** The length a key was first requested with. */
  function FirstLength(reqs: seq<Request>, key: Key): nat
  {
    if reqs == [] then 0
    else if reqs[0].key == key then reqs[0].len
    else FirstLength(reqs[1..], key)
  }

  function FirstLengths(reqs: seq<Request>): (f: Key -> nat)
  {
    (k: Key) => FirstLength(reqs, k)
  }

  lemma {:induction false} FirstLengthAppend(reqs: seq<Request>, r: Request, key: Key)
    ensures FirstLength(reqs + [r], key) ==
            if exists i :: 0 <= i < |reqs| && reqs[i].key == key then FirstLength(reqs, key)
            else if r.key == key then r.len else 0
  {
    if reqs != [] && reqs[0].key != key {
      FirstLengthAppend(reqs[1..], r, key);
      assert (reqs + [r])[1..] == reqs[1..] + [r];
      if exists i :: 0 <= i < |reqs| && reqs[i].key == key {
        var i :| 0 <= i < |reqs| && reqs[i].key == key;
        assert reqs[1..][i - 1].key == key;
      }
    }
  }

  /** Keys assigned to thread `i`. */
  function AssignedTo(cache: map<Key, nat>, i: nat): set<Key>
  {
    set k | k in cache && cache[k] == i
  }

  /** Exactly the requested keys have a thread. */
  ghost predicate Assigned(threadNum: nat, reqs: seq<Request>, t: Threads)
  {
    && |t.load| == threadNum
    && (forall k :: k in t.cache <==> exists j :: 0 <= j < |reqs| && reqs[j].key == k)
    && (forall k :: k in t.cache ==> t.cache[k] < threadNum)
  }

  /** What the keys of thread `i` weigh together. */
  ghost function Weight(reqs: seq<Request>, t: Threads, i: nat): nat
  {
    Total(FirstLengths(reqs), AssignedTo(t.cache, i))
  }

  /** Every load is what the thread's keys weigh, as far as it fits a uint64. */
  ghost predicate Counted(reqs: seq<Request>, t: Threads)
  {
    forall i :: 0 <= i < |t.load| ==> t.load[i] == Weight(reqs, t, i) % WORD
  }

  /** All lengths ever assigned fit in a uint64 with room for the scan's sentinel. */
  ghost predicate Fits(reqs: seq<Request>)
  {
    Total(FirstLengths(reqs), set j | 0 <= j < |reqs| :: reqs[j].key) < UINT64_MAX
  }

  lemma {:induction false} FitsPrefix(reqs: seq<Request>, r: Request)
    requires Fits(reqs + [r])
    ensures Fits(reqs)
  {
    var all := set j | 0 <= j < |reqs + [r]| :: (reqs + [r])[j].key;
    var old' := set j | 0 <= j < |reqs| :: reqs[j].key;
    forall k | k in old' ensures k in all {
      var j :| 0 <= j < |reqs| && reqs[j].key == k;
      assert (reqs + [r])[j].key == k;
    }
    TotalMonotone(FirstLengths(reqs + [r]), old', all);
    forall k | k in old' ensures FirstLength(reqs + [r], k) == FirstLength(reqs, k) {
      FirstLengthAppend(reqs, r, k);
    }
    TotalSame(FirstLengths(reqs + [r]), FirstLengths(reqs), old');
  }

  lemma WeightFits(reqs: seq<Request>, t: Threads, i: nat)
    requires Assigned(|t.load|, reqs, t) && Fits(reqs)
    ensures Weight(reqs, t, i) < UINT64_MAX
  {
    TotalMonotone(FirstLengths(reqs), AssignedTo(t.cache, i), set j | 0 <= j < |reqs| :: reqs[j].key);
  }

  /** The keys already assigned weigh the same after one more request. */
  lemma WeightKept(reqs: seq<Request>, r: Request, t: Threads, i: nat)
    requires Assigned(|t.load|, reqs, t)
    ensures Weight(reqs + [r], t, i) == Weight(reqs, t, i)
  {
    forall k | k in AssignedTo(t.cache, i) ensures FirstLengths(reqs + [r])(k) == FirstLengths(reqs)(k) {
      FirstLengthAppend(reqs, r, k);
    }
    TotalSame(FirstLengths(reqs + [r]), FirstLengths(reqs), AssignedTo(t.cache, i));
  }

  /** A new key is added to one thread's keys and leaves the others' alone. */
  lemma AssignedAfter(cache: map<Key, nat>, key: Key, tid: nat, i: nat)
    requires key !in cache
    ensures AssignedTo(cache[key := tid], i) == AssignedTo(cache, i) + if i == tid then {key} else {}
  {
  }

  /** A new key weighs its length on the thread it is given. */
  lemma WeightAfter(reqs: seq<Request>, r: Request, t: Threads, c: Choice, i: nat)
    requires Assigned(|t.load|, reqs, t) && c == ChooseThread(t, r.key, r.len) && c.Chosen?
    ensures Weight(reqs + [r], c.threads, i) == Weight(reqs, t, i) + if r.key !in t.cache && i == c.tid then r.len else 0
  {
    WeightKept(reqs, r, t, i);
    if r.key !in t.cache {
      AssignedAfter(t.cache, r.key, c.tid, i);
      if i == c.tid {
        assert FirstLengths(reqs + [r])(r.key) == r.len by { FirstLengthAppend(reqs, r, r.key); }
        TotalAdd(FirstLengths(reqs + [r]), AssignedTo(t.cache, i), r.key);
      } else {
        assert AssignedTo(c.threads.cache, i) == AssignedTo(t.cache, i);
      }
    }
  }

  lemma WrapAdd(a: nat, b: nat)
    ensures (a % WORD + b) % WORD == (a + b) % WORD
  {
  }

  lemma WrapSmall(a: nat)
    ensures a % WORD == a <==> a < WORD
  {
  }

  lemma LoadAfter(t: Threads, key: Key, len: nat, c: Choice, i: nat, weight: nat)
    requires c == ChooseThread(t, key, len) && c.Chosen? && i < |t.load| && t.load[i] == weight % WORD
    ensures c.threads.load[i] == (weight + if key !in t.cache && i == c.tid then len else 0) % WORD
  {
    WrapAdd(weight, len);
  }

  lemma CountedStep(reqs: seq<Request>, r: Request, t: Threads, c: Choice)
    requires Assigned(|t.load|, reqs, t) && Counted(reqs, t) && c == ChooseThread(t, r.key, r.len) && c.Chosen?
    ensures Counted(reqs + [r], c.threads)
  {
    forall i | 0 <= i < |t.load| ensures c.threads.load[i] == Weight(reqs + [r], c.threads, i) % WORD {
      WeightAfter(reqs, r, t, c, i);
      LoadAfter(t, r.key, r.len, c, i, Weight(reqs, t, i));
    }
  }

  lemma AssignedStep(reqs: seq<Request>, r: Request, t: Threads, c: Choice)
    requires Assigned(|t.load|, reqs, t) && c == ChooseThread(t, r.key, r.len) && c.Chosen?
    ensures Assigned(|t.load|, reqs + [r], c.threads)
  {
    var reqs' := reqs + [r];
    forall k ensures k in c.threads.cache <==> exists j :: 0 <= j < |reqs'| && reqs'[j].key == k {
      if k in t.cache {
        var j :| 0 <= j < |reqs| && reqs[j].key == k;
        assert reqs'[j].key == k;
      }
      if k == r.key { assert reqs'[|reqs|].key == k; }
    }
  }

  lemma {:induction false} AllCounted(threadNum: nat, reqs: seq<Request>)
    requires Serve(threadNum, reqs).Chosen?
    ensures Assigned(threadNum, reqs, Serve(threadNum, reqs).threads) && Counted(reqs, Serve(threadNum, reqs).threads)
    decreases |reqs|
  {
    if reqs == [] {
      IdleCounted(threadNum);
    } else {
      var n := |reqs| - 1;
      var before := Serve(threadNum, reqs[..n]).threads;
      assert reqs[..n] + [reqs[n]] == reqs;
      AllCounted(threadNum, reqs[..n]);
      AssignedStep(reqs[..n], reqs[n], before, Serve(threadNum, reqs));
      CountedStep(reqs[..n], reqs[n], before, Serve(threadNum, reqs));
    }
  }

  lemma IdleCounted(threadNum: nat)
    ensures Assigned(threadNum, [], Serve(threadNum, []).threads) && Counted([], Serve(threadNum, []).threads)
  {
    var t := Serve(threadNum, []).threads;
    forall i | 0 <= i < threadNum ensures Weight([], t, i) == 0 {
      assert AssignedTo(t.cache, i) == {};
    }
  }

  /**
   After any history of requests: exactly the requested keys have a thread, and every load is what
   the thread's keys weigh, wrapped around at 2^64. So a load is exact if and only if its keys weigh less.
   */
  lemma LoadsWrap(threadNum: nat, reqs: seq<Request>, i: nat)
    requires Serve(threadNum, reqs).Chosen? && i < threadNum
    ensures var t := Serve(threadNum, reqs).threads;
            && Assigned(threadNum, reqs, t) && t.load[i] == Weight(reqs, t, i) % WORD
            && (t.load[i] == Weight(reqs, t, i) <==> Weight(reqs, t, i) < WORD)
  {
    AllCounted(threadNum, reqs);
    WrapSmall(Weight(reqs, Serve(threadNum, reqs).threads, i));
  }

  /** Two keys that together fill a uint64 leave their thread looking idle. */
  lemma FullThreadLooksIdle()
    ensures var c := Serve(1, [Request(0, UINT64_MAX - 1), Request(1, 2)]);
            c.Chosen? && c.threads.load == [0] && c.threads.cache == map[0 := 0, 1 := 0]
  {
    var reqs := [Request(0, UINT64_MAX - 1), Request(1, 2)];
    assert reqs[..1] == [Request(0, UINT64_MAX - 1)] && reqs[..1][..0] == [];
    assert Serve(1, []).threads.load == [0];
    assert LeastLoaded([0]) == 0;
    assert Serve(1, reqs[..1]).threads.load == [UINT64_MAX - 1];
    assert LeastLoaded([UINT64_MAX - 1]) == 0;
  }

  lemma SpreadStep(t: Threads, r: Request, c: Choice, most: nat)
    requires forall i, j :: 0 <= i < |t.load| && 0 <= j < |t.load| ==> t.load[i] <= t.load[j] + most
    requires c == ChooseThread(t, r.key, r.len) && c.Chosen? && r.len <= most
    requires r.key !in t.cache ==> t.load[c.tid] + r.len < UINT64_MAX
    ensures forall i, j :: 0 <= i < |t.load| && 0 <= j < |t.load| ==> c.threads.load[i] <= c.threads.load[j] + most
  {
    if r.key !in t.cache {
      assert c.threads.load == t.load[c.tid := t.load[c.tid] + r.len];
    }
  }

  predicate PullsUnknownKey(reqs: seq<Request>, j: nat)
  {
    j < |reqs| && reqs[j].len == 0 && forall i :: 0 <= i < j ==> reqs[i].key != reqs[j].key
  }

  lemma UnknownKeyStep(reqs: seq<Request>, r: Request)
    ensures (exists j :: PullsUnknownKey(reqs + [r], j)) <==>
            (exists j :: PullsUnknownKey(reqs, j)) ||
            (r.len == 0 && forall i :: 0 <= i < |reqs| ==> reqs[i].key != r.key)
  {
    var reqs' := reqs + [r];
    assert forall i :: 0 <= i < |reqs| ==> reqs'[i] == reqs[i];
    if j: nat :| PullsUnknownKey(reqs, j) {
      assert PullsUnknownKey(reqs', j);
    } else if r.len == 0 && forall i :: 0 <= i < |reqs| ==> reqs[i].key != r.key {
      assert PullsUnknownKey(reqs', |reqs|);
    } else {
      forall j: nat ensures !PullsUnknownKey(reqs', j) {
        if j < |reqs| { assert !PullsUnknownKey(reqs, j); }
      }
    }
  }

  lemma ExactLoads(threadNum: nat, reqs: seq<Request>)
    requires Serve(threadNum, reqs).Chosen? && Fits(reqs) && 0 < threadNum
    ensures var t := Serve(threadNum, reqs).threads;
            && Assigned(threadNum, reqs, t)
            && forall i :: 0 <= i < threadNum ==> t.load[i] == Weight(reqs, t, i) < UINT64_MAX
  {
    LoadsWrap(threadNum, reqs, 0);
    var t := Serve(threadNum, reqs).threads;
    forall i | 0 <= i < threadNum ensures t.load[i] == Weight(reqs, t, i) < UINT64_MAX {
      LoadsWrap(threadNum, reqs, i);
      WeightFits(reqs, t, i);
    }
  }

  /** The chosen thread's load does not wrap around. */
  lemma ChosenFits(threadNum: nat, reqs: seq<Request>, r: Request)
    requires 0 < threadNum && Fits(reqs + [r]) && Serve(threadNum, reqs).Chosen? && Serve(threadNum, reqs + [r]).Chosen?
    requires Fits(reqs) && r.key !in Serve(threadNum, reqs).threads.cache
    ensures var t, c := Serve(threadNum, reqs).threads, Serve(threadNum, reqs + [r]);
            && c == ChooseThread(t, r.key, r.len) && c.tid < |t.load| && t.load[c.tid] + r.len < UINT64_MAX
  {
    assert (reqs + [r])[..|reqs|] == reqs;
    ExactLoads(threadNum, reqs);
    ExactLoads(threadNum, reqs + [r]);
    var t, c := Serve(threadNum, reqs).threads, Serve(threadNum, reqs + [r]);
    WeightAfter(reqs, r, t, c, c.tid);
  }

  /** As long as all lengths together fit: who aborts, exact loads, and a spread of at most one length. */
  lemma {:induction false} GreedyBalance(threadNum: nat, reqs: seq<Request>, most: nat)
    requires 0 < threadNum && Fits(reqs)
    requires forall j :: 0 <= j < |reqs| ==> reqs[j].len <= most
    ensures Serve(threadNum, reqs).Abort? <==> exists j :: PullsUnknownKey(reqs, j)
    ensures Serve(threadNum, reqs).Chosen? ==>
            var t := Serve(threadNum, reqs).threads;
            && |t.load| == threadNum && (forall i :: 0 <= i < threadNum ==> t.load[i] == Weight(reqs, t, i))
            && (forall i, j :: 0 <= i < threadNum && 0 <= j < threadNum ==> t.load[i] <= t.load[j] + most)
    decreases |reqs|
  {
    if reqs != [] {
      var n := |reqs| - 1;
      var before, r := reqs[..n], reqs[n];
      assert before + [r] == reqs;
      FitsPrefix(before, r);
      GreedyBalance(threadNum, before, most);
      UnknownKeyStep(before, r);
      if Serve(threadNum, before).Chosen? {
        ExactLoads(threadNum, before);
        var t, c := Serve(threadNum, before).threads, Serve(threadNum, reqs);
        if c.Chosen? {
          if r.key !in t.cache { ChosenFits(threadNum, before, r); }
          SpreadStep(t, r, c, most);
        }
      }
    }
    if Serve(threadNum, reqs).Chosen? { ExactLoads(threadNum, reqs); }
  }

  /** A key that is requested for the first time goes to a thread whose keys weigh no more than those of any other. */
  lemma NewKeyToLightest(threadNum: nat, reqs: seq<Request>, r: Request, j: nat)
    requires 0 < threadNum && Fits(reqs) && j < threadNum
    requires Serve(threadNum, reqs).Chosen? && Serve(threadNum, reqs + [r]).Chosen?
    requires forall i :: 0 <= i < |reqs| ==> reqs[i].key != r.key
    ensures var before, c := Serve(threadNum, reqs).threads, Serve(threadNum, reqs + [r]);
            && c.tid < threadNum && Weight(reqs, before, c.tid) <= Weight(reqs, before, j)
            && (j < c.tid ==> Weight(reqs, before, c.tid) < Weight(reqs, before, j))
  {
    assert (reqs + [r])[..|reqs|] == reqs;
    ExactLoads(threadNum, reqs);
  }

  /** A key keeps its thread for ever. */
  lemma {:induction false} Sticky(threadNum: nat, reqs: seq<Request>, more: seq<Request>, key: Key)
    requires Serve(threadNum, reqs).Chosen? && Serve(threadNum, reqs + more).Chosen?
    requires key in Serve(threadNum, reqs).threads.cache
    ensures key in Serve(threadNum, reqs + more).threads.cache
    ensures Serve(threadNum, reqs + more).threads.cache[key] == Serve(threadNum, reqs).threads.cache[key]
    decreases |more|
  {
    if more == [] {
      assert reqs + more == reqs;
    } else {
      var m := |more| - 1;
      assert (reqs + more)[..|reqs + more| - 1] == reqs + more[..m];
      Sticky(threadNum, reqs, more[..m], key);
    }
  }
}
