/** Gradient compression that sends the largest coordinates and keeps the rest for the next round. Values are exact. */
module TopK {
  import opened Options
  import opened Sequences

  function Abs(x: real): real
  {
    if x < 0.0 then -x else x
  }

  /** An outcome of sorting the indices by magnitude, largest first. */
  ghost predicate Sorts(order: seq<nat>, e: seq<real>)
  {
    && |order| == |e| && Distinct(order)
    && (forall i :: 0 <= i < |order| ==> order[i] < |e|)
    && (forall i, j :: 0 <= i < j < |order| ==> Abs(e[order[j]]) <= Abs(e[order[i]]))
  }

  /** Indices, then values, then zeros. */
  function Packed(order: seq<nat>, e: seq<real>, k: nat): (res: seq<real>)
    requires 2 * k <= |e| == |order| && forall i :: 0 <= i < |order| ==> order[i] < |e|
    ensures |res| == |e|
  {
    seq(|e|, i requires 0 <= i < |e| =>
          if i < k then order[i] as real else if i < 2 * k then e[order[i - k]] else 0.0)
  }

  /** What stays behind: everything but the coordinates sent. */
  function Kept(order: seq<nat>, e: seq<real>, k: nat): (rest: seq<real>)
    requires k <= |order|
    ensures |rest| == |e|
  {
    seq(|e|, i requires 0 <= i < |e| => if i in order[..k] then 0.0 else e[i])
  }

  /** A float as an index: rounded toward zero. */
  function Truncated(x: real): (i: int)
    ensures 0.0 <= x ==> 0 <= i && i as real <= x < i as real + 1.0
    ensures x <= 0.0 ==> i <= 0 && i as real - 1.0 < x <= i as real
  {
    if x < 0.0 then -(-x).Floor else x.Floor
  }

  function Zeros(d: nat): (z: seq<real>)
    ensures |z| == d && forall i :: 0 <= i < d ==> z[i] == 0.0
  {
    seq(d, _ => 0.0)
  }

  /** The first `n` of the `k` packed coordinates put back into place. */
  function Unpacked(res: seq<real>, k: nat, d: nat, n: nat): (r: Option<seq<real>>)
    requires n <= k && 2 * k <= |res| && (0 < k ==> 0 < d)
    ensures r.Some? ==> |r.value| == d
  {
    if n == 0 then Some(Zeros(d))
    else
      match Unpacked(res, k, d, n - 1)
      case None => None
      case Some(r) =>
        var i := Truncated(res[n - 1]);
        if i < 0 then None else Some(r[(if i < d then i else d - 1) := res[k + n - 1]])
  }

  /** Where entry `j` goes: an index beyond the end is moved to the end. */
  function Target(res: seq<real>, d: nat, j: nat): int
    requires j < |res|
  {
    var i := Truncated(res[j]);
    if i < d then i else d - 1
  }

  /** Place `p` has the value of the last of `n` entries that goes there, and zero if none does. */
  predicate LastWins(res: seq<real>, k: nat, d: nat, n: nat, p: nat, x: real)
    requires n <= k && 2 * k <= |res|
  {
    || ((forall j: nat :: j < n ==> Target(res, d, j) != p) && x == 0.0)
    || (exists j: nat :: j < n && Target(res, d, j) == p && x == res[k + j]
                         && forall l: nat :: j < l < n ==> Target(res, d, l) != p)
  }

  /** Unpacking fails exactly if an index is negative; otherwise in every place the last entry wins. */
  lemma {:induction false} UnpackedMeans(res: seq<real>, k: nat, d: nat, n: nat)
    requires n <= k && 2 * k <= |res| && (0 < k ==> 0 < d)
    ensures Unpacked(res, k, d, n).None? <==> exists j: nat :: j < n && Truncated(res[j]) < 0
    ensures Unpacked(res, k, d, n).Some? ==>
              forall p: nat :: p < d ==> LastWins(res, k, d, n, p, Unpacked(res, k, d, n).value[p])
  {
    if n > 0 {
      UnpackedMeans(res, k, d, n - 1);
      var r := Unpacked(res, k, d, n);
      if r.Some? {
        var before := Unpacked(res, k, d, n - 1).value;
        forall p: nat | p < d ensures LastWins(res, k, d, n, p, r.value[p]) {
          assert LastWins(res, k, d, n - 1, p, before[p]);
          if Target(res, d, n - 1) != p && !(forall j: nat :: j < n - 1 ==> Target(res, d, j) != p) {
            var j: nat :| j < n - 1 && Target(res, d, j) == p && before[p] == res[k + j]
                          && forall l: nat :: j < l < n - 1 ==> Target(res, d, l) != p;
            assert forall l: nat :: j < l < n ==> Target(res, d, l) != p;
          }
        }
      }
    }
  }

  function Plus(a: seq<real>, b: seq<real>): (r: seq<real>)
    requires |a| == |b|
    ensures |r| == |a|
  {
    seq(|a|, i requires 0 <= i < |a| => a[i] + b[i])
  }

  type Errors = map<string, seq<real>>

  /** What earlier calls left of coordinate `i` under a name. */
  function LeftOf(errors: Errors, name: string, i: nat): real
  {
    if name in errors && i < |errors[name]| then errors[name][i] else 0.0
  }

  /** A call of compress, and its result if it did not raise an error; `k` coordinates are to be sent. */
  datatype Call = Call(name: string, tensor: seq<real>, k: nat, res: Option<seq<real>>)

  /** What the receiver gets of coordinate `i` from a call. */
  function Receives(c: Call, i: nat): real
  {
    if c.res.Some? && 2 * c.k <= |c.res.value| && (0 < c.k ==> 0 < |c.tensor|) then
      match Unpacked(c.res.value, c.k, |c.tensor|, c.k)
      case None => 0.0
      case Some(r) => if i < |r| then r[i] else 0.0
    else 0.0
  }

  /** The stored error of the name, if there is one, has the size of the input. */
  predicate SizesFit(errors: Errors, c: Call)
  {
    c.name in errors ==> |errors[c.name]| == |c.tensor|
  }

  /**
   With error feedback a call loses nothing: what the receiver gets and what is stored afterwards are
   the input and what was stored before, coordinate by coordinate. Other names are not touched.
   */
  ghost predicate Conserves(before: Errors, c: Call, after: Errors)
  {
    && (forall n :: n != c.name ==> (n in after <==> n in before) && (n in after ==> after[n] == before[n]))
    && (SizesFit(before, c) ==>
          && c.name in after && |after[c.name]| == |c.tensor|
          && forall i: nat :: i < |c.tensor| ==>
               Receives(c, i) + after[c.name][i] == c.tensor[i] + LeftOf(before, c.name, i))
    && (!SizesFit(before, c) ==> c.res.None? && after == before)
  }

  class TopKCompressor {
    const kp: real
    const ef: bool
    var errors: map<string, seq<real>>

    constructor (kp: real, ef: bool)
      requires 0.0 <= kp
      ensures this.kp == kp && this.ef == ef && errors == map[]
    {
      this.kp, this.ef, errors := kp, ef, map[];
    }

    /** How many coordinates are sent: the configured share, rounded down. */
    function Number(d: nat): (k: nat)
      requires 0.0 <= kp
      ensures k as real <= kp * d as real < k as real + 1.0
      ensures d == 0 ==> k == 0
    {
      assert d == 0 ==> kp * d as real == 0.0;
      (kp * d as real).Floor
    }

    /** The input plus what earlier rounds left, if the sizes fit. */
    function Accumulated(tensor: seq<real>, name: string): Option<seq<real>>
      reads this
    {
      if !ef || name !in errors then Some(tensor)
      else if |errors[name]| == |tensor| then Some(Plus(tensor, errors[name]))
      else None
    }

    /**
     Sends the largest coordinates of the accumulated input and keeps the rest. Sizes that do not fit,
     or more than half of the coordinates, raise an error.
     */
    method Compress(tensor: seq<real>, name: string, idx: seq<nat>) returns (res: Option<seq<real>>)
      requires 0.0 <= kp
      requires Accumulated(tensor, name).Some? ==> Sorts(idx, Accumulated(tensor, name).value)
      modifies this
      ensures var k, c := Number(|tensor|), Call(name, tensor, Number(|tensor|), res);
              && (res.Some? <==> (ef ==> SizesFit(old(errors), c)) && 2 * k <= |tensor|)
              && (ef ==> Conserves(old(errors), c, errors)) && (!ef ==> errors == old(errors))
      ensures res.Some? ==>
                var k := Number(|tensor|);
                && |res.value| == |tensor| == |idx| && (forall i: nat :: i < k ==> idx[i] < |tensor|)
                && (forall i: nat :: i < k ==> res.value[i] == idx[i] as real)
                && (forall i: nat :: i < k ==>
                      res.value[k + i] == tensor[idx[i]] + if ef then LeftOf(old(errors), name, idx[i]) else 0.0)
                && (forall i: nat :: 2 * k <= i < |tensor| ==> res.value[i] == 0.0)
    {
      var d := |tensor|;
      var k := Number(d);
      var acc := Accumulated(tensor, name);
      if acc == None || 2 * k > d {
        if acc.Some? && ef {
          FailureKeepsAll(errors, Call(name, tensor, k, None), acc.value);
          errors := errors[name := acc.value];
        }
        return None;
      }
      var e := acc.value;
      var packed := Pack(idx, e, k);
      if ef {
        var kept := Clear(idx, e, k);
        KeepingConserves(errors, Call(name, tensor, k, Some(packed)), idx, e);
        errors := errors[name := kept];
      }
      res := Some(packed);
    }

    /** Fills the result in place: first the indices, then the values. */
    method Pack(idx: seq<nat>, e: seq<real>, k: nat) returns (res: seq<real>)
      requires 2 * k <= |e| == |idx| && forall i :: 0 <= i < |idx| ==> idx[i] < |e|
      ensures res == Packed(idx, e, k)
    {
      var a := new real[|e|](_ => 0.0);
      for i := 0 to k
        invariant forall j :: 0 <= j < i ==> a[j] == idx[j] as real
        invariant forall j :: i <= j < |e| ==> a[j] == 0.0
      {
        a[i] := idx[i] as real;
      }
      for i := 0 to k
        invariant forall j :: 0 <= j < k ==> a[j] == idx[j] as real
        invariant forall j :: k <= j < k + i ==> a[j] == e[idx[j - k]]
        invariant forall j :: k + i <= j < |e| ==> a[j] == 0.0
      {
        a[k + i] := e[idx[i]];
      }
      res := a[..];
    }

    /** Zeroes in place what was sent. */
    method Clear(idx: seq<nat>, e: seq<real>, k: nat) returns (rest: seq<real>)
      requires k <= |idx| && forall i :: 0 <= i < |idx| ==> idx[i] < |e|
      ensures rest == Kept(idx, e, k)
    {
      var a := new real[|e|](i requires 0 <= i < |e| => e[i]);
      for i := 0 to k
        invariant forall j :: 0 <= j < |e| ==> a[j] == if j in idx[..i] then 0.0 else e[j]
      {
        a[idx[i]] := 0.0;
        assert idx[..i + 1] == idx[..i] + [idx[i]];
      }
      rest := a[..];
    }

    /**
     Puts the coordinates back. A negative index raises an error, and so does an input too short to
     have an index and a value for each of them, unless it is empty.
     */
    method Decompress(res: seq<real>, d: nat) returns (r: Option<seq<real>>)
      requires 0.0 <= kp
      ensures var k := Number(d);
              r == if |res| == 0 then Some(Zeros(d)) else if |res| < 2 * k then None else Unpacked(res, k, d, k)
    {
      var k := Number(d);
      var a := new real[d](_ => 0.0);
      assert a[..] == Zeros(d);
      if |res| == 0 {
        return Some(a[..]);
      }
      if |res| < 2 * k {
        return None;
      }
      var n := 0;
      while n < k
        invariant n <= k && Unpacked(res, k, d, n) == Some(a[..])
      {
        var i := Truncated(res[n]);
        if i < 0 {
          UnpackedFails(res, k, d, n + 1, k);
          return None;
        }
        a[if i < d then i else d - 1] := res[k + n];
        n := n + 1;
      }
      r := Some(a[..]);
    }
  }

  lemma {:induction false} UnpackedFails(res: seq<real>, k: nat, d: nat, n: nat, m: nat)
    requires n <= m <= k && 2 * k <= |res| && (0 < k ==> 0 < d) && Unpacked(res, k, d, n).None?
    ensures Unpacked(res, k, d, m).None?
    decreases m
  {
    if n < m {
      UnpackedFails(res, k, d, n, m - 1);
    }
  }

  // ---------------------------------------------------------------------------
  // What is sent and what is kept

  /** Entry `n` of the packed result is an index, and entry `k + n` its value. */
  lemma PackedEntry(order: seq<nat>, e: seq<real>, k: nat, n: nat)
    requires Sorts(order, e) && 2 * k <= |e| && n < k
    ensures Truncated(Packed(order, e, k)[n]) == order[n] < |e| && Packed(order, e, k)[k + n] == e[order[n]]
  {
    assert (order[n] as real).Floor == order[n];
  }

  /** `r` holds the first `n` coordinates of the order and is zero elsewhere. */
  predicate HoldsSent(order: seq<nat>, e: seq<real>, n: nat, r: seq<real>)
  {
    n <= |order| && |r| == |e| && forall i: nat :: i < |e| ==> r[i] == if i in order[..n] then e[i] else 0.0
  }

  lemma SentNext(order: seq<nat>, n: nat, e: seq<real>, r: seq<real>)
    requires 0 < n <= |order| && order[n - 1] < |e| && HoldsSent(order, e, n - 1, r)
    ensures HoldsSent(order, e, n, r[order[n - 1] := e[order[n - 1]]])
  {
    assert order[..n] == order[..n - 1] + [order[n - 1]];
  }

  /** A packed result: an index and its value per coordinate sent. */
  predicate HoldsEntries(res: seq<real>, order: seq<nat>, e: seq<real>, k: nat)
  {
    && 2 * k <= |res| && k <= |order|
    && forall i: nat :: i < k ==> order[i] < |e| && Truncated(res[i]) == order[i] && res[k + i] == e[order[i]]
  }

  lemma {:induction false} UnpackedEntries(res: seq<real>, order: seq<nat>, e: seq<real>, k: nat, n: nat)
    requires HoldsEntries(res, order, e, k) && n <= k && (0 < k ==> 0 < |e|)
    ensures var r := Unpacked(res, k, |e|, n); r.Some? && HoldsSent(order, e, n, r.value)
  {
    if n > 0 {
      UnpackedEntries(res, order, e, k, n - 1);
      assert Truncated(res[n - 1]) == order[n - 1] && res[k + (n - 1)] == e[order[n - 1]];
      SentNext(order, n, e, Unpacked(res, k, |e|, n - 1).value);
    }
  }

  /** Unpacking gives exactly the coordinates sent. */
  lemma UnpackedIsSent(order: seq<nat>, e: seq<real>, k: nat)
    requires Sorts(order, e) && 2 * k <= |e|
    ensures var r := Unpacked(Packed(order, e, k), k, |e|, k); r.Some? && HoldsSent(order, e, k, r.value)
  {
    forall n: nat | n < k
      ensures Truncated(Packed(order, e, k)[n]) == order[n] < |e| && Packed(order, e, k)[k + n] == e[order[n]]
    {
      PackedEntry(order, e, k, n);
    }
    UnpackedEntries(Packed(order, e, k), order, e, k, k);
  }

  /** Sent and kept together are the accumulated input, coordinate by coordinate. */
  lemma SentPlusKept(order: seq<nat>, e: seq<real>, k: nat, i: nat)
    requires Sorts(order, e) && 2 * k <= |e| && i < |e|
    ensures var r := Unpacked(Packed(order, e, k), k, |e|, k);
            r.Some? && r.value[i] + Kept(order, e, k)[i] == e[i]
  {
    UnpackedIsSent(order, e, k);
  }

  /** Every coordinate sent is at least as large in magnitude as every one kept. */
  lemma SentAreLargest(order: seq<nat>, e: seq<real>, k: nat, sent: nat, kept: nat)
    requires Sorts(order, e) && k <= |order| && sent in order[..k] && kept < |e| && kept !in order[..k]
    ensures Abs(e[kept]) <= Abs(e[sent])
  {
    DistinctBelow(order, |e|);
    var i :| 0 <= i < k && order[..k][i] == sent;
    assert kept in order;
    var j :| 0 <= j < |order| && order[j] == kept;
  }

  /** `e` is the input of a call plus what earlier calls left. */
  predicate Accumulates(before: Errors, c: Call, e: seq<real>)
  {
    |e| == |c.tensor| && forall i: nat :: i < |e| ==> e[i] == c.tensor[i] + LeftOf(before, c.name, i)
  }

  lemma KeepingConserves(before: Errors, c: Call, idx: seq<nat>, e: seq<real>)
    requires SizesFit(before, c) && Accumulates(before, c, e) && Sorts(idx, e) && 2 * c.k <= |e|
    requires c.res == Some(Packed(idx, e, c.k))
    ensures Conserves(before, c, before[c.name := Kept(idx, e, c.k)])
  {
    forall i: nat | i < |e| ensures Receives(c, i) + Kept(idx, e, c.k)[i] == e[i] {
      SentPlusKept(idx, e, c.k, i);
    }
  }

  lemma FailureKeepsAll(before: Errors, c: Call, e: seq<real>)
    requires SizesFit(before, c) && Accumulates(before, c, e) && c.res.None?
    ensures Conserves(before, c, before[c.name := e])
  {
  }

  // ---------------------------------------------------------------------------
  // Runs of calls

  /** Calls on a compressor with error feedback, under any names, from the start; `trace` are the stored errors. */
  ghost predicate IsRun(calls: seq<Call>, trace: seq<Errors>)
  {
    && |trace| == |calls| + 1 && trace[0] == map[]
    && forall n :: 0 <= n < |calls| ==> Conserves(trace[n], calls[n], trace[n + 1])
  }

  /** The inputs of coordinate `i` under a name, added up. */
  function Given(calls: seq<Call>, name: string, i: nat): real
  {
    if calls == [] then 0.0
    else
      var c := calls[|calls| - 1];
      Given(calls[..|calls| - 1], name, i) + if c.name == name && i < |c.tensor| then c.tensor[i] else 0.0
  }

  /** What the receiver got of it. */
  function Gotten(calls: seq<Call>, name: string, i: nat): real
  {
    if calls == [] then 0.0
    else
      var c := calls[|calls| - 1];
      Gotten(calls[..|calls| - 1], name, i) + if c.name == name then Receives(c, i) else 0.0
  }

  /**
   Nothing is lost: whatever other names are compressed in between, and whichever calls raise an
   error, what was received under a name so far plus its stored error is the sum of its inputs.
   */
  lemma {:induction false} ErrorFeedbackConserves(calls: seq<Call>, trace: seq<Errors>, name: string, d: nat, n: nat, i: nat)
    requires IsRun(calls, trace) && n <= |calls| && i < d
    requires forall m :: 0 <= m < n && calls[m].name == name ==> |calls[m].tensor| == d
    ensures name in trace[n] ==> |trace[n][name]| == d
    ensures Gotten(calls[..n], name, i) + LeftOf(trace[n], name, i) == Given(calls[..n], name, i)
  {
    if n > 0 {
      ErrorFeedbackConserves(calls, trace, name, d, n - 1, i);
      assert calls[..n][..n - 1] == calls[..n - 1] && calls[..n][n - 1] == calls[n - 1];
      assert Conserves(trace[n - 1], calls[n - 1], trace[n]);
    }
  }
}
