/** Sums over finite sets and over sequences. */
module Sums {

  ghost function Total(f: nat -> nat, keys: set<nat>): nat
  {
    if keys == {} then 0 else var k :| k in keys; f(k) + Total(f, keys - {k})
  }

  lemma {:induction false} TotalRemove(f: nat -> nat, keys: set<nat>, x: nat)
    requires x in keys
    ensures Total(f, keys) == f(x) + Total(f, keys - {x})
    decreases |keys|
  {
    var k :| k in keys && Total(f, keys) == f(k) + Total(f, keys - {k});
    if k != x {
      TotalRemove(f, keys - {k}, x);
      TotalRemove(f, keys - {x}, k);
      assert keys - {k} - {x} == keys - {x} - {k};
    }
  }

  lemma TotalAdd(f: nat -> nat, keys: set<nat>, x: nat)
    requires x !in keys
    ensures Total(f, keys + {x}) == f(x) + Total(f, keys)
  {
    TotalRemove(f, keys + {x}, x);
    assert keys + {x} - {x} == keys;
  }

  lemma {:induction false} TotalMonotone(f: nat -> nat, a: set<nat>, b: set<nat>)
    requires a <= b
    ensures Total(f, a) <= Total(f, b)
    decreases |b|
  {
    if a != b {
      assert b == a + (b - a);
      var x :| x in b - a;
      TotalRemove(f, b, x);
      TotalMonotone(f, a, b - {x});
    }
  }

  lemma TotalSame(f: nat -> nat, g: nat -> nat, keys: set<nat>)
    requires forall k :: k in keys ==> f(k) == g(k)
    ensures Total(f, keys) == Total(g, keys)
    decreases |keys|
  {
    if keys != {} {
      var x :| x in keys;
      TotalRemove(f, keys, x);
      TotalRemove(g, keys, x);
      TotalSame(f, g, keys - {x});
    }
  }

  lemma {:induction false} NoTotal(f: nat -> nat, keys: set<nat>)
    requires forall k :: k in keys ==> f(k) == 0
    ensures Total(f, keys) == 0
    decreases |keys|
  {
    if keys != {} {
      var x :| x in keys;
      TotalRemove(f, keys, x);
      NoTotal(f, keys - {x});
    }
  }

  function SumOf(ws: seq<nat>): nat
  {
    if ws == [] then 0 else SumOf(ws[..|ws| - 1]) + ws[|ws| - 1]
  }

  /** If one entry drops and every other rises by at most `add`, so does the sum. */
  lemma {:induction false} SumDrops(ws: seq<nat>, ws': seq<nat>, r: nat, drop: nat, add: nat)
    requires |ws| == |ws'| && r < |ws|
    requires forall i :: 0 <= i < |ws| && i != r ==> ws'[i] <= ws[i] + add
    requires ws'[r] + drop <= ws[r]
    ensures SumOf(ws') + drop <= SumOf(ws) + add * (|ws| - 1)
  {
    var n := |ws| - 1;
    if r == n {
      SumRises(ws[..n], ws'[..n], add);
    } else {
      SumDrops(ws[..n], ws'[..n], r, drop, add);
      assert add * n == add * (n - 1) + add;
    }
  }

  lemma {:induction false} SumRises(ws: seq<nat>, ws': seq<nat>, add: nat)
    requires |ws| == |ws'| && forall i :: 0 <= i < |ws| ==> ws'[i] <= ws[i] + add
    ensures SumOf(ws') <= SumOf(ws) + add * |ws|
  {
    if ws != [] {
      var n := |ws| - 1;
      SumRises(ws[..n], ws'[..n], add);
      assert add * |ws| == add * n + add;
    }
  }

  lemma {:induction false} SumUpdate(ws: seq<nat>, r: nat, w: nat)
    requires r < |ws|
    ensures SumOf(ws[r := w]) + ws[r] == SumOf(ws) + w
  {
    var n := |ws| - 1;
    if r < n {
      SumUpdate(ws[..n], r, w);
      assert ws[r := w][..n] == ws[..n][r := w];
    } else {
      assert ws[r := w][..n] == ws[..n];
    }
  }

  lemma {:induction false} AllZero(ws: seq<nat>)
    requires forall i :: 0 <= i < |ws| ==> ws[i] == 0
    ensures SumOf(ws) == 0
  {
    if ws != [] {
      AllZero(ws[..|ws| - 1]);
    }
  }
}
