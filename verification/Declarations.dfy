/** Keys of declared tensors, and how they survive suspending and resuming. */
module Declarations {
  import opened Sequences

  type Name = string

  /** The names that have a key, in the order of their keys, after one more is asked for. */
  function Declare(order: seq<Name>, name: Name): seq<Name>
  {
    if name in order then order else order + [name]
  }

  function DeclareAll(order: seq<Name>, names: seq<Name>): seq<Name>
  {
    if names == [] then order
    else Declare(DeclareAll(order, names[..|names| - 1]), names[|names| - 1])
  }

  /** The keys number the names in this order. */
  ghost predicate Numbers(keys: map<Name, nat>, order: seq<Name>)
  {
    && Distinct(order) && keys.Keys == Elems(order)
    && forall i :: 0 <= i < |order| ==> order[i] in keys && keys[order[i]] == i
  }

  lemma NumberNext(keys: map<Name, nat>, order: seq<Name>, name: Name)
    requires Numbers(keys, order) && name !in keys
    ensures Numbers(keys[name := |order|], order + [name])
  {
    DistinctSnoc(order, name);
    assert Elems(order + [name]) == Elems(order) + {name};
    forall i | 0 <= i < |order| ensures order[i] != name {
      assert order[i] in Elems(order);
    }
  }

  class Global {
    /** Every name ever declared, kept over a shutdown. */
    var declared: seq<Name>
    var keys: map<Name, nat>
    var nextKey: nat
    /** The names that have a key, in the order of their keys. */
    ghost var order: seq<Name>

    ghost predicate Valid()
      reads this
    {
      && nextKey == |order| && Numbers(keys, order)
      && Distinct(declared) && Elems(order) <= Elems(declared)
    }

    constructor ()
      ensures Valid() && order == [] && declared == []
    {
      declared, keys, nextKey, order := [], map[], 0, [];
    }

    /** Gives a new name the next key. */
    method IsTensorDeclared(name: Name) returns (known: bool)
      requires Valid()
      modifies this
      ensures Valid() && known == (name in old(keys))
      ensures order == Declare(old(order), name) && declared == Declare(old(declared), name)
      ensures keys == if known then old(keys) else old(keys)[name := old(nextKey)]
      ensures declared == if name in old(declared) then old(declared) else old(declared) + [name]
    {
      known := true;
      if name !in keys {
        if name !in declared {
          DistinctSnoc(declared, name);
          declared := declared + [name];
        }
        NumberNext(keys, order, name);
        keys := keys[name := nextKey];
        nextKey := nextKey + 1;
        order := order + [name];
        known := false;
      }
    }

    /** Forgets all keys, but not the names. */
    method Shutdown()
      requires Valid()
      modifies this
      ensures Valid() && order == [] && keys == map[] && declared == old(declared)
    {
      keys, nextKey, order := map[], 0, [];
    }

    /** Declares every name again, in the order of the first declaration. */
    method ReDeclareTensor()
      requires Valid()
      modifies this
      ensures Valid() && order == DeclareAll(old(order), old(declared)) && declared == old(declared)
    {
      var i := 0;
      while i < |declared|
        invariant Valid() && i <= |declared| && declared == old(declared)
        invariant order == DeclareAll(old(order), declared[..i])
      {
        assert declared[..i + 1][..i] == declared[..i];
        var known := IsTensorDeclared(declared[i]);
        i := i + 1;
      }
      assert declared[..i] == declared;
    }

    /** Suspending and resuming with nothing declared in between gives every name the key it had. */
    method SuspendResume()
      requires Valid() && order == declared
      modifies this
      ensures Valid() && order == declared == old(declared) && keys == old(keys)
    {
      Shutdown();
      ReDeclareTensor();
      RedeclaredFresh(declared, |declared|);
      assert declared[..|declared|] == declared;
    }
  }

  lemma {:induction false} RedeclaredFresh(names: seq<Name>, n: nat)
    requires Distinct(names) && n <= |names|
    ensures DeclareAll([], names[..n]) == names[..n]
  {
    if n > 0 {
      DeclareAllNext([], names, n);
      RedeclaredFresh(names, n - 1);
      DistinctPrefix(names, n);
      assert names[..n][..n - 1] == names[..n - 1];
    }
  }

  lemma DeclareAllNext(order: seq<Name>, names: seq<Name>, n: nat)
    requires 0 < n <= |names|
    ensures DeclareAll(order, names[..n]) == Declare(DeclareAll(order, names[..n - 1]), names[n - 1])
  {
    assert names[..n][..n - 1] == names[..n - 1];
  }

  // ---------------------------------------------------------------------------
  // Declarations between shutdown and redeclaration

  /** Every old name has the key it had: its place in the first declaration. */
  predicate KeysKept(names: seq<Name>, order: seq<Name>)
  {
    |names| <= |order| && forall i :: 0 <= i < |names| ==> order[i] == names[i]
  }

  lemma {:induction false} DeclareAllShape(order: seq<Name>, names: seq<Name>)
    requires Distinct(order)
    ensures Distinct(DeclareAll(order, names)) && order <= DeclareAll(order, names)
  {
    if names != [] {
      var n := |names| - 1;
      DeclareAllShape(order, names[..n]);
      var before := DeclareAll(order, names[..n]);
      DistinctSnoc(before, names[n]);
    }
  }

  lemma {:induction false} DeclareAllConcat(order: seq<Name>, a: seq<Name>, b: seq<Name>)
    ensures DeclareAll(order, a + b) == DeclareAll(DeclareAll(order, a), b)
  {
    if b == [] {
      assert a + b == a;
    } else {
      assert (a + b)[..|a + b| - 1] == a + b[..|b| - 1];
      DeclareAllConcat(order, a, b[..|b| - 1]);
    }
  }

  /** Redeclaring after a beginning of the same names gives all of them their places. */
  lemma {:induction false} RedeclaredAfter(mid: seq<Name>, names: seq<Name>, n: nat)
    requires Distinct(names) && mid <= names && n <= |names|
    ensures DeclareAll(mid, names[..n]) == if n <= |mid| then mid else names[..n]
  {
    if n > 0 {
      assert names[..n][..n - 1] == names[..n - 1];
      RedeclaredAfter(mid, names, n - 1);
      if n <= |mid| {
        assert names[n - 1] == mid[n - 1];
      } else {
        DistinctPrefix(names, n - 1);
        assert n - 1 == |mid| ==> mid == names[..n - 1];
        assert names[..n] == names[..n - 1] + [names[n - 1]];
      }
    }
  }

  lemma KeptWhenBegun(names: seq<Name>, mid: seq<Name>, all: seq<Name>)
    requires Distinct(names) && mid <= names && names <= all
    ensures KeysKept(names, DeclareAll(mid, all))
  {
    var more := all[|names|..];
    assert DeclareAll(mid, names) == names by {
      RedeclaredAfter(mid, names, |names|);
      assert names[..|names|] == names;
    }
    assert DeclareAll(mid, all) == DeclareAll(names, more) by {
      assert all == names + more;
      DeclareAllConcat(mid, names, more);
    }
    DeclareAllShape(names, more);
  }

  lemma Comparable(a: seq<Name>, b: seq<Name>, c: seq<Name>)
    requires a <= c && b <= c
    ensures a <= b || b <= a
  {
  }

  /**
   If names are asked for between shutdown and redeclaration, all old keys survive exactly when the
   names asked for, without repetitions, begin like the old ones or the old ones begin like them.
   */
  lemma KeptExactlyWhenInOrder(names: seq<Name>, between: seq<Name>)
    requires Distinct(names)
    ensures var mid := DeclareAll([], between);
            KeysKept(names, DeclareAll(mid, DeclareAll(names, between))) <==> mid <= names || names <= mid
  {
    var mid, all := DeclareAll([], between), DeclareAll(names, between);
    assert names <= all by { DeclareAllShape(names, between); }
    assert mid <= DeclareAll(mid, all) by { DeclareAllShape([], between); DeclareAllShape(mid, all); }
    if KeysKept(names, DeclareAll(mid, all)) {
      Comparable(mid, names, DeclareAll(mid, all));
    }
    if mid <= names {
      KeptWhenBegun(names, mid, all);
    }
  }

  /** Asking for the second of two names first swaps their keys. */
  lemma OutOfOrderSwaps(a: Name, b: Name)
    requires a != b
    ensures DeclareAll(DeclareAll([], [b]), DeclareAll([a, b], [b])) == [b, a]
  {
    assert [b][..0] == [] && [a, b][..1] == [a] && [a][..0] == [];
    assert DeclareAll([], [b]) == [b] && DeclareAll([a, b], [b]) == [a, b];
    assert DeclareAll([b], [a]) == [b, a];
  }

  // ---------------------------------------------------------------------------
  // Any number of cycles

  datatype Event = Declaring(name: Name) | Cycle

  function Step(order: seq<Name>, e: Event): seq<Name>
  {
    match e
    case Declaring(name) => Declare(order, name)
    case Cycle => DeclareAll([], order)
  }

  predicate IsRun(events: seq<Event>, trace: seq<seq<Name>>)
  {
    |trace| == |events| + 1 && trace[0] == []
    && forall i :: 0 <= i < |events| ==> trace[i + 1] == Step(trace[i], events[i])
  }

  /** Once a name has a key it keeps it, over declarations and suspend-resume cycles in any order. */
  lemma {:induction false} KeyForever(events: seq<Event>, trace: seq<seq<Name>>, i: nat, j: nat)
    requires IsRun(events, trace) && i <= j < |trace|
    ensures Distinct(trace[j]) && trace[i] <= trace[j]
    decreases j
  {
    if i < j {
      KeyForever(events, trace, i, j - 1);
    } else if i > 0 {
      KeyForever(events, trace, i - 1, i - 1);
    }
    if j > 0 {
      assert trace[j] == Step(trace[j - 1], events[j - 1]);
      StepKeeps(trace[j - 1], events[j - 1]);
    }
  }

  lemma StepKeeps(order: seq<Name>, e: Event)
    requires Distinct(order)
    ensures Distinct(Step(order, e)) && order <= Step(order, e)
  {
    match e {
      case Declaring(name) => DistinctSnoc(order, name);
      case Cycle =>
        RedeclaredFresh(order, |order|);
        assert order[..|order|] == order;
    }
  }
}
