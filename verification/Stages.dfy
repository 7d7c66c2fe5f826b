/** The stages a tensor partition walks through, per role, in one machine with a single PCIe switch. */
module Stages {

  import opened Options

  datatype QueueType =
    | COORDINATE_REDUCE | REDUCE | CONTEXT_PUSH | CONTEXT_PULL | COPYD2H | PCIE_REDUCE | COORDINATE_PUSH
    | COMPRESS | PUSH | PULL | DECOMPRESS | COPYH2D | COORDINATE_BROADCAST | BROADCAST

  /** The value of the enumerator. */
  function Ord(q: QueueType): nat
  {
    match q
    case COORDINATE_REDUCE => 0
    case REDUCE => 1
    case CONTEXT_PUSH => 2
    case CONTEXT_PULL => 3
    case COPYD2H => 4
    case PCIE_REDUCE => 5
    case COORDINATE_PUSH => 6
    case COMPRESS => 7
    case PUSH => 8
    case PULL => 9
    case DECOMPRESS => 10
    case COPYH2D => 11
    case COORDINATE_BROADCAST => 12
    case BROADCAST => 13
  }

  datatype Role = Role(signalRoot: bool, root: bool, distributed: bool, crossPcie: bool)

  /** The part of the stage list that reduces and pushes. */
  method GetPushQueueList(r: Role) returns (list: seq<QueueType>)
    ensures list == PushList(r)
  {
    list := [];
    if r.signalRoot {
      list := list + [REDUCE];
    } else {
      list := list + [COORDINATE_REDUCE];
      list := list + [REDUCE];
    }
    if r.distributed || r.crossPcie {
      if r.root {
        list := list + [CONTEXT_PUSH];
        list := list + [CONTEXT_PULL];
      }
    }
    if r.distributed || r.crossPcie {
      list := list + [COPYD2H];
    }
    if r.crossPcie {
      list := list + [PCIE_REDUCE];
    }
    if r.distributed || r.crossPcie {
      if r.root {
        list := list + [PUSH];
      } else {
        list := list + [COORDINATE_PUSH];
      }
    }
  }

  /** The part of the stage list that pulls and broadcasts. */
  method GetPullQueueList(r: Role) returns (list: seq<QueueType>)
    ensures list == PullList(r)
  {
    list := [];
    if r.distributed {
      if r.root {
        list := list + [PULL];
      }
    }
    if r.distributed || r.crossPcie {
      list := list + [COPYH2D];
    }
    if r.signalRoot {
      list := list + [BROADCAST];
    } else {
      list := list + [COORDINATE_BROADCAST];
      list := list + [BROADCAST];
    }
  }

  function If(b: bool, q: QueueType): seq<QueueType>
  {
    if b then [q] else []
  }

  function PushList(r: Role): seq<QueueType>
  {
    var host := r.distributed || r.crossPcie;
    If(!r.signalRoot, COORDINATE_REDUCE) + [REDUCE]
    + If(host && r.root, CONTEXT_PUSH) + If(host && r.root, CONTEXT_PULL)
    + If(host, COPYD2H) + If(r.crossPcie, PCIE_REDUCE)
    + If(host && r.root, PUSH) + If(host && !r.root, COORDINATE_PUSH)
  }

  function PullList(r: Role): seq<QueueType>
  {
    If(r.distributed && r.root, PULL) + If(r.distributed || r.crossPcie, COPYH2D)
    + If(!r.signalRoot, COORDINATE_BROADCAST) + [BROADCAST]
  }

  // ---------------------------------------------------------------------------
  // The compression stages

  /** The list with COMPRESS before the first PUSH, or at the end if there is none. */
  function BeforePush(list: seq<QueueType>): seq<QueueType>
  {
    if list == [] then [COMPRESS]
    else if list[0] == PUSH then [COMPRESS] + list
    else [list[0]] + BeforePush(list[1..])
  }

  /** The list with DECOMPRESS after the first PULL; without one the insertion would be past the end. */
  function AfterPull(list: seq<QueueType>): Option<seq<QueueType>>
  {
    if list == [] then None
    else if list[0] == PULL then Some([PULL, DECOMPRESS] + list[1..])
    else
      match AfterPull(list[1..])
      case None => None
      case Some(rest) => Some([list[0]] + rest)
  }

  /** The first place of a stage, or the end. */
  method Find(list: seq<QueueType>, q: QueueType) returns (i: nat)
    ensures i <= |list| && q !in list[..i]
    ensures i < |list| ==> list[i] == q
  {
    i := 0;
    while i < |list| && list[i] != q
      invariant i <= |list| && q !in list[..i]
    {
      i := i + 1;
    }
  }

  /** Adds the two compression stages to a stage list in place. */
  method AddCompression(list: seq<QueueType>) returns (r: Option<seq<QueueType>>)
    ensures r == AfterPull(BeforePush(list))
    ensures r == None <==> PULL !in list
    ensures r.Some? ==> multiset(r.value) == multiset(list) + multiset{COMPRESS, DECOMPRESS}
  {
    var i := Find(list, PUSH);
    BeforePushAt(list, i);
    var withPush := list[..i] + [COMPRESS] + list[i..];
    Inserted(list, i, COMPRESS);
    assert PULL in withPush <==> PULL in list;
    var j := Find(withPush, PULL);
    AfterPullAt(withPush, j);
    if j == |withPush| {
      assert withPush[..j] == withPush;
      r := None;
    } else {
      Inserted(withPush, j + 1, DECOMPRESS);
      r := Some(withPush[..j + 1] + [DECOMPRESS] + withPush[j + 1..]);
    }
  }

  lemma Inserted(s: seq<QueueType>, i: nat, q: QueueType)
    requires i <= |s|
    ensures multiset(s[..i] + [q] + s[i..]) == multiset(s) + multiset{q}
    ensures forall x :: x in s[..i] + [q] + s[i..] <==> x in s || x == q
  {
    assert s == s[..i] + s[i..];
  }

  lemma {:induction false} BeforePushAt(list: seq<QueueType>, i: nat)
    requires i <= |list| && PUSH !in list[..i] && (i < |list| ==> list[i] == PUSH)
    ensures BeforePush(list) == list[..i] + [COMPRESS] + list[i..]
  {
    if list != [] && i > 0 {
      assert list[0] in list[..i] && list[1..][..i - 1] == list[..i][1..];
      BeforePushAt(list[1..], i - 1);
    }
  }

  lemma {:induction false} AfterPullAt(list: seq<QueueType>, i: nat)
    requires i <= |list| && PULL !in list[..i] && (i < |list| ==> list[i] == PULL)
    ensures AfterPull(list)
         == if i == |list| then None else Some(list[..i + 1] + [DECOMPRESS] + list[i + 1..])
  {
    if list != [] && i > 0 {
      assert list[0] in list[..i] && list[1..][..i - 1] == list[..i][1..];
      AfterPullAt(list[1..], i - 1);
      if i < |list| {
        assert list[..i + 1] + [DECOMPRESS] + list[i + 1..]
            == [list[0]] + (list[1..][..i] + [DECOMPRESS] + list[1..][i..]);
      }
    } else if list != [] {
      assert list[..1] + [DECOMPRESS] + list[1..] == [PULL, DECOMPRESS] + list[1..];
    }
  }

  /** The stage list of a task: the push part, the pull part and, for the root of a compressed tensor, compression. */
  function StageList(r: Role, compressed: bool): Option<seq<QueueType>>
  {
    var list := PushList(r) + PullList(r);
    if r.root && compressed then AfterPull(BeforePush(list)) else Some(list)
  }

  /** The stages of a role, without any order. */
  predicate Has(r: Role, compressed: bool, q: QueueType)
  {
    var host := r.distributed || r.crossPcie;
    match q
    case COORDINATE_REDUCE => !r.signalRoot
    case REDUCE => true
    case CONTEXT_PUSH => host && r.root
    case CONTEXT_PULL => host && r.root
    case COPYD2H => host
    case PCIE_REDUCE => r.crossPcie
    case COORDINATE_PUSH => host && !r.root
    case COMPRESS => r.root && compressed
    case PUSH => host && r.root
    case PULL => r.distributed && r.root
    case DECOMPRESS => r.root && compressed
    case COPYH2D => host
    case COORDINATE_BROADCAST => !r.signalRoot
    case BROADCAST => true
  }

  /** The stages of a role among `all`, in that order. */
  function Pick(r: Role, compressed: bool, all: seq<QueueType>): seq<QueueType>
  {
    if all == [] then []
    else
      var n := |all| - 1;
      Pick(r, compressed, all[..n]) + If(Has(r, compressed, all[n]), all[n])
  }

  lemma PickNext(r: Role, compressed: bool, all: seq<QueueType>, q: QueueType)
    ensures Pick(r, compressed, all + [q]) == Pick(r, compressed, all) + If(Has(r, compressed, q), q)
  {
    assert (all + [q])[..|all|] == all;
  }

  lemma {:induction false} PickConcat(r: Role, compressed: bool, a: seq<QueueType>, b: seq<QueueType>)
    ensures Pick(r, compressed, a + b) == Pick(r, compressed, a) + Pick(r, compressed, b)
  {
    if b == [] {
      assert a + b == a;
    } else {
      var n := |b| - 1;
      assert a + b == (a + b[..n]) + [b[n]];
      PickNext(r, compressed, a + b[..n], b[n]);
      PickConcat(r, compressed, a, b[..n]);
    }
  }

  /** In increasing order of the enumerators, so no stage occurs twice. */
  predicate Ordered(list: seq<QueueType>)
  {
    forall i, j :: 0 <= i < j < |list| ==> Ord(list[i]) < Ord(list[j])
  }

  lemma {:induction false} PickOrdered(r: Role, compressed: bool, all: seq<QueueType>)
    requires Ordered(all)
    ensures Ordered(Pick(r, compressed, all))
    ensures forall q :: q in Pick(r, compressed, all) <==> q in all && Has(r, compressed, q)
  {
    if all != [] {
      var n := |all| - 1;
      assert all == all[..n] + [all[n]];
      PickOrdered(r, compressed, all[..n]);
      var rest := Pick(r, compressed, all[..n]);
      forall i | 0 <= i < |rest| ensures Ord(rest[i]) < Ord(all[n]) {
        assert rest[i] in rest;
        var k :| 0 <= k < n && all[..n][k] == rest[i];
      }
    }
  }

  const TO_CONTEXT: seq<QueueType> := [COORDINATE_REDUCE, REDUCE, CONTEXT_PUSH]

  const TO_HOST: seq<QueueType> := [CONTEXT_PULL, COPYD2H, PCIE_REDUCE]

  const TO_PUSH: seq<QueueType> := TO_CONTEXT + TO_HOST + [COORDINATE_PUSH]

  const FROM_PULL: seq<QueueType> := [COPYH2D, COORDINATE_BROADCAST, BROADCAST]

  /** All stages in the order of the enumerators. */
  const ALL: seq<QueueType> := TO_PUSH + [COMPRESS, PUSH, PULL, DECOMPRESS] + FROM_PULL

  lemma PickToHost(r: Role, compressed: bool)
    ensures Pick(r, compressed, TO_PUSH)
         == Pick(r, compressed, TO_CONTEXT) + Pick(r, compressed, TO_HOST)
            + If(Has(r, compressed, COORDINATE_PUSH), COORDINATE_PUSH)
  {
    PickConcat(r, compressed, TO_CONTEXT, TO_HOST);
    PickNext(r, compressed, TO_CONTEXT + TO_HOST, COORDINATE_PUSH);
  }

  lemma PickToPush(r: Role, compressed: bool)
    ensures PushList(r) == Pick(r, compressed, TO_PUSH) + If(Has(r, compressed, PUSH), PUSH)
  {
    PickToHost(r, compressed);
    PickThree(r, compressed, COORDINATE_REDUCE, REDUCE, CONTEXT_PUSH);
    PickThree(r, compressed, CONTEXT_PULL, COPYD2H, PCIE_REDUCE);
    var host := r.distributed || r.crossPcie;
    Regrouped(If(!r.signalRoot, COORDINATE_REDUCE) + [REDUCE] + If(host && r.root, CONTEXT_PUSH),
              If(host && r.root, CONTEXT_PULL), If(host, COPYD2H), If(r.crossPcie, PCIE_REDUCE),
              If(host && r.root, PUSH), If(host && !r.root, COORDINATE_PUSH));
  }

  lemma Regrouped(a: seq<QueueType>, b: seq<QueueType>, c: seq<QueueType>, d: seq<QueueType>,
                  push: seq<QueueType>, coordinate: seq<QueueType>)
    requires push == [] || coordinate == []
    ensures a + b + c + d + push + coordinate == a + (b + c + d) + coordinate + push
  {
    assert a + b + c + d == a + (b + c + d);
  }

  lemma PickThree(r: Role, compressed: bool, a: QueueType, b: QueueType, c: QueueType)
    ensures Pick(r, compressed, [a, b, c])
         == If(Has(r, compressed, a), a) + If(Has(r, compressed, b), b) + If(Has(r, compressed, c), c)
  {
    PickNext(r, compressed, [], a);
    PickNext(r, compressed, [a], b);
    PickNext(r, compressed, [a, b], c);
    assert [a] + [b] == [a, b] && [a, b] + [c] == [a, b, c] && [] + [a] == [a];
  }

  lemma PickFromPull(r: Role, compressed: bool)
    ensures PullList(r) == If(Has(r, compressed, PULL), PULL) + Pick(r, compressed, FROM_PULL)
  {
    PickThree(r, compressed, COPYH2D, COORDINATE_BROADCAST, BROADCAST);
  }

  lemma PickMiddle(r: Role, compressed: bool)
    ensures Pick(r, compressed, [COMPRESS, PUSH, PULL, DECOMPRESS])
         == If(Has(r, compressed, COMPRESS), COMPRESS) + If(Has(r, compressed, PUSH), PUSH)
            + If(Has(r, compressed, PULL), PULL) + If(Has(r, compressed, DECOMPRESS), DECOMPRESS)
  {
    PickThree(r, compressed, COMPRESS, PUSH, PULL);
    PickNext(r, compressed, [COMPRESS, PUSH, PULL], DECOMPRESS);
    assert [COMPRESS, PUSH, PULL] + [DECOMPRESS] == [COMPRESS, PUSH, PULL, DECOMPRESS];
  }

  lemma PickAll(r: Role, compressed: bool)
    ensures Pick(r, compressed, ALL)
         == Pick(r, compressed, TO_PUSH) + Pick(r, compressed, [COMPRESS, PUSH, PULL, DECOMPRESS])
            + Pick(r, compressed, FROM_PULL)
  {
    PickConcat(r, compressed, TO_PUSH, [COMPRESS, PUSH, PULL, DECOMPRESS]);
    PickConcat(r, compressed, TO_PUSH + [COMPRESS, PUSH, PULL, DECOMPRESS], FROM_PULL);
  }

  lemma DecompressionAfter(a: seq<QueueType>, b: seq<QueueType>)
    requires PULL !in a
    ensures AfterPull(a + [PULL] + b) == Some(a + [PULL, DECOMPRESS] + b)
  {
    var list := a + [PULL] + b;
    assert list[..|a|] == a && list[..|a| + 1] == a + [PULL] && list[|a| + 1..] == b;
    AfterPullAt(list, |a|);
    assert a + [PULL] + [DECOMPRESS] + b == a + [PULL, DECOMPRESS] + b;
  }

  /** Around adjacent PUSH and PULL stages the two searches insert as intended. */
  lemma CompressionAround(a: seq<QueueType>, b: seq<QueueType>)
    requires PUSH !in a && PULL !in a
    ensures AfterPull(BeforePush(a + [PUSH, PULL] + b)) == Some(a + [COMPRESS, PUSH, PULL, DECOMPRESS] + b)
  {
    var list := a + [PUSH, PULL] + b;
    assert list[..|a|] == a && list[|a|..] == [PUSH, PULL] + b;
    BeforePushAt(list, |a|);
    var front := a + [COMPRESS, PUSH];
    assert a + [COMPRESS] + ([PUSH, PULL] + b) == front + [PULL] + b;
    DecompressionAfter(front, b);
    assert front + [PULL, DECOMPRESS] + b == a + [COMPRESS, PUSH, PULL, DECOMPRESS] + b;
  }

  lemma {:induction false} NoPullMeansNone(list: seq<QueueType>)
    requires PULL !in list
    ensures PULL !in BeforePush(list) && AfterPull(list).None?
  {
    if list != [] {
      NoPullMeansNone(list[1..]);
    }
  }

  lemma AllOrdered()
    ensures Ordered(ALL) && Ordered(TO_PUSH) && PUSH !in TO_PUSH && PULL !in TO_PUSH
    ensures forall q :: q in ALL
  {
    assert forall i :: 0 <= i < |ALL| ==> Ord(ALL[i]) == i;
    assert forall i :: 0 <= i < |TO_PUSH| ==> TO_PUSH[i] == ALL[i];
    forall q: QueueType ensures q in ALL {
      assert ALL[Ord(q)] == q;
    }
  }

  lemma PlainListIsPick(r: Role, compressed: bool)
    requires !(r.root && compressed)
    ensures PushList(r) + PullList(r) == Pick(r, compressed, ALL)
  {
    PickToPush(r, compressed);
    PickFromPull(r, compressed);
    PickMiddle(r, compressed);
    PickAll(r, compressed);
    Around(Pick(r, compressed, TO_PUSH), If(Has(r, compressed, PUSH), PUSH), If(Has(r, compressed, PULL), PULL),
           Pick(r, compressed, FROM_PULL));
  }

  lemma Around(a: seq<QueueType>, b: seq<QueueType>, c: seq<QueueType>, d: seq<QueueType>)
    ensures (a + b) + (c + d) == a + ([] + b + c + []) + d
  {
  }

  lemma CompressedListIsPick(r: Role)
    requires r.root && r.distributed
    ensures AfterPull(BeforePush(PushList(r) + PullList(r))) == Some(Pick(r, true, ALL))
  {
    PickToPush(r, true);
    PickFromPull(r, true);
    PickMiddle(r, true);
    PickAll(r, true);
    AllOrdered();
    PickOrdered(r, true, TO_PUSH);
    CompressionAround(Pick(r, true, TO_PUSH), Pick(r, true, FROM_PULL));
    assert Pick(r, true, [COMPRESS, PUSH, PULL, DECOMPRESS]) == [COMPRESS, PUSH, PULL, DECOMPRESS];
    assert PushList(r) + PullList(r) == Pick(r, true, TO_PUSH) + [PUSH, PULL] + Pick(r, true, FROM_PULL);
  }

  /**
   For every role: the list is the role's stages in the order of the enumerators. The compression
   stages can be inserted exactly when there is a PULL, that is, when the job is distributed.
   */
  lemma StageListIsPick(r: Role, compressed: bool)
    ensures StageList(r, compressed)
         == if r.root && compressed && !r.distributed then None else Some(Pick(r, compressed, ALL))
  {
    if !(r.root && compressed) {
      PlainListIsPick(r, compressed);
    } else if r.distributed {
      CompressedListIsPick(r);
    } else {
      var list := PushList(r) + PullList(r);
      NoPullMeansNone(list);
      NoPullMeansNone(BeforePush(list));
    }
  }

  /** A stage and its successor in the enumeration are neighbours in an ordered list that has both. */
  lemma Neighbours(list: seq<QueueType>, i: nat, j: nat)
    requires Ordered(list) && i < |list| && j < |list| && Ord(list[j]) == Ord(list[i]) + 1
    ensures j == i + 1
  {
    if i + 1 < |list| {
      assert Ord(list[i]) < Ord(list[i + 1]);
    }
  }

  /**
   Every stage list is in increasing order and has the role's stages and no others; COMPRESS stands
   right before PUSH and DECOMPRESS right after PULL.
   */
  lemma StageListOrder(r: Role, compressed: bool, i: nat)
    requires StageList(r, compressed).Some? && i < |StageList(r, compressed).value|
    ensures var list := StageList(r, compressed).value;
            && Ordered(list) && (forall q :: q in list <==> Has(r, compressed, q))
            && (list[i] == COMPRESS ==> i + 1 < |list| && list[i + 1] == PUSH)
            && (list[i] == DECOMPRESS ==> 0 < i && list[i - 1] == PULL)
  {
    assert Ordered(StageList(r, compressed).value) by {
      StageListIsPick(r, compressed);
      AllOrdered();
      PickOrdered(r, compressed, ALL);
    }
    assert forall q :: q in StageList(r, compressed).value <==> Has(r, compressed, q) by {
      StageListIsPick(r, compressed);
      AllOrdered();
      PickOrdered(r, compressed, ALL);
    }
    assert r.root && compressed ==> r.distributed by { StageListIsPick(r, compressed); }
    PairedStages(r, compressed, StageList(r, compressed).value, i);
  }

  lemma ListMembers(r: Role, compressed: bool, list: seq<QueueType>)
    requires forall q :: q in list <==> Has(r, compressed, q)
    ensures REDUCE in list && BROADCAST in list
         && (COORDINATE_REDUCE in list <==> !r.signalRoot) && (COORDINATE_BROADCAST in list <==> !r.signalRoot)
         && (COPYD2H in list <==> r.distributed || r.crossPcie) && (COPYH2D in list <==> r.distributed || r.crossPcie)
         && (CONTEXT_PUSH in list <==> r.root && (r.distributed || r.crossPcie))
         && (CONTEXT_PULL in list <==> r.root && (r.distributed || r.crossPcie))
         && (PUSH in list <==> r.root && (r.distributed || r.crossPcie)) && (PULL in list <==> r.root && r.distributed)
         && (COORDINATE_PUSH in list <==> !r.root && (r.distributed || r.crossPcie))
         && (PCIE_REDUCE in list <==> r.crossPcie)
         && (COMPRESS in list <==> r.root && compressed) && (DECOMPRESS in list <==> r.root && compressed)
  {
  }

  /** Which stages every role has. */
  lemma StageListMembers(r: Role, compressed: bool)
    requires StageList(r, compressed).Some?
    ensures var list := StageList(r, compressed).value;
            && REDUCE in list && BROADCAST in list
            && (COORDINATE_REDUCE in list <==> !r.signalRoot) && (COORDINATE_BROADCAST in list <==> !r.signalRoot)
            && (COPYD2H in list <==> r.distributed || r.crossPcie) && (COPYH2D in list <==> r.distributed || r.crossPcie)
            && (CONTEXT_PUSH in list <==> r.root && (r.distributed || r.crossPcie))
            && (CONTEXT_PULL in list <==> r.root && (r.distributed || r.crossPcie))
            && (PUSH in list <==> r.root && (r.distributed || r.crossPcie)) && (PULL in list <==> r.root && r.distributed)
            && (COORDINATE_PUSH in list <==> !r.root && (r.distributed || r.crossPcie))
            && (PCIE_REDUCE in list <==> r.crossPcie)
            && (COMPRESS in list <==> r.root && compressed) && (DECOMPRESS in list <==> r.root && compressed)
  {
    var list := StageList(r, compressed).value;
    assert forall q :: q in list <==> Has(r, compressed, q) by {
      StageListIsPick(r, compressed);
      AllOrdered();
      PickOrdered(r, compressed, ALL);
    }
    ListMembers(r, compressed, list);
  }

  lemma PairedStages(r: Role, compressed: bool, list: seq<QueueType>, i: nat)
    requires Ordered(list) && i < |list| && (forall q :: q in list <==> Has(r, compressed, q))
    requires r.root && compressed ==> r.distributed
    ensures list[i] == COMPRESS ==> i + 1 < |list| && list[i + 1] == PUSH
    ensures list[i] == DECOMPRESS ==> 0 < i && list[i - 1] == PULL
  {
    assert list[i] in list;
    if list[i] == COMPRESS {
      assert PUSH in list;
      var j: nat :| j < |list| && list[j] == PUSH;
      Neighbours(list, i, j);
    } else if list[i] == DECOMPRESS {
      assert PULL in list;
      var j: nat :| j < |list| && list[j] == PULL;
      Neighbours(list, j, i);
    }
  }
}
