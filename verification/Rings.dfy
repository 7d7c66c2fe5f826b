/** The rings over which keys are reduced and broadcast when a machine has several PCIe switches. */
module Rings {
  import opened Arith

  datatype Op = Reduce | Broadcast

  /** Switch size and number of switches; unbalanced switches are taken as one. */
  method InitGlobalEnv(local: nat, configured: nat) returns (size: nat, num: nat)
    requires 0 < local && 0 < configured
    ensures size * num == local && 0 < size && 0 < num
    ensures local % configured == 0 ==> size == configured
    ensures local % configured != 0 ==> size == local
  {
    size := configured;
    num := local / size;
    if num == 0 {
      size, num := local, 1;
      DivUnique(local, configured, 0, local);
    } else if local % size != 0 {
      size, num := local, 1;
    }
  }

  /** A place on a ring: position `t` in the `q`-th switch. */
  function Place(size: nat, q: nat, t: nat): nat
  {
    q * size + t
  }

  /** The rank at place `p` of the `i`-th reduce ring: inside each switch, turned by `i`. */
  function RankAt(size: nat, i: nat, p: nat): nat
    requires 0 < size
  {
    (p % size + i) % size + p / size * size
  }

  function ReduceRing(size: nat, num: nat, i: nat): (ring: seq<nat>)
    requires 0 < size
    ensures |ring| == num * size
  {
    seq(num * size, p requires p >= 0 => RankAt(size, i, p))
  }

  function Reversed(s: seq<nat>): (r: seq<nat>)
    ensures |r| == |s| && forall p :: 0 <= p < |s| ==> r[p] == s[|s| - 1 - p]
  {
    seq(|s|, p requires 0 <= p < |s| => s[|s| - 1 - p])
  }

  predicate RingsOk(size: nat, num: nat, rings: seq<seq<nat>>)
    requires 0 < size
  {
    && |rings| == 2 * size
    && forall i :: 0 <= i < size ==>
         rings[i] == ReduceRing(size, num, i) && rings[i + size] == Reversed(ReduceRing(size, num, i))
  }

  method ConstructRings(size: nat, num: nat) returns (rings: seq<seq<nat>>)
    requires 0 < size
    ensures RingsOk(size, num, rings)
  {
    rings := [];
    for i := 0 to size
      invariant |rings| == i
      invariant forall a :: 0 <= a < i ==> rings[a] == ReduceRing(size, num, a)
    {
      var ring := ConstructRing(size, num, i);
      rings := rings + [ring];
    }
    for i := 0 to size
      invariant |rings| == size + i
      invariant forall a :: 0 <= a < size ==> rings[a] == ReduceRing(size, num, a)
      invariant forall a :: 0 <= a < i ==> rings[a + size] == Reversed(ReduceRing(size, num, a))
    {
      var ring := [];
      var local := |rings[i]|;
      for j := 0 to local
        invariant |ring| == j && forall p :: 0 <= p < j ==> ring[p] == rings[i][local - p - 1]
      {
        ring := ring + [rings[i][local - j - 1]];
      }
      assert ring == Reversed(ReduceRing(size, num, i));
      rings := rings + [ring];
    }
  }

  method ConstructRing(size: nat, num: nat, i: nat) returns (ring: seq<nat>)
    requires 0 < size
    ensures ring == ReduceRing(size, num, i)
  {
    ring := [];
    for j := 0 to num
      invariant |ring| == j * size && forall p :: 0 <= p < |ring| ==> ring[p] == RankAt(size, i, p)
    {
      for k := 0 to size
        invariant |ring| == j * size + k && forall p :: 0 <= p < |ring| ==> ring[p] == RankAt(size, i, p)
      {
        DivUnique(j * size + k, size, j, k);
        ring := ring + [(k + i) % size + j * size];
      }
      assert (j + 1) * size == j * size + size;
    }
    assert ring == ReduceRing(size, num, i);
  }

  /**
   Reduce ring `i` enters every switch at its rank `i` and goes up one rank at a time, around inside
   the switch; broadcast ring `i` is the same ring backwards.
   */
  lemma RingsTurn(size: nat, num: nat, rings: seq<seq<nat>>, i: nat, j: nat, k: nat, p: nat)
    requires i < size && RingsOk(size, num, rings) && j < num && k < size && p == j * size + k
    ensures |rings| == 2 * size && |rings[i]| == |rings[i + size]| == num * size && p < num * size
    ensures rings[i][p] / size == j
    ensures k == 0 ==> rings[i][p] == j * size + i
    ensures 0 < k ==> rings[i][p] == j * size + (rings[i][p - 1] % size + 1) % size
    ensures rings[i + size][num * size - 1 - p] == rings[i][p]
  {
    assert rings[i] == ReduceRing(size, num, i) && rings[i + size] == Reversed(ReduceRing(size, num, i));
    RingEntry(size, num, i, j, k, p);
    if k > 0 {
      RingEntry(size, num, i, j, k - 1, p - 1);
      NextTurn(size, k - 1 + i);
    } else {
      ModStep(i, size);
    }
  }

  lemma NextTurn(size: nat, a: nat)
    requires a + 1 < 2 * size
    ensures (a % size + 1) % size == (a + 1) % size
  {
    ModStep(a, size);
    ModStep(a + 1, size);
    ModStep(a % size + 1, size);
  }

  lemma RingEntry(size: nat, num: nat, i: nat, j: nat, k: nat, p: nat)
    requires i < size && j < num && k < size && p == j * size + k
    ensures p < num * size && ReduceRing(size, num, i)[p] == j * size + (k + i) % size
    ensures ReduceRing(size, num, i)[p] / size == j && ReduceRing(size, num, i)[p] % size == (k + i) % size
  {
    InSwitch(size, num, j, k);
    ModStep(k + i, size);
    InSwitch(size, num, j, (k + i) % size);
  }

  // ---------------------------------------------------------------------------
  // Places and ranks

  /** The place of a rank on the `i`-th reduce ring. */
  function PlaceOf(size: nat, i: nat, rank: nat): nat
    requires i < size
  {
    rank / size * size + (rank % size + size - i) % size
  }

  /** Turning by `i` and turning back. */
  lemma TurnBack(size: nat, i: nat, t: nat)
    requires i < size && t < size
    ensures (t + i) % size < size && ((t + i) % size + size - i) % size == t
    ensures (t + size - i) % size < size && ((t + size - i) % size + i) % size == t
  {
    ModStep(t + i, size);
    ModStep((t + i) % size + size - i, size);
    ModStep(t + size - i, size);
    ModStep((t + size - i) % size + i, size);
  }

  /** The ring and the place of a rank invert each other, inside the range of the machine. */
  lemma PlacesAndRanks(size: nat, num: nat, i: nat, p: nat)
    requires i < size && p < num * size
    ensures RankAt(size, i, p) < num * size && PlaceOf(size, i, RankAt(size, i, p)) == p
    ensures PlaceOf(size, i, p) < num * size && RankAt(size, i, PlaceOf(size, i, p)) == p
  {
    DivAtLeast(num, size, p);
    SplitPlace(size, p);
    var q, t := p / size, p % size;
    Inverses(size, num, i, q, t);
    assert RankAt(size, i, p) == Place(size, q, (t + i) % size);
    assert PlaceOf(size, i, p) == Place(size, q, (t + size - i) % size);
  }

  lemma Inverses(size: nat, num: nat, i: nat, q: nat, t: nat)
    requires i < size && t < size && q < num
    ensures RankAt(size, i, Place(size, q, t)) == Place(size, q, (t + i) % size) < num * size
    ensures PlaceOf(size, i, Place(size, q, t)) == Place(size, q, (t + size - i) % size) < num * size
    ensures PlaceOf(size, i, Place(size, q, (t + i) % size)) == Place(size, q, t)
    ensures RankAt(size, i, Place(size, q, (t + size - i) % size)) == Place(size, q, t)
  {
    TurnBack(size, i, t);
    InSwitch(size, num, q, t);
    InSwitch(size, num, q, (t + i) % size);
    InSwitch(size, num, q, (t + size - i) % size);
  }

  lemma InSwitch(size: nat, num: nat, q: nat, t: nat)
    requires t < size && q < num
    ensures var p := Place(size, q, t); p / size == q && p % size == t && p < num * size
  {
    DivUnique(q * size + t, size, q, t);
    MulMono(q + 1, num, size);
    assert (q + 1) * size == q * size + size;
  }

  /** Every rank is once on a sequence of ranks. */
  ghost predicate Permutation(local: nat, ring: seq<nat>)
  {
    && |ring| == local
    && (forall p :: 0 <= p < local ==> ring[p] < local)
    && (forall p, q :: 0 <= p < q < local ==> ring[p] != ring[q])
    && (forall r: nat :: r < local ==> r in ring)
  }

  /** Every reduce ring and every broadcast ring is a permutation of the ranks. */
  lemma RingsArePermutations(size: nat, num: nat, rings: seq<seq<nat>>, i: nat)
    requires 0 < size && RingsOk(size, num, rings) && i < 2 * size
    ensures Permutation(num * size, rings[i])
  {
    var a := if i < size then i else i - size;
    assert rings[a] == ReduceRing(size, num, a) && rings[a + size] == Reversed(ReduceRing(size, num, a));
    ReduceRingPermutes(size, num, a);
    if i >= size {
      ReversedPermutes(num * size, ReduceRing(size, num, a));
    }
  }

  lemma ReduceRingPermutes(size: nat, num: nat, i: nat)
    requires i < size
    ensures Permutation(num * size, ReduceRing(size, num, i))
  {
    var ring := ReduceRing(size, num, i);
    forall p: nat | p < num * size ensures ring[p] < num * size && PlaceOf(size, i, ring[p]) == p {
      PlacesAndRanks(size, num, i, p);
    }
    forall r: nat | r < num * size ensures r in ring {
      PlacesAndRanks(size, num, i, r);
      assert ring[PlaceOf(size, i, r)] == r;
    }
  }

  lemma ReversedPermutes(local: nat, ring: seq<nat>)
    requires Permutation(local, ring)
    ensures Permutation(local, Reversed(ring))
  {
    forall r: nat | r < local ensures r in Reversed(ring) {
      assert r in ring;
      var p :| 0 <= p < local && ring[p] == r;
      assert Reversed(ring)[local - 1 - p] == r;
    }
  }

  // ---------------------------------------------------------------------------
  // Roots and ranks of a key

  function GetRoot(size: nat, num: nat, rings: seq<seq<nat>>, key: nat, op: Op): nat
    requires 0 < size && 0 < num && RingsOk(size, num, rings)
  {
    var comm := key % size;
    var switch := SwitchOf(size, num, key);
    if op == Reduce then rings[comm][(num - switch) * size - 1] else rings[comm + size][switch * size]
  }

  /** The switch from which a key's root is counted. */
  function SwitchOf(size: nat, num: nat, key: nat): (s: nat)
    requires 0 < size && 0 < num
    ensures s < num && (num - s) * size <= num * size && 0 < (num - s) * size && s * size < num * size
  {
    SwitchBounds(size, num, Res(size, num, key) / size);
    Res(size, num, key) / size
  }

  /** The residue of a key modulo the number of ranks. */
  function Res(size: nat, num: nat, key: nat): (k: nat)
    requires 0 < size && 0 < num
    ensures k / size < num
  {
    Residue(size, num, key);
    key % (size * num)
  }

  lemma Residue(size: nat, num: nat, key: nat)
    requires 0 < size && 0 < num
    ensures 0 < size * num && key % (size * num) / size < num
  {
    MulMono(1, num, size);
    DivAtLeast(num, size, key % (size * num));
  }

  lemma SwitchBounds(size: nat, num: nat, s: nat)
    requires 0 < size && s < num
    ensures (num - s) * size <= num * size && 0 < (num - s) * size && s * size < num * size
  {
    MulMono(s + 1, num, size);
    MulMono(num - s, num, size);
    MulMono(1, num - s, size);
  }

  function RingOf(size: nat, key: nat, op: Op): nat
    requires 0 < size
  {
    key % size + if op == Reduce then 0 else size
  }

  /** Finds this rank on the ring of a key. */
  method GetRank(size: nat, num: nat, rings: seq<seq<nat>>, key: nat, op: Op, local: nat) returns (rank: nat)
    requires 0 < size && RingsOk(size, num, rings) && local < num * size
    ensures var ring := rings[if op == Reduce then key % size else key % size + size];
            rank < |ring| && ring[rank] == local && local !in ring[..rank]
  {
    var ring := rings[RingOf(size, key, op)];
    rank := 0;
    while rank < |ring| && ring[rank] != local
      invariant rank <= |ring| && local !in ring[..rank]
    {
      rank := rank + 1;
    }
    assert local in ring by { RingsArePermutations(size, num, rings, RingOf(size, key, op)); }
  }

  /** The root of a key in closed form: the rank before `comm` on its switch, counted from the last switch. */
  lemma RootClosed(size: nat, num: nat, rings: seq<seq<nat>>, key: nat, op: Op)
    requires 0 < size && 0 < num && RingsOk(size, num, rings)
    ensures var s := SwitchOf(size, num, key);
            GetRoot(size, num, rings, key, op) == Place(size, num - 1 - s, (size - 1 + key % size) % size)
    ensures var k := key % (size * num);
            && 0 < size * num
            && GetRoot(size, num, rings, key, op) == (num - 1 - k / size) * size + (size - 1 + key % size) % size
  {
    Residue(size, num, key);
    var c, s := key % size, SwitchOf(size, num, key);
    assert rings[c] == ReduceRing(size, num, c) && rings[c + size] == Reversed(ReduceRing(size, num, c));
    RingAtLast(size, num, c, s);
  }

  lemma RingAtLast(size: nat, num: nat, c: nat, s: nat)
    requires 0 < size && s < num && c < size
    ensures var ring, last := ReduceRing(size, num, c), (num - s) * size - 1;
            && 0 <= last < |ring| && s * size < |ring| == num * size
            && ring[last] == Place(size, num - 1 - s, (size - 1 + c) % size)
            && Reversed(ring)[s * size] == ring[last]
  {
    SwitchBounds(size, num, s);
    LastOfSwitch(size, num, s);
  }

  lemma LastOfSwitch(size: nat, num: nat, s: nat)
    requires 0 < size && s < num
    ensures var last := (num - s) * size - 1;
            && last == num * size - 1 - s * size
            && 0 <= last < num * size && last / size == num - 1 - s && last % size == size - 1
  {
    SwitchBounds(size, num, s);
    assert (num - s) * size == (num - 1 - s) * size + size;
    DivUnique((num - s) * size - 1, size, num - 1 - s, size - 1);
  }

  /** A key is reduced to the rank that broadcasts it. */
  lemma RootsAgree(size: nat, num: nat, rings: seq<seq<nat>>, key: nat)
    requires 0 < size && 0 < num && RingsOk(size, num, rings)
    ensures GetRoot(size, num, rings, key, Reduce) == GetRoot(size, num, rings, key, Broadcast)
  {
    RootClosed(size, num, rings, key, Reduce);
    RootClosed(size, num, rings, key, Broadcast);
  }

  /** The residue of the keys whose root is `rank`. */
  function KeyOf(size: nat, num: nat, rank: nat): nat
    requires 0 < size && rank < num * size
  {
    DivAtLeast(num, size, rank);
    Place(size, num - 1 - rank / size, (rank % size + 1) % size)
  }

  lemma SamePlace(size: nat, q1: nat, t1: nat, q2: nat, t2: nat)
    requires t1 < size && t2 < size
    ensures Place(size, q1, t1) == Place(size, q2, t2) <==> q1 == q2 && t1 == t2
  {
    DivUnique(Place(size, q1, t1), size, q1, t1);
    DivUnique(Place(size, q2, t2), size, q2, t2);
  }

  lemma StepBack(size: nat, t: nat, u: nat)
    requires t < size && u < size
    ensures (size - 1 + t) % size < size && (u + 1) % size < size
    ensures (size - 1 + t) % size == u <==> t == (u + 1) % size
  {
    ModStep(size - 1 + t, size);
    ModStep(u + 1, size);
  }

  lemma RootByResidue(size: nat, num: nat, rings: seq<seq<nat>>, key: nat, op: Op)
    requires 0 < size && 0 < num && RingsOk(size, num, rings)
    ensures var k := Res(size, num, key);
            GetRoot(size, num, rings, key, op) == Place(size, num - 1 - k / size, (size - 1 + k % size) % size)
  {
    Residue(size, num, key);
    SameResidue(size, num, key);
    RootClosed(size, num, rings, key, op);
  }

  /** Every rank is root of exactly one residue of keys modulo the number of ranks. */
  lemma EveryRankRootOnce(size: nat, num: nat, rings: seq<seq<nat>>, op: Op, rank: nat, key: nat)
    requires 0 < size && 0 < num && RingsOk(size, num, rings) && rank < num * size
    ensures GetRoot(size, num, rings, key, op) == rank <==> Res(size, num, key) == KeyOf(size, num, rank)
  {
    RootByResidue(size, num, rings, key, op);
    KeyMeetsRank(size, num, Res(size, num, key), rank);
  }

  lemma KeyMeetsRank(size: nat, num: nat, k: nat, rank: nat)
    requires 0 < size && rank < num * size && k / size < num
    ensures Place(size, num - 1 - k / size, (size - 1 + k % size) % size) == rank <==> k == KeyOf(size, num, rank)
  {
    DivAtLeast(num, size, rank);
    SplitPlace(size, k);
    SplitPlace(size, rank);
    RootMeetsKey(size, num, k / size, k % size, rank / size, rank % size);
  }

  lemma SplitPlace(size: nat, x: nat)
    requires 0 < size
    ensures x == Place(size, x / size, x % size) && x % size < size
  {
  }

  lemma RootMeetsKey(size: nat, num: nat, q: nat, t: nat, sw: nat, u: nat)
    requires q < num && sw < num && t < size && u < size
    ensures Place(size, num - 1 - q, (size - 1 + t) % size) == Place(size, sw, u)
       <==> Place(size, q, t) == Place(size, num - 1 - sw, (u + 1) % size)
  {
    StepBack(size, t, u);
    SamePlace(size, num - 1 - q, (size - 1 + t) % size, sw, u);
    SamePlace(size, q, t, num - 1 - sw, (u + 1) % size);
  }

  /** The residue modulo the number of ranks determines the one modulo the switch size. */
  lemma SameResidue(size: nat, num: nat, key: nat)
    requires 0 < size && 0 < num && 0 < size * num
    ensures key % (size * num) % size == key % size
  {
    var w, k := key / (size * num), key % (size * num);
    Regroup(w, size, num, k / size, k % size);
    DivUnique(key, size, w * num + k / size, k % size);
  }

  lemma Regroup(w: nat, size: nat, num: nat, q: nat, t: nat)
    ensures w * (size * num) + (q * size + t) == (w * num + q) * size + t
  {
    assert w * (size * num) == w * num * size;
  }
}
