/** How a tensor is cut into partitions, and the keys the partitions travel under. */
module Partitions {
  import opened Arith
  import opened Slices

  datatype Part = Part(offset: nat, len: nat)

  /** The `i`-th partition in closed form. */
  function PartAt(size: nat, bound: nat, i: nat): Part
    requires 0 < bound && i * bound < size
  {
    Part(i * bound, if size - i * bound > bound then bound else size - i * bound)
  }

  /** The partitions of a tensor of `size` bytes, one after the other. */
  predicate Cuts(size: nat, bound: nat, parts: seq<Part>)
  {
    && (forall i :: 0 <= i < |parts| ==> 0 < parts[i].len <= bound)
    && (forall i :: 0 <= i < |parts| ==> parts[i].offset == if i == 0 then 0 else parts[i - 1].offset + parts[i - 1].len)
    && End(parts) == size
  }

  function End(parts: seq<Part>): nat
  {
    if parts == [] then 0 else parts[|parts| - 1].offset + parts[|parts| - 1].len
  }

  method PartitionTensor(size: nat, bound: nat) returns (parts: seq<Part>)
    requires 0 < bound
    ensures Cuts(size, bound, parts) && |parts| == DivUp(size, bound)
    ensures forall i :: 0 <= i < |parts| ==> i * bound < size && parts[i] == PartAt(size, bound, i)
  {
    var accumulated := 0;
    parts := [];
    while accumulated < size
      invariant accumulated == End(parts) <= size
      invariant accumulated < size ==> accumulated == |parts| * bound
      invariant accumulated == size ==> |parts| == DivUp(size, bound) || size == 0
      invariant forall i :: 0 <= i < |parts| ==> i * bound < size && parts[i] == PartAt(size, bound, i)
    {
      var len := if size - accumulated > bound then bound else size - accumulated;
      LastPart(size, bound, |parts|);
      assert Part(accumulated, len) == PartAt(size, bound, |parts|);
      parts := parts + [Part(accumulated, len)];
      accumulated := accumulated + len;
    }
    if size == 0 {
      DivUnique(bound - 1, bound, 0, bound - 1);
    }
    ClosedCuts(size, bound, parts);
  }

  lemma ClosedCuts(size: nat, bound: nat, parts: seq<Part>)
    requires 0 < bound && End(parts) == size
    requires forall i :: 0 <= i < |parts| ==> i * bound < size && parts[i] == PartAt(size, bound, i)
    ensures Cuts(size, bound, parts)
  {
    forall i | 0 < i < |parts| ensures parts[i].offset == parts[i - 1].offset + parts[i - 1].len {
      assert i * bound == (i - 1) * bound + bound;
    }
  }

  /** The partition that reaches the end is the last of the rounded-up quotient. */
  lemma LastPart(size: nat, bound: nat, n: nat)
    requires 0 < bound && n * bound < size
    ensures (n + 1) * bound == n * bound + bound
    ensures size - n * bound <= bound ==> DivUp(size, bound) == n + 1
  {
    if size - n * bound <= bound {
      DivUnique(size + bound - 1, bound, n + 1, size - n * bound - 1);
    }
  }

  /** As many keys as partitions, counted up from the tensor's own. */
  method InitKeys(declared: nat, size: nat, bound: nat) returns (keys: seq<nat>)
    requires 0 < bound
    ensures |keys| == DivUp(size, bound)
    ensures forall i :: 0 <= i < |keys| ==> keys[i] == KeyFor(declared, i) == declared * 0x1_0000 + i
  {
    var accumulated := 0;
    var key := declared * 0x1_0000;
    keys := [];
    while accumulated < size
      invariant accumulated <= size && key == declared * 0x1_0000 + |keys|
      invariant accumulated < size ==> accumulated == |keys| * bound
      invariant accumulated == size ==> |keys| == DivUp(size, bound)
      invariant forall i :: 0 <= i < |keys| ==> keys[i] == KeyFor(declared, i)
    {
      LastPart(size, bound, |keys|);
      keys := keys + [key];
      key := key + 1;
      accumulated := accumulated + if size - accumulated > bound then bound else size - accumulated;
    }
    if size == 0 {
      DivUnique(bound - 1, bound, 0, bound - 1);
    }
  }

  /** Every byte lies in exactly one partition. */
  lemma EveryByteOnce(size: nat, bound: nat, b: nat, i: nat)
    requires 0 < bound && b < size && i * bound < size
    ensures b / bound * bound < size
    ensures PartAt(size, bound, i).offset <= b < PartAt(size, bound, i).offset + PartAt(size, bound, i).len
       <==> i == b / bound
  {
    var q := b / bound;
    assert q * bound <= b < (q + 1) * bound;
    DivAtLeast(i, bound, b);
    DivAtLeast(i + 1, bound, b);
    assert (i + 1) * bound == i * bound + bound;
  }

  /** With a bound that is a multiple of the element width no partition cuts an element. */
  lemma WholeElements(n: nat, unit: nat, bound: nat, i: nat)
    requires 0 < unit && 0 < bound && bound % unit == 0 && i * bound < n * unit
    ensures PartAt(n * unit, bound, i).len % unit == 0
  {
    var u := bound / unit;
    assert bound == u * unit;
    assert i * (u * unit) == i * u * unit;
    DivUnique(bound, unit, u, 0);
    var rest := n * unit - i * bound;
    assert rest == (n - i * u) * unit;
    assert 0 <= n - i * u;
    DivUnique(rest, unit, n - i * u, 0);
  }

  /** Every partition fits the credits of a scheduled queue. */
  lemma PartFitsCredits(size: nat, bound: nat, credit: nat, i: nat)
    requires 0 < bound && i * bound < size && 0 < credit
    ensures PartAt(size, bound, i).len <= bound * credit
  {
    MulMono(1, credit, bound);
  }

  // ---------------------------------------------------------------------------
  // Keys

  function KeyFor(declared: nat, part: nat): nat
  {
    declared * 0x1_0000 + part
  }

  /** Two tensors of `n` and `m` partitions share no key exactly when the first ends before the second begins. */
  lemma KeysDisjoint(t: nat, n: nat, u: nat, m: nat)
    requires t < u && 0 < n && 0 < m
    ensures (forall i: nat, j: nat :: i < n && j < m ==> KeyFor(t, i) != KeyFor(u, j)) <==> n <= (u - t) * 0x1_0000
  {
    var gap := (u - t) * 0x1_0000;
    assert KeyFor(u, 0) == KeyFor(t, gap);
    if gap < n {
      assert !(forall i: nat, j: nat :: i < n && j < m ==> KeyFor(t, i) != KeyFor(u, j));
    }
  }

  /** Up to 2^16 partitions per tensor, keys determine tensor and partition. */
  lemma KeysDistinct(t: nat, i: nat, u: nat, j: nat)
    requires i < 0x1_0000 && j < 0x1_0000
    ensures KeyFor(t, i) == KeyFor(u, j) <==> t == u && i == j
  {
  }

  /** One partition more and a key is used twice. */
  lemma TooManyPartitionsCollide(t: nat)
    ensures KeyFor(t, 0x1_0000) == KeyFor(t + 1, 0)
  {
  }

  /** The part of the key space of one server. */
  datatype Range = Range(begin: nat, end: nat)

  predicate Disjoint(ranges: seq<Range>)
  {
    forall a, b :: 0 <= a < b < |ranges| ==> ranges[a].end <= ranges[b].begin || ranges[b].end <= ranges[a].begin
  }

  datatype PSKV = PSKV(wire: nat, len: nat)

  function DecodeKey(ranges: seq<Range>, server: nat, wire: nat): int
    requires server < |ranges|
  {
    wire - ranges[server].begin
  }

  class KeyEncoder {
    const ranges: seq<Range>
    const hash: nat -> nat
    var kv: map<nat, PSKV>
    var load: seq<nat>

    /** Every key was sent to the server its hash names, inside that server's range. */
    ghost predicate Valid()
      reads this
    {
      && 0 < |ranges| == |load| && Disjoint(ranges)
      && forall k :: k in kv ==> kv[k].wire == ranges[hash(k) % |ranges|].begin + k < ranges[hash(k) % |ranges|].end
    }

    constructor (ranges: seq<Range>, hash: nat -> nat)
      requires 0 < |ranges| && Disjoint(ranges)
      ensures Valid() && kv == map[] && this.ranges == ranges && this.hash == hash
    {
      this.ranges, this.hash, kv, load := ranges, hash, map[], seq(|ranges|, _ => 0);
    }

    /** The wire key of a key; a key beyond the server's range is a failed check. */
    method EncodeDefaultKey(key: nat, len: nat) returns (ok: bool, r: PSKV)
      requires Valid()
      modifies this
      ensures Valid() && ok == (key in old(kv) || ranges[hash(key) % |ranges|].begin + key < ranges[hash(key) % |ranges|].end)
      ensures ok ==> key in kv && r == kv[key] && (len > 0 || key !in old(kv) ==> r.len == len)
      ensures ok ==> r.wire == ranges[hash(key) % |ranges|].begin + key
      ensures forall k :: k != key ==> (k in kv <==> k in old(kv)) && (k in kv ==> kv[k] == old(kv)[k])
      ensures !ok || (len == 0 && key in old(kv)) ==> kv == old(kv)
      ensures var server := hash(key) % |ranges|;
              load == if key in old(kv) then old(load) else old(load)[server := old(load)[server] + len]
    {
      ok, r := true, PSKV(0, 0);
      if key in kv {
        if len > 0 && kv[key].len != len {
          kv := kv[key := PSKV(kv[key].wire, len)];
        }
        r := kv[key];
      } else {
        var server := hash(key) % |ranges|;
        load := load[server := load[server] + len];
        var wire := ranges[server].begin + key;
        if wire < ranges[server].end {
          r := PSKV(wire, len);
          kv := kv[key := r];
        } else {
          ok := false;
        }
      }
    }

    /** Different keys have different wire keys, and the server that is asked gets the key back. */
    lemma WireKeysDistinct(a: nat, b: nat)
      requires Valid() && a in kv && b in kv
      ensures kv[a].wire == kv[b].wire <==> a == b
      ensures DecodeKey(ranges, hash(a) % |ranges|, kv[a].wire) == a
    {
      var sa, sb := hash(a) % |ranges|, hash(b) % |ranges|;
      assert sa == sb || sa < sb || sb < sa;
    }
  }

  /** Whole tensors to the wire: distinct partitions of distinct tensors travel under distinct keys, whatever the hash. */
  lemma PartitionsOnTheWire(ranges: seq<Range>, hash: nat -> nat, t: nat, i: nat, u: nat, j: nat)
    requires Disjoint(ranges) && 0 < |ranges| && i < 0x1_0000 && j < 0x1_0000
    requires var a, b := ranges[hash(KeyFor(t, i)) % |ranges|], ranges[hash(KeyFor(u, j)) % |ranges|];
             a.begin + KeyFor(t, i) < a.end && b.begin + KeyFor(u, j) < b.end
    ensures var a, b := ranges[hash(KeyFor(t, i)) % |ranges|], ranges[hash(KeyFor(u, j)) % |ranges|];
            a.begin + KeyFor(t, i) == b.begin + KeyFor(u, j) <==> t == u && i == j
  {
    KeysDistinct(t, i, u, j);
    var a, b := hash(KeyFor(t, i)) % |ranges|, hash(KeyFor(u, j)) % |ranges|;
    assert a == b || a < b || b < a;
  }
}
