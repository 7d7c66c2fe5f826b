/** How the ranks of a machine divide a partition, in bytes as the program computes it and in elements. */
module Slices {
  import opened Arith

  /** Every rank has a share of the elements; or, when a reduce root is set, one rank has them all. */
  datatype Mode = Scatter | ToRoot(root: nat)

  /** `per` elements for each of `ranks` ranks and the last `left` ones for `root`. */
  datatype Layout = Layout(ranks: nat, per: nat, left: nat, root: nat)

  datatype Stretch = Stretch(start: nat, count: nat)

  /** Elements per rank and left over, from the length in bytes. */
  function LayoutOf(mode: Mode, len: nat, unit: nat, ranks: nat): (l: Layout)
    requires 0 < unit && 0 < ranks
    ensures l.per * l.ranks + l.left == len / unit && l.ranks == ranks
    ensures mode.Scatter? ==> l.per == len / unit / ranks && l.left == len / unit % ranks && l.root == ranks - 1
    ensures mode.ToRoot? ==> l.per == 0 && l.left == len / unit && l.root == mode.root
  {
    var whole, per := Quotient(len, unit), Quotient(Quotient(len, ranks), unit);
    EqualShares(len, unit, ranks);
    match mode
    case Scatter => Layout(ranks, per, whole - per * ranks, ranks - 1)
    case ToRoot(root) => assert 0 * ranks == 0; Layout(ranks, 0, whole, root)
  }

  /** Dividing the bytes first or the elements first gives the same share, and less than one element per rank is left. */
  lemma EqualShares(len: nat, unit: nat, ranks: nat)
    requires 0 < unit && 0 < ranks
    ensures var whole, per := Quotient(len, unit), Quotient(Quotient(len, ranks), unit);
            && per * ranks <= whole && per == Quotient(whole, ranks) && whole - per * ranks == Remainder(whole, ranks)
  {
    var whole, per := len / unit, len / ranks / unit;
    ShareFits(per, ranks, unit, len);
    ShareFits(per + 1, ranks, unit, len);
    Distribute(per, 1, ranks);
    DivUnique(whole, ranks, per, whole - per * ranks);
  }

  lemma ShareFits(a: nat, ranks: nat, unit: nat, len: nat)
    requires 0 < unit && 0 < ranks
    ensures a <= len / ranks / unit <==> a * ranks <= len / unit
  {
    DivAtLeast(a, unit, len / ranks);
    DivAtLeast(a * unit, ranks, len);
    DivAtLeast(a * ranks, unit, len);
    assert a * unit * ranks == a * ranks * unit;
  }

  /** What a rank copies between device and host, in bytes. */
  function CopyBytes(mode: Mode, len: nat, unit: nat, ranks: nat, rank: nat): Stretch
    requires 0 < unit && 0 < ranks
  {
    var l := LayoutOf(mode, len, unit, ranks);
    match mode
    case ToRoot(root) => Stretch(0, if root == rank then len else 0)
    case Scatter =>
      Stretch(rank * l.per * unit, l.per * unit + if l.left != 0 && ranks - 1 == rank then l.left * unit else 0)
  }

  /** The elements of a rank. */
  function Slice(l: Layout, rank: nat): Stretch
  {
    Stretch(rank * l.per, l.per + if rank == l.root then l.left else 0)
  }

  predicate Sound(mode: Mode, ranks: nat)
  {
    0 < ranks && (mode.ToRoot? ==> mode.root < ranks)
  }

  /** For a whole number of elements the bytes copied are the rank's elements. */
  lemma CopiesWholeSlice(mode: Mode, n: nat, unit: nat, ranks: nat, rank: nat)
    requires 0 < unit && Sound(mode, ranks)
    ensures var l := LayoutOf(mode, n * unit, unit, ranks);
            var b, s := CopyBytes(mode, n * unit, unit, ranks, rank), Slice(l, rank);
            b.start == s.start * unit && b.count == s.count * unit && l.per * ranks + l.left == n
  {
    DivUnique(n * unit, unit, n, 0);
  }

  /**
   For any length: with a reduce root that rank copies all bytes and the others none. Otherwise the
   ranks copy equal shares of the whole elements in the order of the ranks, and the last one the rest.
   */
  lemma CopiesShare(mode: Mode, len: nat, unit: nat, ranks: nat, rank: nat)
    requires 0 < unit && Sound(mode, ranks)
    ensures var b, share, rest := CopyBytes(mode, len, unit, ranks, rank), len / unit / ranks, len / unit % ranks;
            match mode
            case ToRoot(root) => b == Stretch(0, if rank == root then len else 0)
            case Scatter => b == Stretch(rank * share * unit, (if rank == ranks - 1 then share + rest else share) * unit)
  {
    Distribute(len / unit / ranks, len / unit % ranks, unit);
  }

  /** The rank that has element `j`. */
  function Owner(l: Layout, j: nat): nat
  {
    if l.per != 0 && j < l.per * l.ranks then j / l.per else l.root
  }

  predicate Within(s: Stretch, j: nat)
  {
    s.start <= j < s.start + s.count
  }

  lemma OwnerInRange(mode: Mode, len: nat, unit: nat, ranks: nat, j: nat)
    requires 0 < unit && Sound(mode, ranks)
    ensures Owner(LayoutOf(mode, len, unit, ranks), j) < ranks
  {
    var l := LayoutOf(mode, len, unit, ranks);
    if l.per != 0 && j < l.per * l.ranks {
      DivAtLeast(ranks, l.per, j);
    }
  }

  /** The slices tile the partition: every element is in exactly one of them, and they reach no further. */
  lemma SlicesTile(mode: Mode, len: nat, unit: nat, ranks: nat, rank: nat, j: nat)
    requires 0 < unit && Sound(mode, ranks) && rank < ranks
    ensures var l := LayoutOf(mode, len, unit, ranks);
            Within(Slice(l, rank), j) <==> j < len / unit && rank == Owner(l, j)
  {
    var l := LayoutOf(mode, len, unit, ranks);
    MulMono(rank + 1, ranks, l.per);
    assert (rank + 1) * l.per == rank * l.per + l.per;
    if l.per != 0 {
      DivAtLeast(rank, l.per, j);
      DivAtLeast(rank + 1, l.per, j);
      DivAtLeast(ranks, l.per, j);
    }
  }

  // ---------------------------------------------------------------------------
  // Partition size

  function DivUp(x: nat, y: nat): nat
    requires 0 < y
  {
    (x + y - 1) / y
  }

  function RoundUp(x: nat, y: nat): nat
    requires 0 < y
  {
    DivUp(x, y) * y
  }

  /** The least multiple that is not smaller. */
  lemma RoundUpLeast(x: nat, y: nat, k: nat)
    requires 0 < y
    ensures x <= RoundUp(x, y) < x + y && RoundUp(x, y) % y == 0
    ensures x <= k * y ==> RoundUp(x, y) <= k * y
  {
    var q := DivUp(x, y);
    assert q * y <= x + y - 1 < (q + 1) * y;
    assert (q + 1) * y == q * y + y;
    DivUnique(q * y, y, q, 0);
    DivAtLeast(k + 1, y, x + y - 1);
    assert (k + 1) * y == k * y + y;
    if q <= k {
      MulMono(q, k, y);
    }
  }

  /** Partitions of full size leave nothing over, for every element width that divides the page size. */
  lemma FullPartitionEven(bytes: nat, ranks: nat, page: nat, unit: nat)
    requires 0 < ranks && 0 < unit && 0 < page && page % unit == 0
    ensures 0 < ranks * page
    ensures LayoutOf(Scatter, RoundUp(bytes, ranks * page), unit, ranks).left == 0
    ensures RoundUp(bytes, ranks * page) % unit == 0
  {
    var k, u := DivUp(bytes, ranks * page), page / unit;
    var len := RoundUp(bytes, ranks * page);
    assert page == u * unit;
    Regroup(k, ranks, u, unit);
    assert len == k * u * ranks * unit;
    DivUnique(len, unit, k * u * ranks, 0);
    ShareFits(k * u, ranks, unit, len);
    MulMono(k * u, len / ranks / unit, ranks);
  }

  lemma Regroup(k: nat, ranks: nat, u: nat, unit: nat)
    ensures k * (ranks * (u * unit)) == k * u * ranks * unit
  {
    assert ranks * (u * unit) == u * ranks * unit;
    assert k * (u * ranks * unit) == k * (u * ranks) * unit;
    assert k * (u * ranks) == k * u * ranks;
  }
}
