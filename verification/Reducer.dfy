/** The loops that add and copy received buffers. */
module Reducer {

  function Zip<T>(add: (T, T) -> T, a: seq<T>, b: seq<T>): (r: seq<T>)
    ensures |r| == if |a| < |b| then |a| else |b|
    ensures forall i :: 0 <= i < |r| ==> r[i] == add(a[i], b[i])
  {
    seq(if |a| < |b| then |a| else |b|, i requires 0 <= i < |a| && i < |b| => add(a[i], b[i]))
  }

  /** Adds the source into the destination, element by element; `len` and `width` are in bytes. */
  method Sum<T>(add: (T, T) -> T, dst: array<T>, src: array<T>, len: nat, width: nat)
    requires 0 < width && len / width <= dst.Length && len / width <= src.Length
    modifies dst
    ensures dst[..len / width] == Zip(add, old(dst[..len / width]), old(src[..len / width]))
    ensures dst[len / width..] == old(dst[len / width..])
  {
    var n := len / width;
    for i := 0 to n
      invariant forall j :: 0 <= j < i ==> dst[j] == add(old(dst[j]), old(src[j]))
      invariant forall j :: i <= j < dst.Length ==> dst[j] == old(dst[j])
      invariant forall j :: i <= j < src.Length ==> src[j] == old(src[j])
    {
      dst[i] := add(dst[i], src[i]);
    }
  }

  /** Copies `len` bytes: whole words of four, then what is left. */
  method Copy(dst: array<bv8>, src: array<bv8>, len: nat)
    requires len <= dst.Length && len <= src.Length
    modifies dst
    ensures dst[..len] == old(src[..len]) && dst[len..] == old(dst[len..])
  {
    for i := 0 to len / 4
      invariant forall j :: 0 <= j < 4 * i ==> dst[j] == old(src[j])
      invariant forall j :: 4 * i <= j < dst.Length ==> dst[j] == old(dst[j])
      invariant forall j :: 4 * i <= j < src.Length ==> src[j] == old(src[j])
    {
      dst[4 * i], dst[4 * i + 1], dst[4 * i + 2], dst[4 * i + 3] :=
        src[4 * i], src[4 * i + 1], src[4 * i + 2], src[4 * i + 3];
    }
    var whole := len / 4 * 4;
    for i := whole to len
      invariant forall j :: 0 <= j < i ==> dst[j] == old(src[j])
      invariant forall j :: i <= j < dst.Length ==> dst[j] == old(dst[j])
      invariant forall j :: i <= j < src.Length ==> src[j] == old(src[j])
    {
      dst[i] := src[i];
    }
  }

  ghost predicate Associative<T(!new)>(add: (T, T) -> T)
  {
    forall x, y, z :: add(add(x, y), z) == add(x, add(y, z))
  }

  ghost predicate Commutative<T(!new)>(add: (T, T) -> T)
  {
    forall x, y :: add(x, y) == add(y, x)
  }

  /** Adding buffers inherits the laws of adding elements, so the order of the pushes does not matter where it does not for elements. */
  lemma ZipLaws<T(!new)>(add: (T, T) -> T, a: seq<T>, b: seq<T>, c: seq<T>)
    requires Associative(add) && Commutative(add)
    ensures Zip(add, Zip(add, a, b), c) == Zip(add, a, Zip(add, b, c))
    ensures Zip(add, a, b) == Zip(add, b, a)
  {
  }
}
