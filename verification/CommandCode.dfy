/** Request type and data type of a message, packed into one number by Cantor's pairing. */
module CommandCode {

  function GetCommandType(request: nat, dtype: nat): nat
  {
    (request + dtype) * (request + dtype + 1) / 2 + dtype
  }

  /** The integer square root, rounded down. */
  function Sqrt(n: nat): (r: nat)
    ensures r * r <= n < (r + 1) * (r + 1)
  {
    if n == 0 then 0
    else
      var r := Sqrt(n - 1);
      if (r + 1) * (r + 1) <= n then r + 1 else r
  }

  function Triangle(w: nat): nat
  {
    (w * w + w) / 2
  }

  datatype DataHandleType = DataHandleType(request: int, dtype: int)

  /** Rounded down, with an exact square root. */
  function Diagonal(cmd: nat): nat
  {
    (Sqrt(8 * cmd + 1) - 1) / 2
  }

  function DepairDataHandleType(cmd: nat): DataHandleType
  {
    var w := Diagonal(cmd);
    var y := cmd - Triangle(w);
    DataHandleType(w - y, y)
  }

  lemma {:induction false} TriangleEven(w: nat)
    ensures (w * w + w) % 2 == 0
  {
    if w > 0 {
      TriangleEven(w - 1);
      var before := (w - 1) * (w - 1) + (w - 1);
      assert w * w + w == before + 2 * w;
    }
  }

  /** Twice the triangle number, without division. */
  lemma TriangleValue(w: nat)
    ensures 2 * Triangle(w) == w * w + w
    ensures Triangle(w + 1) == Triangle(w) + w + 1
  {
    TriangleEven(w);
    TriangleEven(w + 1);
    assert (w + 1) * (w + 1) + (w + 1) == w * w + w + 2 * (w + 1);
  }

  lemma {:induction false} TriangleMonotone(a: nat, b: nat)
    requires a <= b
    ensures Triangle(a) <= Triangle(b)
  {
    if a < b {
      TriangleMonotone(a, b - 1);
      TriangleValue(b - 1);
    }
  }

  lemma DiagonalBounds(cmd: nat, r: nat, w: nat)
    requires r * r <= 8 * cmd + 1 < (r + 1) * (r + 1) && 2 * w + 1 <= r <= 2 * w + 2
    ensures w * w + w <= 2 * cmd < (w + 1) * (w + 1) + (w + 1)
  {
    SquareBelow(2 * w + 1, r);
    SquareBelow(r + 1, 2 * w + 3);
    assert (2 * w + 1) * (2 * w + 1) == 4 * (w * w + w) + 1;
    assert (2 * w + 3) * (2 * w + 3) == 4 * ((w + 1) * (w + 1) + (w + 1)) + 1;
  }

  /** The square root finds the last triangle number that is not above the code. */
  lemma DiagonalOf(cmd: nat)
    ensures Triangle(Diagonal(cmd)) <= cmd < Triangle(Diagonal(cmd) + 1)
  {
    var w := Diagonal(cmd);
    DiagonalBounds(cmd, Sqrt(8 * cmd + 1), w);
    TriangleValue(w);
    TriangleValue(w + 1);
  }

  lemma SquareBelow(a: nat, b: nat)
    requires a <= b
    ensures a * a <= b * b
  {
    assert a * a <= a * b <= b * b;
  }

  lemma DiagonalUnique(cmd: nat, w: nat, v: nat)
    requires Triangle(w) <= cmd < Triangle(w + 1) && Triangle(v) <= cmd < Triangle(v + 1)
    ensures w == v
  {
    if w < v {
      TriangleMonotone(w + 1, v);
    } else if v < w {
      TriangleMonotone(v + 1, w);
    }
  }

  /** Unpacking a packed pair gives the pair. */
  lemma PairDepair(request: nat, dtype: nat)
    ensures DepairDataHandleType(GetCommandType(request, dtype)) == DataHandleType(request, dtype)
  {
    var v, cmd := request + dtype, GetCommandType(request, dtype);
    assert v * (v + 1) == v * v + v;
    TriangleValue(v);
    DiagonalOf(cmd);
    DiagonalUnique(cmd, Diagonal(cmd), v);
  }

  lemma Packed(w: nat, y: nat)
    requires y <= w
    ensures GetCommandType(w - y, y) == Triangle(w) + y
  {
    assert w * (w + 1) == w * w + w;
  }

  /** Along a diagonal the codes count up with the data type. */
  lemma NextOnDiagonal(request: nat, dtype: nat)
    ensures GetCommandType(request, dtype + 1) == GetCommandType(request + 1, dtype) + 1
  {
    Packed(request + dtype + 1, dtype);
    Packed(request + dtype + 1, dtype + 1);
  }

  /** The end of a diagonal is followed by the beginning of the next; the first pair has code zero. */
  lemma NextDiagonal(w: nat)
    ensures GetCommandType(w + 1, 0) == GetCommandType(0, w) + 1 && GetCommandType(0, 0) == 0
  {
    TriangleValue(w);
    Packed(w + 1, 0);
    Packed(w, w);
    Packed(0, 0);
  }

  /** Every code unpacks into two naturals, and packing them gives the code back. */
  lemma DepairPair(cmd: nat)
    ensures var t := DepairDataHandleType(cmd);
            0 <= t.request && 0 <= t.dtype && GetCommandType(t.request, t.dtype) == cmd
  {
    var w := Diagonal(cmd);
    DiagonalOf(cmd);
    TriangleValue(w);
    Packed(w, cmd - Triangle(w));
  }
}
