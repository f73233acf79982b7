/** `coerce_points` (main.py:73-118): normalises whatever array a generator
    returns into an N×3 point list by reshaping and zero-padding only.

    An array is its shape and its flat, row-major buffer. The buffer is what
    numpy's `reshape`, `ravel` and `hstack` rearrange; no element is ever
    computed from another. */
module Shapes {
  import opened Results

  datatype NdArray = NdArray(shape: seq<nat>, data: seq<real>)

  /** Number of elements an array of the given shape holds (`arr.size`). */
  function Size(shape: seq<nat>): nat
    decreases |shape|
  {
    if shape == [] then 1 else Size(shape[..|shape| - 1]) * shape[|shape| - 1]
  }

  /** What numpy guarantees of every array: the buffer fills the shape. */
  ghost predicate WellShaped(a: NdArray) {
    |a.data| == Size(a.shape)
  }

  /** An N×3 point list. */
  ghost predicate IsPointList(a: NdArray) {
    |a.shape| == 2 && a.shape[1] == 3 && |a.data| == 3 * a.shape[0]
  }

  lemma SizeOfRows(rows: nat, w: nat)
    ensures Size([rows, w]) == rows * w
  {
    assert [rows, w][..1] == [rows];
    assert [rows][..0] == [];
    assert Size([rows]) == Size([]) * rows == rows;
  }

  /** `np.empty((0, 3))`. */
  const EmptyPoints := NdArray([0, 3], [])

  function Zeros(n: nat): (z: seq<real>)
    ensures |z| == n
    ensures forall i :: 0 <= i < n ==> z[i] == 0.0
  {
    seq(n, _ => 0.0)
  }

  lemma RowIndexInRange(k: nat, rows: nat, w: nat)
    requires k < 3 * rows && k % 3 < w
    ensures (k / 3) * w + k % 3 < rows * w
  {
    var q := k / 3;
    assert q + 1 <= rows;
    assert (q + 1) * w <= rows * w by { MulMonotone(q + 1, rows, w); }
  }

  lemma MulMonotone(a: nat, b: nat, w: nat)
    requires a <= b
    ensures a * w <= b * w
  {
  }

  /** Rows of width `w` made into rows of width 3: the first `min(w, 3)`
      values of each row in order, then zeros. This is `hstack` with a zero
      column for `w == 2`, `arr[:, :3]` for `w > 3` and zero padding for
      `w < 3`. */
  function Regrid(data: seq<real>, rows: nat, w: nat): (r: seq<real>)
    requires |data| == rows * w
    ensures |r| == 3 * rows
    ensures forall k :: 0 <= k < |r| ==> r[k] == RegridCell(data, rows, w, k)
  {
    seq(3 * rows, k requires 0 <= k < 3 * rows => RegridCell(data, rows, w, k))
  }

  /** Element `k` of the width-3 buffer: column `k % 3` of row `k / 3`. */
  function RegridCell(data: seq<real>, rows: nat, w: nat, k: nat): real
    requires |data| == rows * w && k < 3 * rows
  {
    if k % 3 < w then
      RowIndexInRange(k, rows, w);
      data[(k / 3) * w + k % 3]
    else 0.0
  }

  /** The first `w` columns of an N×3 buffer, `w <= 3`: undoes `Regrid`. */
  function Narrow(r: seq<real>, rows: nat, w: nat): (d: seq<real>)
    requires |r| == 3 * rows && w <= 3
    ensures |d| == rows * w
  {
    if w == 0 then []
    else
      seq(rows * w, k requires 0 <= k < rows * w =>
        NarrowIndexInRange(k, rows, w); r[(k / w) * 3 + k % w])
  }

  lemma NarrowIndexInRange(k: nat, rows: nat, w: nat)
    requires 0 < w <= 3 && k < rows * w
    ensures (k / w) * 3 + k % w < 3 * rows
  {
    var q := k / w;
    assert q * w <= k;
    assert q < rows by {
      if q >= rows { MulMonotone(rows, q, w); }
    }
    MulMonotone(q + 1, rows, 3);
  }

  /** Widening rows with zeros loses nothing: the original columns come back. */
  lemma NarrowRegrid(data: seq<real>, rows: nat, w: nat)
    requires |data| == rows * w && w <= 3
    ensures Narrow(Regrid(data, rows, w), rows, w) == data
  {
    var r := Regrid(data, rows, w);
    if w > 0 {
      var d := Narrow(r, rows, w);
      forall k | 0 <= k < |data| ensures d[k] == data[k] {
        var q, c := k / w, k % w;
        NarrowIndexInRange(k, rows, w);
        var j := q * 3 + c;
        assert j % 3 == c && j / 3 == q;
        assert q * w + c == k;
      }
    }
  }

  // ---------------------------------------------------------------------
  // The four steps of `coerce_points`, in source order.

  /** main.py:84-85: a grid whose last dimension is 2 or 3 is flattened to
      (rows, last). */
  function FlattenGrid(a: NdArray): (r: NdArray)
    requires WellShaped(a)
    ensures WellShaped(r)
  {
    var n := |a.shape|;
    if n > 2 && a.shape[n - 1] in {2, 3} then
      SizeOfRows(Size(a.shape[..n - 1]), a.shape[n - 1]);
      NdArray([Size(a.shape[..n - 1]), a.shape[n - 1]], a.data)
    else a
  }

  /** main.py:87-98: a 2-D array whose column count is not 2 or 3 has its
      buffer re-read as width 3, else width 2, else zero-padded to width 3. */
  function Reinterpret(a: NdArray): (r: NdArray)
    requires WellShaped(a)
    ensures WellShaped(r)
  {
    if |a.shape| == 2 && a.shape[1] !in {2, 3} then
      var n := |a.data|;
      SizeOfRows(n / 3, 3);
      SizeOfRows(n / 2, 2);
      SizeOfRows((n + 2) / 3, 3);
      if n % 3 == 0 then NdArray([n / 3, 3], a.data)
      else if n % 2 == 0 then NdArray([n / 2, 2], a.data)
      else
        var needed := ((n + 2) / 3) * 3;
        NdArray([(n + 2) / 3, 3], a.data + Zeros(needed - n))
    else a
  }

  /** main.py:100-109: a 1-D array becomes a single row of three values. */
  function Widen1D(a: NdArray): (r: NdArray)
    requires WellShaped(a)
    ensures WellShaped(r)
  {
    if |a.shape| == 1 then
      var n := |a.data|;
      SizeOfRows(1, 3);
      assert a.shape[..0] == [];
      if n == 3 then NdArray([1, 3], a.data)
      else if n == 2 then NdArray([1, 3], a.data + [0.0])
      else if n < 3 then NdArray([1, 3], a.data + Zeros(3 - n))
      else NdArray([1, 3], a.data[..3])
    else a
  }

  /** main.py:110-117: a 2-D array of width other than 3 is made width 3. */
  function WidenColumns(a: NdArray): (r: NdArray)
    requires WellShaped(a)
    ensures WellShaped(r)
  {
    if |a.shape| == 2 && a.shape[1] != 3 then
      assert a.shape == [a.shape[0], a.shape[1]];
      SizeOfRows(a.shape[0], a.shape[1]);
      SizeOfRows(a.shape[0], 3);
      NdArray([a.shape[0], 3], Regrid(a.data, a.shape[0], a.shape[1]))
    else a
  }

  /** The inputs `coerce_points` turns into an N×3 list: one or two
      dimensions, or a grid whose last dimension is 2 or 3. */
  predicate Coercible(shape: seq<nat>) {
    || 1 <= |shape| <= 2
    || (|shape| > 2 && shape[|shape| - 1] in {2, 3})
  }

  /** `coerce_points(points)`; `None` stands for Python's `None`. */
  function Coerce(input: Option<NdArray>): (r: NdArray)
    requires input.Some? ==> WellShaped(input.value)
    ensures WellShaped(r)
    ensures input.None? || |input.value.data| == 0 ==> r == EmptyPoints
    ensures input.Some? && |input.value.data| > 0 && Coercible(input.value.shape) ==>
              IsPointList(r) && r.shape[0] > 0
    ensures input.Some? && |input.value.data| > 0 && !Coercible(input.value.shape) ==>
              r == input.value
  {
    match input
    case None => EmptyPoints
    case Some(a) =>
      if |a.data| == 0 then EmptyPoints
      else
        var r := WidenColumns(Widen1D(Reinterpret(FlattenGrid(a))));
        CoerceSteps(a);
        r
  }

  lemma CoerceSteps(a: NdArray)
    requires WellShaped(a) && |a.data| > 0
    ensures var r := WidenColumns(Widen1D(Reinterpret(FlattenGrid(a))));
            && (Coercible(a.shape) ==> IsPointList(r) && r.shape[0] > 0)
            && (!Coercible(a.shape) ==> r == a)
  {
    var f := FlattenGrid(a);
    var g := Reinterpret(f);
    var h := Widen1D(g);
    var r := WidenColumns(h);
    if Coercible(a.shape) {
      assert 1 <= |f.shape| <= 2;
      assert |g.data| >= |f.data| == |a.data| > 0;
      if |g.shape| == 2 {
        assert g.shape == [g.shape[0], g.shape[1]];
        SizeOfRows(g.shape[0], g.shape[1]);
        assert g.shape[1] in {2, 3};
        assert g.shape[0] > 0;
      }
      assert h.shape == [h.shape[0], h.shape[1]];
      SizeOfRows(h.shape[0], h.shape[1]);
      assert h.shape[0] > 0;
    }
  }

  // ---------------------------------------------------------------------
  // What happens to each kind of input.

  /** An N×3 array is returned unchanged (main.py:110-118). */
  lemma CoerceKeepsPointList(a: NdArray)
    requires WellShaped(a) && |a.shape| == 2 && a.shape[1] == 3
    ensures Coerce(Some(a)) == a
  {
    assert a.shape == [a.shape[0], 3];
    SizeOfRows(a.shape[0], 3);
    if a.data == [] {
      assert a.shape[0] == 0;
      assert a.shape == [0, 3];
    }
  }

  /** An N×2 array gains a zero third coordinate on every row
      (main.py:111-112); dropping that column gives the input back. */
  lemma CoercePadsPairs(a: NdArray)
    requires WellShaped(a) && |a.shape| == 2 && a.shape[1] == 2 && |a.data| > 0
    ensures var n := |a.data| / 2;
            var r := Coerce(Some(a));
            && r.shape == [n, 3] && |r.data| == 3 * n
            && (forall i :: 0 <= i < n ==>
                  r.data[3 * i] == a.data[2 * i] && r.data[3 * i + 1] == a.data[2 * i + 1]
                  && r.data[3 * i + 2] == 0.0)
            && Narrow(r.data, n, 2) == a.data
  {
    var n := a.shape[0];
    assert a.shape == [n, 2];
    SizeOfRows(n, 2);
    var r := Coerce(Some(a));
    assert r == NdArray([n, 3], Regrid(a.data, n, 2));
    forall i | 0 <= i < n
      ensures r.data[3 * i] == a.data[2 * i] && r.data[3 * i + 1] == a.data[2 * i + 1]
              && r.data[3 * i + 2] == 0.0
    {
      assert (3 * i) / 3 == i && (3 * i) % 3 == 0;
      assert (3 * i + 1) / 3 == i && (3 * i + 1) % 3 == 1;
      assert (3 * i + 2) % 3 == 2;
    }
    NarrowRegrid(a.data, n, 2);
  }

  /** A grid (nx, ny, ..., 3) or (nx, ny, ..., 2) keeps its buffer and
      becomes one row per grid cell (main.py:84-85, 111-112). */
  lemma CoerceFlattensGrid(a: NdArray)
    requires WellShaped(a) && |a.shape| > 2 && a.shape[|a.shape| - 1] in {2, 3} && |a.data| > 0
    ensures var cells := |a.data| / a.shape[|a.shape| - 1];
            var r := Coerce(Some(a));
            && r.shape == [cells, 3]
            && (a.shape[|a.shape| - 1] == 3 ==> r.data == a.data)
            && (a.shape[|a.shape| - 1] == 2 ==> r.data == Regrid(a.data, cells, 2))
  {
    var last := a.shape[|a.shape| - 1];
    var cells := Size(a.shape[..|a.shape| - 1]);
    assert |a.data| == cells * last;
    assert |a.data| / last == cells;
    SizeOfRows(cells, last);
  }

  /** A 2-D array of any other width has its buffer re-read: as rows of 3
      when its size divides by 3, else as rows of 2 that gain a zero column,
      else zero-padded to a multiple of 3 (main.py:87-98). */
  lemma CoerceRereadsOtherWidths(a: NdArray)
    requires WellShaped(a) && |a.shape| == 2 && a.shape[1] !in {2, 3} && |a.data| > 0
    ensures var n := |a.data|;
            var r := Coerce(Some(a));
            && (n % 3 == 0 ==> r == NdArray([n / 3, 3], a.data))
            && (n % 3 != 0 && n % 2 == 0 ==> r == NdArray([n / 2, 3], Regrid(a.data, n / 2, 2)))
            && (n % 3 != 0 && n % 2 != 0 ==>
                  r == NdArray([(n + 2) / 3, 3], a.data + Zeros((n + 2) / 3 * 3 - n)))
  {
  }

  /** A 1-D array becomes one row: its first three values, zero-padded
      (main.py:100-109). */
  lemma CoerceMakesOneRow(a: NdArray)
    requires WellShaped(a) && |a.shape| == 1 && |a.data| > 0
    ensures var r := Coerce(Some(a));
            && r.shape == [1, 3]
            && (|a.data| >= 3 ==> r.data == a.data[..3])
            && (|a.data| < 3 ==> r.data == a.data + Zeros(3 - |a.data|))
  {
    if |a.data| == 2 {
      assert [0.0] == Zeros(1);
    }
  }

  /** By the time the width step runs, a 2-D array is 2 or 3 wide, so the
      truncation of wider rows (main.py:113-114) never applies. */
  lemma WidthStepSeesTwoOrThree(a: NdArray)
    requires WellShaped(a) && |a.shape| == 2
    ensures var g := Reinterpret(FlattenGrid(a));
            |g.shape| == 2 && g.shape[1] in {2, 3}
  {
  }

  /** `coerce_points` is idempotent. */
  lemma CoerceIdempotent(input: Option<NdArray>)
    requires input.Some? ==> WellShaped(input.value)
    ensures Coerce(Some(Coerce(input))) == Coerce(input)
  {
    var r := Coerce(input);
    if input.None? || |input.value.data| == 0 {
      CoerceKeepsPointList(r);
    } else if Coercible(input.value.shape) {
      SizeOfRows(r.shape[0], 3);
      CoerceKeepsPointList(r);
    }
  }
}
