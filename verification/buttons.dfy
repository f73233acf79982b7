/** The on-screen touch buttons (main.py:336-358) and the hit test that turns
    a touch into a button (main.py:386-396). All arithmetic is on integers:
    the screen size, the button sizes and the touch position. */
module Buttons {
  import opened Results

  /** The buttons, in the order the layout dictionary declares them. */
  datatype Button =
    | PrevScene | NextScene | EditMode | AutoRotate | Zoom
    | Save | Load | Presets | Help

  /** `(x, y, w, h)`. */
  datatype Rect = Rect(x: int, y: int, w: int, h: int)

  /** Inclusive containment: a point on any edge is inside. */
  predicate Contains(r: Rect, px: int, py: int) {
    r.x <= px <= r.x + r.w && r.y <= py <= r.y + r.h
  }

  function Max(a: int, b: int): int {
    if a < b then b else a
  }

  /** The sizes shared by every button for a `width` x `height` screen. */
  datatype Metrics = Metrics(bw: int, bh: int, m: int, bottom: int, second: int)

  /** Each size is the screen share `height / 20`, `width / 10` or
      `width / 80`, but never below 40, 80 or 5 pixels. */
  function MetricsFor(width: int, height: int): (k: Metrics)
    ensures k.bw >= 80 && k.bh >= 40 && k.m >= 5
    ensures k.bh >= height / 20 && (k.bh == 40 || k.bh == height / 20)
    ensures k.bw >= width / 10 && (k.bw == 80 || k.bw == width / 10)
    ensures k.m >= width / 80 && (k.m == 5 || k.m == width / 80)
    ensures k.bw * 10 <= Max(800, width) && k.m * 80 <= Max(400, width)
    ensures k.bottom + k.bh + k.m == height
    ensures k.second + k.bh + k.m == k.bottom
  {
    var bh := Max(40, height / 20);
    var bw := Max(80, width / 10);
    var m := Max(5, width / 80);
    Metrics(bw, bh, m, height - bh - m, height - 2 * (bh + m))
  }

  /** `get_button_layout()` for a `width` x `height` screen: each button with
      its rectangle, in declaration order. */
  function Layout(width: int, height: int): (r: seq<(Button, Rect)>)
    ensures |r| == 9
    ensures forall i, j :: 0 <= i < j < |r| ==> r[i].0 != r[j].0
  {
    var k := MetricsFor(width, height);
    var bw, bh, m := k.bw, k.bh, k.m;
    [ (PrevScene, Rect(m, k.bottom, bw, bh)),
      (NextScene, Rect(m + bw + m, k.bottom, bw, bh)),
      (EditMode, Rect(width - bw - m, k.bottom, bw, bh)),
      (AutoRotate, Rect(width - 2 * (bw + m), k.bottom, bw, bh)),
      (Zoom, Rect(width - 3 * (bw + m), k.bottom, bw, bh)),
      (Save, Rect(m, k.second, bw, bh)),
      (Load, Rect(m + bw + m, k.second, bw, bh)),
      (Presets, Rect(width - bw - m, k.second, bw, bh)),
      (Help, Rect(width - 2 * (bw + m), k.second, bw, bh)) ]
  }

  /** The two rows stack up from the bottom edge, a margin under each row,
      and every button has the same size. */
  lemma RowsStackUp(width: int, height: int)
    ensures var k := MetricsFor(width, height);
            var l := Layout(width, height);
            && (forall i :: 0 <= i < 5 ==> l[i].1.y + l[i].1.h + k.m == height)
            && (forall i :: 5 <= i < 9 ==> l[i].1.y + l[i].1.h + k.m == l[0].1.y)
            && (forall i :: 0 <= i < 9 ==> l[i].1.w == k.bw && l[i].1.h == k.bh)
  {
  }

  /** The bottom row holds, left to right, Prev and Next at the left edge
      and Zoom, AutoRotate and EditMode at the right edge; the second row
      holds Save and Load at the left and Help and Presets at the right.
      Neighbours are one margin apart, and so are the outer buttons and the
      screen edges. From 500 pixels wide the left and right groups do not
      meet. */
  lemma RowsRunLeftToRight(width: int, height: int)
    requires width >= 500
    ensures var k := MetricsFor(width, height);
            var l := Layout(width, height);
            && l[0].0 == PrevScene && l[1].0 == NextScene && l[4].0 == Zoom
            && l[3].0 == AutoRotate && l[2].0 == EditMode
            && l[5].0 == Save && l[6].0 == Load && l[8].0 == Help && l[7].0 == Presets
            && l[0].1.x == k.m && l[0].1.x + k.bw + k.m == l[1].1.x
            && l[1].1.x + k.bw < l[4].1.x
            && l[4].1.x + k.bw + k.m == l[3].1.x && l[3].1.x + k.bw + k.m == l[2].1.x
            && l[2].1.x + k.bw + k.m == width
            && l[5].1.x == k.m && l[5].1.x + k.bw + k.m == l[6].1.x
            && l[6].1.x + k.bw < l[8].1.x
            && l[8].1.x + k.bw + k.m == l[7].1.x && l[7].1.x + k.bw + k.m == width
  {
    WideEnough(width, MetricsFor(width, height));
  }

  /** The first button of `buttons` whose rectangle holds the point. */
  function FirstHit(buttons: seq<(Button, Rect)>, px: int, py: int): (r: Option<nat>)
    ensures r.None? <==> forall i :: 0 <= i < |buttons| ==> !Contains(buttons[i].1, px, py)
    ensures r.Some? ==> r.value < |buttons| && Contains(buttons[r.value].1, px, py)
    ensures r.Some? ==> forall i :: 0 <= i < r.value ==> !Contains(buttons[i].1, px, py)
    decreases |buttons|
  {
    if buttons == [] then None
    else if Contains(buttons[0].1, px, py) then Some(0)
    else match FirstHit(buttons[1..], px, py)
      case None => None
      case Some(i) => Some(i + 1)
  }

  /** `handle_touch_input`: the first button, in declaration order, whose
      rectangle holds the touch, or `None`. */
  function HitTest(width: int, height: int, px: int, py: int): (r: Option<Button>)
    ensures r.None? <==> forall i :: 0 <= i < 9 ==> !Contains(Layout(width, height)[i].1, px, py)
    ensures r.Some? ==> exists i :: 0 <= i < 9 && Layout(width, height)[i].0 == r.value
                                   && Contains(Layout(width, height)[i].1, px, py)
                                   && forall j :: 0 <= j < i ==> !Contains(Layout(width, height)[j].1, px, py)
  {
    var l := Layout(width, height);
    match FirstHit(l, px, py)
    case None => None
    case Some(i) => Some(l[i].0)
  }

  /** No point lies in two rectangles. */
  predicate Apart(a: Rect, b: Rect) {
    a.x + a.w < b.x || b.x + b.w < a.x || a.y + a.h < b.y || b.y + b.h < a.y
  }

  /** From 500 pixels wide, no two buttons overlap, edges included: the two
      rows are a margin apart, and within a row the left group and the right
      group leave a gap between them. */
  lemma ButtonsApart(width: int, height: int)
    requires width >= 500
    ensures var l := Layout(width, height);
            forall i, j :: 0 <= i < j < 9 ==> Apart(l[i].1, l[j].1)
  {
    var k := MetricsFor(width, height);
    WideEnough(width, k);
  }

  lemma WideEnough(width: int, k: Metrics)
    requires width >= 500
    requires k.bw >= 80 && k.m >= 5
    requires k.bw * 10 <= Max(800, width) && k.m * 80 <= Max(400, width)
    ensures 2 * k.m + 2 * k.bw < width - 3 * (k.bw + k.m)
  {
    if width < 800 {
      assert k.bw == 80;
    }
  }

  /** Once buttons cannot overlap, the hit test finds the one button holding
      the point, whatever the declaration order. */
  lemma HitIsUnique(width: int, height: int, px: int, py: int, i: nat)
    requires width >= 500 && i < 9
    requires Contains(Layout(width, height)[i].1, px, py)
    ensures HitTest(width, height, px, py) == Some(Layout(width, height)[i].0)
  {
    var l := Layout(width, height);
    ButtonsApart(width, height);
    var r := HitTest(width, height, px, py);
    var j :| 0 <= j < 9 && l[j].0 == r.value && Contains(l[j].1, px, py)
             && forall q :: 0 <= q < j ==> !Contains(l[q].1, px, py);
    assert !Apart(l[i].1, l[j].1) && !Apart(l[j].1, l[i].1);
  }

  /** On the default 800 x 600 window. */
  lemma DefaultWindow()
    ensures Layout(800, 600)[0] == (PrevScene, Rect(10, 550, 80, 40))
    ensures Layout(800, 600)[4] == (Zoom, Rect(530, 550, 80, 40))
    ensures Layout(800, 600)[7] == (Presets, Rect(710, 500, 80, 40))
    ensures HitTest(800, 600, 50, 560) == Some(PrevScene)
    ensures HitTest(800, 600, 400, 300) == None
  {
  }
}
