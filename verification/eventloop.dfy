/** The state machine of the main loop (main.py:415-747): what one input event
    does to the session. Rendering, the rotation angles and the generators
    are not part of the session; the screen size, the timestamp of a nameless
    save and `float()` on the numeric buffer are given by the environment.

    An exception that the loop does not catch ends the main loop; a step that
    raises one is `Uncaught`. */
module EventLoop {
  import opened Results
  import opened Strings
  import opened Values
  import opened Scenes
  import Presets
  import Buttons

  datatype Key =
    | Return | KpEnter | Backspace | Right | Left | KeyE | Tab | KeyA | KeyZ
    | KeyS | KeyP | KeyD | KeyL | KeyH | Up | Down | OtherKey

  /** Pointer and touch positions are in pixels. A key press carries the text
      it types (`event.unicode`), empty for keys that type nothing. */
  datatype Event =
    | Quit
    | MouseDown(x: int, y: int)
    | MouseUp
    | MouseMotion(x: int, y: int)
    | FingerDown(x: int, y: int)
    | FingerUp
    | FingerMotion(x: int, y: int)
    | KeyDown(key: Key, ch: string)

  /** How the scene is shown: auto-rotation, zoom and the help overlay. */
  datatype View = View(autoRotate: bool, zoom: real, help: bool)

  /** Parameter editing: edit mode, the snapshot of parameter names taken when
      it was switched on and the selected one, the slider, and numeric
      input. */
  datatype Editor = Editor(
    on: bool,
    keys: seq<string>,
    index: nat,
    sliderActive: bool,
    slider: Option<Buttons.Rect>,
    numericMode: bool,
    numericBuf: string)

  /** The preset browser: whether it is open, the listed file names and the
      selected one, and the name, rename and tag inputs. */
  datatype Browser = Browser(
    open: bool,
    list: seq<string>,
    index: nat,
    saveMode: bool,
    saveBuf: string,
    renameMode: bool,
    renameBuf: string,
    tagMode: bool,
    tagBuf: string)

  /** The local variables of `main()` that events change. */
  datatype Session = Session(
    scene: nat,
    scenes: seq<Scene>,
    view: View,
    editor: Editor,
    browser: Browser,
    store: Presets.Store,
    running: bool)

  /** The screen size, the UTC timestamp a nameless preset is saved under, and
      Python's `float()` on the numeric buffer (`None` when it raises). */
  datatype Env = Env(width: int, height: int, stamp: string, parseFloat: string -> Option<real>)

  datatype Outcome = Continue(next: Session) | Uncaught

  /** The session `main()` starts with (main.py:415-452); the index dictionary
      is whatever `index.json` held. */
  function Start(store: Presets.Store): (s: Session)
    ensures s.scene == 0 && s.scenes == Initial && s.store == store && s.running
    ensures !s.editor.on && s.editor.keys == [] && s.view == View(true, 1.0, false)
    ensures !s.browser.open && s.browser.list == [] && s.editor.slider.None?
    ensures !s.editor.numericMode && !s.browser.saveMode && !s.browser.renameMode && !s.browser.tagMode
  {
    Session(0, Initial, View(true, 1.0, false),
            Editor(false, [], 0, false, None, false, ""),
            Browser(false, [], 0, false, "", false, "", false, ""),
            store, true)
  }

  /** What the program's data guarantee by construction: the current scene
      exists, every parameter mapping is a Python dict (distinct keys), and a
      preset file that parses is one JSON object. */
  ghost predicate Sane(s: Session) {
    && s.scene < |s.scenes|
    && (forall i :: 0 <= i < |s.scenes| ==> Valid(s.scenes[i].params))
    && Presets.WellFormed(s.store)
  }

  /** Every listed preset exists and none is listed twice. */
  ghost predicate ListTracksStore(s: Session) {
    && Distinct(s.browser.list)
    && (forall f :: f in s.browser.list ==> f in s.store.files)
  }

  /** What holds in every session reachable from `Start` while only the
      session changes the presets directory: the edit and preset
      selections are inside their lists, the list names existing presets
      once each, the zoom is 1 or 2, and what main.py never switches on (the
      slider, numeric input, renaming, tagging) is off. */
  ghost predicate Inv(s: Session) {
    && Sane(s)
    && (s.editor.keys != [] ==> s.editor.index < |s.editor.keys|)
    && (s.browser.list != [] ==> s.browser.index < |s.browser.list|)
    && ListTracksStore(s)
    && (s.view.zoom == 1.0 || s.view.zoom == 2.0)
    && s.editor.slider.None? && !s.editor.sliderActive && !s.editor.numericMode
    && !s.browser.renameMode && !s.browser.tagMode
  }

  lemma StartInv(store: Presets.Store)
    requires Presets.WellFormed(store)
    ensures Inv(Start(store))
  {
    var s := Start(store);
    forall i | 0 <= i < |s.scenes| ensures Valid(s.scenes[i].params) {
      InitialScene(i);
    }
  }

  /** The current scene's parameters. */
  function Live(s: Session): Params
    requires s.scene < |s.scenes|
  {
    s.scenes[s.scene].params
  }

  /** Replaces the current scene's parameters; nothing else changes. */
  function WithLive(s: Session, p: Params): (r: Session)
    requires s.scene < |s.scenes|
    ensures r.scene == s.scene && r.view == s.view && r.editor == s.editor && r.browser == s.browser
    ensures r.store == s.store && r.running == s.running
    ensures |r.scenes| == |s.scenes| && Live(r) == p
    ensures forall i :: 0 <= i < |s.scenes| && i != s.scene ==> r.scenes[i] == s.scenes[i]
    ensures r.scenes[s.scene].name == s.scenes[s.scene].name
    ensures r.scenes[s.scene].gen == s.scenes[s.scene].gen
  {
    s.(scenes := s.scenes[s.scene := s.scenes[s.scene].(params := p)])
  }

  lemma WithLiveInv(s: Session, p: Params)
    requires Inv(s) && Valid(p)
    ensures Inv(WithLive(s, p))
  {
    var r := WithLive(s, p);
    forall i | 0 <= i < |r.scenes| ensures Valid(r.scenes[i].params) {
      if i != s.scene {
        assert r.scenes[i] == s.scenes[i];
      }
    }
  }

  // ---------------------------------------------------------------------
  // Scene navigation (main.py:495-497, 613-615)

  /** Right, or the Next button: the following scene, the first after the
      last. */
  function NextScene(s: Session): (r: Session)
    requires s.scene < |s.scenes|
    ensures r == s.(scene := r.scene) && r.scene < |s.scenes|
    ensures r.scene == if s.scene + 1 == |s.scenes| then 0 else s.scene + 1
  {
    s.(scene := (s.scene + 1) % |s.scenes|)
  }

  /** Left, or the Prev button: the preceding scene, the last before the
      first (Python's `%` with a positive modulus is never negative). */
  function PrevScene(s: Session): (r: Session)
    requires s.scene < |s.scenes|
    ensures r == s.(scene := r.scene) && r.scene < |s.scenes|
    ensures r.scene == if s.scene == 0 then |s.scenes| - 1 else s.scene - 1
  {
    s.(scene := (s.scene as int - 1) % |s.scenes|)
  }

  lemma NavigationInverse(s: Session)
    requires s.scene < |s.scenes|
    ensures PrevScene(NextScene(s)) == s
    ensures NextScene(PrevScene(s)) == s
  {
  }

  /** Right pressed `n` times. */
  function Forward(s: Session, n: nat): (r: Session)
    requires s.scene < |s.scenes|
    ensures r == s.(scene := r.scene) && r.scene < |s.scenes|
    decreases n
  {
    if n == 0 then s else NextScene(Forward(s, n - 1))
  }

  /** Up to a full round, Right counts scenes up and wraps once. */
  lemma {:induction false} ForwardCounts(s: Session, n: nat)
    requires s.scene < |s.scenes| && n <= |s.scenes|
    ensures Forward(s, n).scene ==
              if s.scene + n < |s.scenes| then s.scene + n else s.scene + n - |s.scenes|
    decreases n
  {
    if n > 0 {
      ForwardCounts(s, n - 1);
    }
  }

  /** One press per scene comes back to where it started. */
  lemma NavigationCycles(s: Session)
    requires s.scene < |s.scenes|
    ensures Forward(s, |s.scenes|) == s
  {
    ForwardCounts(s, |s.scenes|);
  }

  // ---------------------------------------------------------------------
  // Edit mode (main.py:498-501, 616-624, 736-747)

  /** E, or the Edit button: flips edit mode and takes a fresh snapshot of the
      current scene's parameter names, in order, selecting the first. */
  function ToggleEdit(s: Session): (r: Session)
    requires s.scene < |s.scenes|
    ensures r == s.(editor := r.editor)
    ensures r.editor == s.editor.(on := !s.editor.on, keys := Live(s).keys, index := 0)
    ensures Valid(Live(s)) ==> forall k :: k in r.editor.keys <==> k in Live(s).vals
  {
    s.(editor := s.editor.(on := !s.editor.on, index := 0, keys := Live(s).keys))
  }

  /** Tab: selects the next parameter name, wrapping at the end. */
  function NextParam(e: Editor): (r: Editor)
    ensures r == e.(index := r.index)
    ensures e.keys == [] ==> r == e
    ensures e.keys != [] ==> r.index < |e.keys|
    ensures e.keys != [] && e.index < |e.keys| ==>
              r.index == if e.index + 1 == |e.keys| then 0 else e.index + 1
  {
    if e.keys != [] then e.(index := (e.index + 1) % |e.keys|) else e
  }

  /** Tab pressed `n` times. */
  function Tabs(e: Editor, n: nat): (r: Editor)
    ensures r == e.(index := r.index)
    decreases n
  {
    if n == 0 then e else NextParam(Tabs(e, n - 1))
  }

  /** Up to a full round, Tab counts up and wraps once. */
  lemma {:induction false} TabsCount(e: Editor, n: nat)
    requires e.index < |e.keys| && n <= |e.keys|
    ensures Tabs(e, n).index == if e.index + n < |e.keys| then e.index + n else e.index + n - |e.keys|
    decreases n
  {
    if n > 0 {
      TabsCount(e, n - 1);
    }
  }

  /** Pressing Tab once per parameter name comes back to the selected one. */
  lemma TabsCycle(e: Editor)
    requires e.index < |e.keys|
    ensures Tabs(e, |e.keys|) == e
  {
    TabsCount(e, |e.keys|);
  }

  /** Python's `isinstance(v, int)`: a `bool` is an `int`. */
  predicate IntLike(v: Option<Value>) {
    v.Some? && (v.value.Int? || v.value.Bool?)
  }

  /** The integer an int-like value stands for. */
  function IntOf(v: Value): int
    requires v.Int? || v.Bool?
  {
    if v.Int? then v.i else if v.b then 1 else 0
  }

  /** Up or Down on a value: integers (booleans included) move by 1, floats
      by 0.1, anything else is not stepped. */
  function StepValue(v: Value, up: bool): (r: Option<Value>)
    ensures r.Some? <==> v.Int? || v.Bool? || v.Num?
    ensures r.Some? && (v.Int? || v.Bool?) ==>
              r.value.Int? && r.value.i - IntOf(v) == (if up then 1 else -1)
    ensures r.Some? && v.Num? ==> r.value.Num? && r.value.r - v.r == (if up then 0.1 else -0.1)
  {
    var d := if up then 1 else -1;
    match v
    case Int(i) => Some(Int(i + d))
    case Bool(b) => Some(Int((if b then 1 else 0) + d))
    case Num(x) => Some(Num(x + d as real / 10.0))
    case _ => None
  }

  /** Down undoes Up on integers and floats. */
  lemma StepValueInverse(v: Value)
    requires v.Int? || v.Num?
    ensures StepValue(StepValue(v, true).value, false) == Some(v)
    ensures StepValue(StepValue(v, false).value, true) == Some(v)
  {
  }

  /** Up/Down in edit mode (main.py:736-747): the selected parameter, when
      numeric, moves by one step; out of edit mode nothing happens. A stale
      selection raises IndexError. Only the current scene's parameters can
      change. */
  function Adjust(s: Session, up: bool): (r: Outcome)
    requires s.scene < |s.scenes|
    ensures !(s.editor.on && s.editor.keys != []) ==> r == Continue(s)
    ensures r.Uncaught? <==> s.editor.on && s.editor.keys != [] && s.editor.index >= |s.editor.keys|
    ensures r.Continue? ==> |r.next.scenes| == |s.scenes| && r.next == WithLive(s, r.next.scenes[s.scene].params)
  {
    var e := s.editor;
    if !(e.on && e.keys != []) then Continue(s)
    else if e.index >= |e.keys| then Uncaught
    else
      var k := e.keys[e.index];
      match Get(Live(s), k)
      case None => Continue(s)
      case Some(v) =>
        match StepValue(v, up)
        case None => Continue(s)
        case Some(w) => Continue(WithLive(s, Put(Live(s), k, w)))
  }

  /** In edit mode, Up/Down steps the selected parameter when it is numeric
      and leaves every other parameter alone. */
  lemma AdjustSteps(s: Session, up: bool)
    requires s.scene < |s.scenes| && s.editor.on && s.editor.index < |s.editor.keys|
    ensures var r := Adjust(s, up).next;
            var k := s.editor.keys[s.editor.index];
            var v := Get(Live(s), k);
            && (forall j :: j != k ==> Get(Live(r), j) == Get(Live(s), j))
            && (v.Some? && StepValue(v.value, up).Some? ==> Get(Live(r), k) == StepValue(v.value, up))
            && (v.None? || StepValue(v.value, up).None? ==> r == s)
  {
  }

  /** Up then Down leaves an integer or float parameter where it was. */
  lemma AdjustInverse(s: Session)
    requires s.scene < |s.scenes| && Valid(Live(s)) && s.editor.on && s.editor.index < |s.editor.keys|
    requires var v := Get(Live(s), s.editor.keys[s.editor.index]); v.Some? && (v.value.Int? || v.value.Num?)
    ensures Adjust(s, true).Continue? && Adjust(Adjust(s, true).next, false) == Continue(s)
  {
    var k := s.editor.keys[s.editor.index];
    var v := Live(s).vals[k];
    StepValueInverse(v);
    var s1 := Adjust(s, true).next;
    var s2 := Adjust(s1, false).next;
    assert Live(s1) == Put(Live(s), k, StepValue(v, true).value);
    assert Live(s2) == Put(Live(s1), k, v);
    assert Live(s2).vals == Live(s).vals;
    assert s2.scenes == s.scenes;
  }

  lemma AdjustInv(s: Session, up: bool)
    requires Inv(s)
    ensures Adjust(s, up).Continue? && Inv(Adjust(s, up).next)
  {
    var r := Adjust(s, up);
    if r.next != s {
      var k := s.editor.keys[s.editor.index];
      WithLiveInv(s, Put(Live(s), k, StepValue(Live(s).vals[k], up).value));
    }
  }

  /** Z, or the Zoom button. */
  function ToggleZoom(z: real): (r: real)
    ensures r == 1.0 || r == 2.0
    ensures r != z || (z != 1.0 && z != 2.0)
  {
    if z == 1.0 then 2.0 else 1.0
  }

  /** Z twice restores a zoom of 1 or 2. */
  lemma ZoomInvolution(z: real)
    requires z == 1.0 || z == 2.0
    ensures ToggleZoom(ToggleZoom(z)) == z
  {
  }

  // ---------------------------------------------------------------------
  // The slider (main.py:456-482, 536-550)

  function Clamp(x: real): (r: real)
    ensures 0.0 <= r <= 1.0
    ensures 0.0 <= x <= 1.0 ==> r == x
    ensures x < 0.0 ==> r == 0.0
    ensures x > 1.0 ==> r == 1.0
  {
    if x < 0.0 then 0.0 else if x > 1.0 then 1.0 else x
  }

  /** Python's `round` on a float: to the nearest integer, ties to even. */
  function RoundHalfEven(x: real): (r: int)
    ensures -0.5 <= r as real - x <= 0.5
    ensures (r as real - x == 0.5 || x - r as real == 0.5) ==> r % 2 == 0
  {
    var f := x.Floor;
    var d := x - f as real;
    if d < 0.5 then f
    else if d > 0.5 then f + 1
    else if f % 2 == 0 then f
    else f + 1
  }

  /** The two properties above determine the result: any integer within a
      half of `x`, and even when exactly a half away, is `round(x)`. */
  lemma RoundUnique(x: real, n: int)
    requires -0.5 <= n as real - x <= 0.5
    requires (n as real - x == 0.5 || x - n as real == 0.5) ==> n % 2 == 0
    ensures RoundHalfEven(x) == n
  {
    var f := x.Floor;
    var d := x - f as real;
    if d < 0.5 {
      assert n == f;
    } else if d > 0.5 {
      assert n == f + 1;
    } else {
      assert n == f || n == f + 1;
    }
  }

  /** The top of an integer slider: `max(20, 2v + 1)`. */
  function SliderTop(v: Value): (top: int)
    requires v.Int? || v.Bool?
    ensures top >= 20 && top >= 2 * IntOf(v) + 1
    ensures top == 20 || top == 2 * IntOf(v) + 1
  {
    Buttons.Max(20, 2 * IntOf(v) + 1)
  }

  /** The value a slider position gives the selected parameter: an integer in
      `[0, max(20, 2v+1)]` when the parameter is an int, else a float in
      `[-10, 10]`. */
  function SliderValue(v: Option<Value>, ratio: real): (r: Value)
    requires 0.0 <= ratio <= 1.0
    ensures IntLike(v) ==> r.Int? && 0 <= r.i <= SliderTop(v.value)
    ensures IntLike(v) ==> -0.5 <= r.i as real - ratio * SliderTop(v.value) as real <= 0.5
    ensures !IntLike(v) ==> r.Num? && -10.0 <= r.r <= 10.0
    ensures !IntLike(v) ==> r.r == -10.0 + 20.0 * ratio
  {
    if IntLike(v) then
      var top := SliderTop(v.value);
      var x := ratio * top as real;
      Scaled(ratio, top);
      RoundedWithin(x, top);
      Int(RoundHalfEven(x))
    else
      Num(-10.0 + ratio * 20.0)
  }

  lemma Scaled(ratio: real, top: int)
    requires 0.0 <= ratio <= 1.0 && top >= 0
    ensures 0.0 <= ratio * top as real <= top as real
  {
    assert ratio * top as real <= 1.0 * top as real;
  }

  lemma RoundedWithin(x: real, top: int)
    requires 0.0 <= x <= top as real
    ensures 0 <= RoundHalfEven(x) <= top
  {
    var n := RoundHalfEven(x);
    assert -1.0 < n as real < top as real + 1.0;
  }

  /** The ends of an integer slider give its bounds exactly. */
  lemma SliderEnds(v: Value)
    requires v.Int? || v.Bool?
    ensures SliderValue(Some(v), 0.0) == Int(0)
    ensures SliderValue(Some(v), 1.0) == Int(SliderTop(v))
  {
    RoundUnique(0.0, 0);
    RoundUnique(SliderTop(v) as real, SliderTop(v));
  }

  /** Whether a point is on the slider, edges included. */
  predicate OnSlider(e: Editor, x: int, y: int) {
    e.slider.Some? && Buttons.Contains(e.slider.value, x, y)
  }

  /** Where on the slider `mx` is, as a fraction of its width. */
  function Ratio(rect: Buttons.Rect, mx: int): real
    requires rect.w != 0
  {
    Clamp((mx - rect.x) as real / rect.w as real)
  }

  /** A drag to horizontal position `mx`, in or out of edit mode. Unpacking a
      missing rectangle, a zero-width slider and a stale parameter index
      raise; only the current scene's parameters can change. */
  function Drag(s: Session, mx: int): (r: Outcome)
    requires s.scene < |s.scenes|
    ensures r.Uncaught? <==>
              || s.editor.slider.None? || s.editor.slider.value.w == 0
              || (s.editor.keys != [] && s.editor.index >= |s.editor.keys|)
    ensures r.Continue? ==> |r.next.scenes| == |s.scenes| && r.next == WithLive(s, r.next.scenes[s.scene].params)
    ensures r.Continue? && s.editor.keys == [] ==> r.next == s
  {
    var e := s.editor;
    if e.slider.None? || e.slider.value.w == 0 then Uncaught
    else if e.keys == [] then Continue(s)
    else if e.index >= |e.keys| then Uncaught
    else
      var k := e.keys[e.index];
      Continue(WithLive(s, Put(Live(s), k, SliderValue(Get(Live(s), k), Ratio(e.slider.value, mx)))))
  }

  /** A drag sets the selected parameter, even one the scene lacks, and
      leaves the others alone. */
  lemma DragSets(s: Session, mx: int)
    requires s.scene < |s.scenes| && Drag(s, mx).Continue? && s.editor.keys != []
    ensures var r := Drag(s, mx).next;
            var k := s.editor.keys[s.editor.index];
            && Get(Live(r), k) == Some(SliderValue(Get(Live(s), k), Ratio(s.editor.slider.value, mx)))
            && (forall j :: j != k ==> Get(Live(r), j) == Get(Live(s), j))
  {
  }

  // ---------------------------------------------------------------------
  // Text input (main.py:554-606). Numeric input, renaming and tagging are
  // never switched on by main.py; their editing and commits are modelled
  // anyway.

  /** `ch.isdigit() or ch in ".-eE"` on a non-empty `ch` (main.py:573); the
      `in` is a substring test. */
  predicate AcceptNumeric(ch: string) {
    ch != "" && (AllDigits(ch) || ch in Substrings(".-eE"))
  }

  function Substrings(s: string): set<string> {
    set i, j | 0 <= i <= j <= |s| :: s[i..j]
  }

  /** Text the numeric buffer may hold. */
  predicate NumericText(b: string) {
    forall i :: 0 <= i < |b| ==> IsDigit(b[i]) || b[i] in ".-eE"
  }

  lemma AcceptedIsNumeric(ch: string)
    requires AcceptNumeric(ch)
    ensures NumericText(ch)
  {
    if !AllDigits(ch) {
      var i, j :| 0 <= i <= j <= 4 && ".-eE"[i..j] == ch;
      forall k | 0 <= k < |ch| ensures ch[k] in ".-eE" {
        assert ch[k] == ".-eE"[i + k];
      }
    }
  }

  /** Removes the last character, as `buf[:-1]` does. */
  function DropLast(b: string): (r: string)
    ensures b == [] ==> r == []
    ensures b != [] ==> r + [b[|b| - 1]] == b
  {
    if b == [] then [] else b[..|b| - 1]
  }

  /** One key in a text buffer: Backspace deletes, any other key appends what
      it types. */
  function EditBuffer(b: string, key: Key, ch: string): (r: string)
    ensures key == Backspace ==> |r| == if b == [] then 0 else |b| - 1
    ensures key != Backspace ==> r == b + ch
    ensures StartsWith(b, r) || StartsWith(r, b)
  {
    if key == Backspace then
      var r := DropLast(b);
      assert b[..|r|] == r;
      r
    else
      var r := b + ch;
      assert r[..|b|] == b;
      r
  }

  /** Backspace takes back the last character typed. */
  lemma BackspaceUndoes(b: string, key: Key, c: char, ch: string)
    requires key != Backspace
    ensures EditBuffer(EditBuffer(b, key, [c]), Backspace, ch) == b
  {
    var t := b + [c];
    assert t[..|t| - 1] == b;
  }

  /** A key in numeric input: Return commits and leaves numeric input,
      Backspace deletes, other keys append only digits and `.`, `-`, `e`,
      `E`. */
  function NumericKey(s: Session, key: Key, ch: string, env: Env): (r: Session)
    requires s.scene < |s.scenes|
    ensures key == Return ==> !r.editor.numericMode && r.editor.numericBuf == ""
    ensures key == Return ==> var c := NumericCommit(s, env);
                              r == c.(editor := c.editor.(numericMode := false, numericBuf := ""))
    ensures key != Return ==> r.scenes == s.scenes && r.editor == s.editor.(numericBuf := r.editor.numericBuf)
    ensures key != Return && key != Backspace ==>
              r.editor.numericBuf == if AcceptNumeric(ch) then s.editor.numericBuf + ch else s.editor.numericBuf
    ensures key != Return && NumericText(s.editor.numericBuf) ==> NumericText(r.editor.numericBuf)
    ensures r.scene == s.scene && r.view == s.view && r.browser == s.browser && r.store == s.store
    ensures |r.scenes| == |s.scenes|
  {
    var e := s.editor;
    if key == Return then
      var c := NumericCommit(s, env);
      c.(editor := c.editor.(numericMode := false, numericBuf := ""))
    else if key == Backspace then
      s.(editor := e.(numericBuf := DropLast(e.numericBuf)))
    else if AcceptNumeric(ch) then
      AcceptedIsNumeric(ch);
      s.(editor := e.(numericBuf := e.numericBuf + ch))
    else s
  }

  /** Commits numeric input (main.py:556-564): the parsed number goes to the
      selected parameter, rounded to an int if the parameter is an int. A
      buffer that does not parse or a stale selection is caught and changes
      nothing; otherwise only the current scene's parameters change. */
  function NumericCommit(s: Session, env: Env): (r: Session)
    requires s.scene < |s.scenes|
    ensures |r.scenes| == |s.scenes| && r == WithLive(s, r.scenes[s.scene].params)
    ensures env.parseFloat(s.editor.numericBuf).None? || s.editor.index >= |s.editor.keys| ==> r == s
  {
    match env.parseFloat(s.editor.numericBuf)
    case None => s
    case Some(x) =>
      if s.editor.index >= |s.editor.keys| then s
      else
        var k := s.editor.keys[s.editor.index];
        var v := if IntLike(Get(Live(s), k)) then Int(RoundHalfEven(x)) else Num(x);
        WithLive(s, Put(Live(s), k, v))
  }

  /** A committed number lands in the selected parameter, rounded when that
      is an int, and no other parameter changes. */
  lemma NumericCommitSets(s: Session, env: Env)
    requires s.scene < |s.scenes| && env.parseFloat(s.editor.numericBuf).Some?
    requires s.editor.index < |s.editor.keys|
    ensures var r := NumericCommit(s, env);
            var x := env.parseFloat(s.editor.numericBuf).value;
            var k := s.editor.keys[s.editor.index];
            && Get(Live(r), k) == Some(if IntLike(Get(Live(s), k)) then Int(RoundHalfEven(x)) else Num(x))
            && (forall j :: j != k ==> Get(Live(r), j) == Get(Live(s), j))
  {
  }

  // ---------------------------------------------------------------------
  // Presets (main.py:505-530, 630-635, 642-732)

  /** P, or the Presets button: opening the browser lists the current scene's
      presets and selects the first; closing it keeps the list. */
  function ToggleBrowser(s: Session): (r: Session)
    requires s.scene < |s.scenes|
    ensures r == s.(browser := r.browser)
    ensures r.browser.open == !s.browser.open
    ensures !s.browser.open ==>
              r.browser == s.browser.(open := true, list := Presets.List(s.store, s.scene), index := 0)
    ensures s.browser.open ==> r.browser == s.browser.(open := false)
  {
    if s.browser.open then s.(browser := s.browser.(open := false))
    else s.(browser := s.browser.(open := true, list := Presets.List(s.store, s.scene), index := 0))
  }

  /** Opening the browser shows exactly the current scene's presets, each
      once. */
  lemma ToggleBrowserInv(s: Session)
    requires Inv(s)
    ensures Inv(ToggleBrowser(s))
    ensures !s.browser.open ==>
              forall f :: f in ToggleBrowser(s).browser.list <==>
                            f in s.store.files && StartsWith(f, Presets.ScenePrefix(s.scene))
  {
    Presets.ListDistinct(s.store, s.scene);
  }

  /** S, or the Save button: starts naming a new preset. */
  function StartSave(b: Browser): (r: Browser)
    ensures r.saveMode && r.saveBuf == ""
    ensures r == b.(saveMode := true, saveBuf := "")
  {
    b.(saveMode := true, saveBuf := "")
  }

  /** The selection after a save: the last of the list. */
  function LastIndex(l: seq<string>): (i: nat)
    ensures l == [] ==> i == 0
    ensures l != [] ==> i == |l| - 1
  {
    if l == [] then 0 else |l| - 1
  }

  /** Enter while naming a preset (main.py:642-659): saves the current scene's
      parameters, refreshes the list and selects its last entry; a failed save
      is caught. Either way naming ends. */
  function CommitSave(s: Session, env: Env): (r: Session)
    requires s.scene < |s.scenes| && env.stamp != ""
    ensures r.scene == s.scene && r.scenes == s.scenes && r.view == s.view && r.editor == s.editor
    ensures r.running == s.running && !r.browser.saveMode
    ensures var res := Presets.Save(s.store, s.scene, Live(s), s.browser.saveBuf, env.stamp);
            && (res.Err? ==> r == s.(browser := s.browser.(saveMode := false)))
            && (res.Ok? ==>
                  && r.store == res.value
                  && r.browser == s.browser.(saveMode := false, list := Presets.List(r.store, s.scene),
                                             index := LastIndex(r.browser.list)))
  {
    var b := s.browser.(saveMode := false);
    match Presets.Save(s.store, s.scene, Live(s), s.browser.saveBuf, env.stamp)
    case Err(_) => s.(browser := b)
    case Ok(st) =>
      var l := Presets.List(st, s.scene);
      s.(store := st, browser := b.(list := l, index := LastIndex(l)))
  }

  /** Saving keeps the session reachable. */
  lemma CommitSaveInv(s: Session, env: Env)
    requires Inv(s) && env.stamp != ""
    ensures Inv(CommitSave(s, env))
  {
    var b := s.browser;
    var res := Presets.Save(s.store, s.scene, Live(s), b.saveBuf, env.stamp);
    if res.Ok? {
      var r := CommitSave(s, env);
      var f := Presets.PresetFile(s.scene, Presets.SaveName(b.saveBuf, env.stamp));
      Presets.SaveKeepsWellFormed(s.store, f, Live(s));
      Presets.ListDistinct(res.value, s.scene);
      assert r.store == res.value && r.browser.list == Presets.List(res.value, s.scene);
    } else {
      BrowserInv(s, b.(saveMode := false));
    }
  }

  /** A save that succeeds is listed, and the selection is inside the
      list. */
  lemma CommitSaveLists(s: Session, env: Env)
    requires s.scene < |s.scenes| && env.stamp != ""
    ensures var f := Presets.PresetFile(s.scene, Presets.SaveName(s.browser.saveBuf, env.stamp));
            var r := CommitSave(s, env);
            Presets.PlainFileName(f) ==> f in r.browser.list && r.browser.index < |r.browser.list|
  {
    var b := s.browser;
    if Presets.Save(s.store, s.scene, Live(s), b.saveBuf, env.stamp).Ok? {
      Presets.SaveThenList(s.store, s.scene, Live(s), b.saveBuf, env.stamp);
    }
  }

  /** Enter while renaming (main.py:660-677), with the selected preset. A blank
      name changes nothing; after a rename the list is refreshed and its
      first entry selected; a failed rename is caught. */
  function CommitRename(s: Session): (r: Session)
    requires s.browser.index < |s.browser.list|
    ensures r.scene == s.scene && r.scenes == s.scenes && r.view == s.view && r.editor == s.editor
    ensures r.running == s.running && !r.browser.renameMode
    ensures var res := Presets.Rename(s.store, s.scene, s.browser.list[s.browser.index], s.browser.renameBuf);
            && (AllSpace(s.browser.renameBuf) || res.Err? ==> r == s.(browser := s.browser.(renameMode := false)))
            && (!AllSpace(s.browser.renameBuf) && res.Ok? ==>
                  && r.store == res.value
                  && r.browser == s.browser.(renameMode := false, list := Presets.List(r.store, s.scene), index := 0))
  {
    var b := s.browser.(renameMode := false);
    if AllSpace(s.browser.renameBuf) then s.(browser := b)
    else match Presets.Rename(s.store, s.scene, s.browser.list[s.browser.index], s.browser.renameBuf)
      case Err(_) => s.(browser := b)
      case Ok(st) => s.(store := st, browser := b.(list := Presets.List(st, s.scene), index := 0))
  }

  /** After a rename the new name is listed and selected, and the old one is
      gone from the list. */
  lemma CommitRenameLists(s: Session)
    requires s.browser.index < |s.browser.list|
    requires !AllSpace(s.browser.renameBuf)
    requires Presets.Rename(s.store, s.scene, s.browser.list[s.browser.index], s.browser.renameBuf).Ok?
    ensures var r := CommitRename(s);
            var sel := s.browser.list[s.browser.index];
            var f := Presets.PresetFile(s.scene, Strip(s.browser.renameBuf));
            && f in r.browser.list
            && (sel != f ==> sel !in r.browser.list)
            && Distinct(r.browser.list)
  {
    var sel := s.browser.list[s.browser.index];
    Presets.RenameThenList(s.store, s.scene, sel, s.browser.renameBuf);
    Presets.ListDistinct(CommitRename(s).store, s.scene);
  }

  /** Enter while tagging (main.py:678-690): the selected preset's tags are
      replaced by those typed; nothing else changes. */
  function CommitTag(s: Session): (r: Session)
    requires s.browser.index < |s.browser.list|
    ensures r.scene == s.scene && r.scenes == s.scenes && r.view == s.view && r.editor == s.editor
    ensures r.running == s.running && r.browser == s.browser.(tagMode := false)
    ensures r.store.files == s.store.files
    ensures s.browser.list[s.browser.index] in r.store.index
    ensures r.store.index[s.browser.list[s.browser.index]].tags == ParseTags(s.browser.tagBuf)
    ensures r.store == Presets.Tag(s.store, s.scene, s.browser.list[s.browser.index], s.browser.tagBuf)
    ensures forall g :: g in s.store.index && g != s.browser.list[s.browser.index] ==>
              g in r.store.index && r.store.index[g] == s.store.index[g]
  {
    var b := s.browser;
    s.(browser := b.(tagMode := false), store := Presets.Tag(s.store, s.scene, b.list[b.index], b.tagBuf))
  }

  /** Tagging again with the stored tags typed back as one line changes
      nothing. */
  lemma CommitTagAgain(s: Session)
    requires s.browser.index < |s.browser.list|
    ensures var r := CommitTag(s);
            var sel := s.browser.list[s.browser.index];
            var again := CommitTag(r.(browser := r.browser.(tagMode := true, tagBuf := Join(r.store.index[sel].tags, ','))));
            again.store == r.store
  {
    var sel := s.browser.list[s.browser.index];
    Presets.TagAgain(s.store, s.scene, sel, s.browser.tagBuf);
  }

  /** Enter in the browser (main.py:691-704): loads the selected preset into
      the current scene; a failed load is caught and changes nothing. */
  function LoadSelected(s: Session): (r: Session)
    requires s.scene < |s.scenes| && Presets.WellFormed(s.store) && s.browser.index < |s.browser.list|
    ensures |r.scenes| == |s.scenes| && r == WithLive(s, r.scenes[s.scene].params)
    ensures var res := Presets.Load(s.store, s.browser.list[s.browser.index], Live(s));
            && (res.Err? ==> r == s)
            && (res.Ok? ==> Live(r) == res.value)
  {
    match Presets.Load(s.store, s.browser.list[s.browser.index], Live(s))
    case Err(_) => s
    case Ok(p) => WithLive(s, p)
  }

  lemma LoadSelectedInv(s: Session)
    requires Inv(s) && s.browser.index < |s.browser.list|
    ensures Inv(LoadSelected(s))
  {
    var res := Presets.Load(s.store, s.browser.list[s.browser.index], Live(s));
    if res.Ok? {
      WithLiveInv(s, res.value);
    }
  }

  /** The list without its `i`-th entry, as `list.pop(i)` leaves it. */
  function Without(l: seq<string>, i: nat): (r: seq<string>)
    requires i < |l|
    ensures |r| == |l| - 1
    ensures forall a :: 0 <= a < i ==> r[a] == l[a]
    ensures forall a :: i <= a < |r| ==> r[a] == l[a + 1]
  {
    l[..i] + l[i + 1..]
  }

  /** Popping an entry of a list without repeats removes that name and only
      that name. */
  lemma WithoutRemoves(l: seq<string>, i: nat)
    requires i < |l| && Distinct(l)
    ensures Distinct(Without(l, i))
    ensures forall f :: f in Without(l, i) <==> f in l && f != l[i]
  {
    var r := Without(l, i);
    forall a, b | 0 <= a < b < |r| ensures r[a] != r[b] {
      var a', b' := if a < i then a else a + 1, if b < i then b else b + 1;
      assert r[a] == l[a'] && r[b] == l[b'];
    }
    forall f | f in l && f != l[i] ensures f in r {
      var a :| 0 <= a < |l| && l[a] == f;
      if a < i {
        assert r[a] == f;
      } else {
        assert r[a - 1] == f;
      }
    }
  }

  /** D in the browser (main.py:705-717): the selected name leaves the list
      before the file is removed; on success the selection moves up one. A
      stale selection raises IndexError; a failed removal is caught. */
  function DeleteSelected(s: Session): (r: Outcome)
    ensures r.Uncaught? <==> s.browser.open && s.browser.list != [] && s.browser.index >= |s.browser.list|
    ensures !(s.browser.open && s.browser.list != []) ==> r == Continue(s)
    ensures r.Continue? && s.browser.open && s.browser.list != [] ==>
              var b := s.browser;
              var sel := b.list[b.index];
              var rest := Without(b.list, b.index);
              && r.next.scene == s.scene && r.next.scenes == s.scenes && r.next.view == s.view
              && r.next.editor == s.editor && r.next.running == s.running
              && (sel !in s.store.files ==> r.next == s.(browser := b.(list := rest)))
              && (sel in s.store.files ==>
                    && Presets.Delete(s.store, sel) == Ok(r.next.store)
                    && r.next.browser == b.(list := rest, index := if b.index == 0 then 0 else b.index - 1))
  {
    var b := s.browser;
    if !(b.open && b.list != []) then Continue(s)
    else if b.index >= |b.list| then Uncaught
    else
      var rest := Without(b.list, b.index);
      match Presets.Delete(s.store, b.list[b.index])
      case Err(_) => Continue(s.(browser := b.(list := rest)))
      case Ok(st) => Continue(s.(store := st, browser := b.(list := rest, index := if b.index == 0 then 0 else b.index - 1)))
  }

  lemma DeleteSelectedInv(s: Session)
    requires Inv(s)
    ensures DeleteSelected(s).Continue? && Inv(DeleteSelected(s).next)
  {
    var b := s.browser;
    if b.open && b.list != [] {
      var sel := b.list[b.index];
      WithoutRemoves(b.list, b.index);
      var st := Presets.Delete(s.store, sel).value;
      assert forall f :: f in st.files <==> f in s.store.files && f != sel;
    }
  }

  /** The current scene's parameters after loading its last preset: as they
      were when the scene has no preset or the load fails. */
  function LatestParams(s: Session): (p: Params)
    requires s.scene < |s.scenes| && Presets.WellFormed(s.store)
    ensures var l := Presets.List(s.store, s.scene);
            && (l == [] ==> p == Live(s))
            && (l != [] ==>
                  var res := Presets.Load(s.store, l[|l| - 1], Live(s));
                  && (res.Err? ==> p == Live(s))
                  && (res.Ok? ==> p == res.value))
  {
    var l := Presets.List(s.store, s.scene);
    if l == [] then Live(s)
    else match Presets.Load(s.store, l[|l| - 1], Live(s))
      case Err(_) => Live(s)
      case Ok(p) => p
  }

  lemma LatestParamsValid(s: Session)
    requires s.scene < |s.scenes| && Presets.WellFormed(s.store) && Valid(Live(s))
    ensures Valid(LatestParams(s))
  {
  }

  /** L, or the Load button (main.py:509-523, 718-732), as written: the list is
      refreshed for the current scene and its last preset loaded, but the
      selection is left where it was, possibly past the end of the new list.
      A failed load is caught. */
  function LoadLatestAsWritten(s: Session): (r: Session)
    requires s.scene < |s.scenes| && Presets.WellFormed(s.store)
    ensures r.browser == s.browser.(list := Presets.List(s.store, s.scene))
    ensures |r.scenes| == |s.scenes| && r == WithLive(s, r.scenes[s.scene].params).(browser := r.browser)
    ensures r.browser.list == [] ==> r.scenes == s.scenes
    ensures r.browser.list != [] ==>
              var res := Presets.Load(s.store, r.browser.list[|r.browser.list| - 1], Live(s));
              && (res.Err? ==> r.scenes == s.scenes)
              && (res.Ok? ==> Live(r) == res.value)
  {
    WithLive(s, LatestParams(s)).(browser := s.browser.(list := Presets.List(s.store, s.scene)))
  }

  /** L, or the Load button, corrected: as written, and the loaded preset,
      the last of the list, becomes the selection, as after a save. */
  function LoadLatest(s: Session): (r: Session)
    requires s.scene < |s.scenes| && Presets.WellFormed(s.store)
    ensures r == LoadLatestAsWritten(s).(browser := r.browser)
    ensures r.browser == s.browser.(list := r.browser.list, index := LastIndex(r.browser.list))
    ensures r.browser.list == Presets.List(s.store, s.scene)
  {
    var l := Presets.List(s.store, s.scene);
    WithLive(s, LatestParams(s)).(browser := s.browser.(list := l, index := LastIndex(l)))
  }

  lemma LoadLatestInv(s: Session)
    requires Inv(s)
    ensures Inv(LoadLatest(s))
  {
    var p := LatestParams(s);
    LatestParamsValid(s);
    WithLiveInv(s, p);
    Presets.ListDistinct(s.store, s.scene);
    RelistInv(WithLive(s, p), s.browser, Presets.List(s.store, s.scene));
  }

  /** Replacing the list by existing names, each once, and selecting its
      last keeps the invariant. */
  lemma RelistInv(s: Session, b: Browser, l: seq<string>)
    requires Inv(s) && b == s.browser
    requires Distinct(l) && forall f :: f in l ==> f in s.store.files
    ensures Inv(s.(browser := b.(list := l, index := LastIndex(l))))
  {
  }

  /** Enter or keypad Enter outside text input (main.py:636-704): commits a
      save, rename or tag in that order of precedence, or loads the selected
      preset in the browser. Indexing the list with a stale selection
      raises. */
  function Enter(s: Session, env: Env): (r: Outcome)
    requires s.scene < |s.scenes| && Presets.WellFormed(s.store) && env.stamp != ""
    ensures r.Uncaught? <==>
              !s.browser.saveMode && s.browser.open && s.browser.list != [] && s.browser.index >= |s.browser.list|
    ensures s.browser.saveMode ==> r == Continue(CommitSave(s, env))
    ensures !s.browser.saveMode && !(s.browser.open && s.browser.list != []) ==> r == Continue(s)
    ensures var b := s.browser;
            !b.saveMode && b.open && b.list != [] && b.index < |b.list| && b.renameMode ==>
              r == Continue(CommitRename(s))
    ensures var b := s.browser;
            !b.saveMode && b.open && b.list != [] && b.index < |b.list| && !b.renameMode && b.tagMode ==>
              r == Continue(CommitTag(s))
    ensures !s.browser.saveMode && !s.browser.renameMode && !s.browser.tagMode && r.Continue? ==>
              r == Continue(if s.browser.open && s.browser.list != [] then LoadSelected(s) else s)
  {
    var b := s.browser;
    if b.saveMode then Continue(CommitSave(s, env))
    else if !(b.open && b.list != []) then Continue(s)
    else if b.index >= |b.list| then Uncaught
    else if b.renameMode then Continue(CommitRename(s))
    else if b.tagMode then Continue(CommitTag(s))
    else Continue(LoadSelected(s))
  }

  lemma EnterInv(s: Session, env: Env)
    requires Inv(s) && env.stamp != ""
    ensures Enter(s, env).Continue? && Inv(Enter(s, env).next)
  {
    if s.browser.saveMode {
      CommitSaveInv(s, env);
    } else if s.browser.open && s.browser.list != [] {
      LoadSelectedInv(s);
    }
  }

  // ---------------------------------------------------------------------
  // One event

  /** L and the Load button, as written or corrected. */
  function LoadKey(s: Session, asWritten: bool): (r: Session)
    requires s.scene < |s.scenes| && Presets.WellFormed(s.store)
    ensures r.browser.list == Presets.List(s.store, s.scene)
  {
    if asWritten then LoadLatestAsWritten(s) else LoadLatest(s)
  }

  /** A key outside text input (main.py:613-747); keys the program does not
      bind do nothing. */
  function MainKey(s: Session, key: Key, env: Env, asWritten: bool): (r: Outcome)
    requires s.scene < |s.scenes| && Presets.WellFormed(s.store) && env.stamp != ""
    ensures key == Right ==> r == Continue(NextScene(s))
    ensures key == Left ==> r == Continue(PrevScene(s))
    ensures key == KeyE ==> r == Continue(ToggleEdit(s))
    ensures key == Tab ==> r == Continue(s.(editor := NextParam(s.editor)))
    ensures key == KeyA ==> r == Continue(s.(view := s.view.(autoRotate := !s.view.autoRotate)))
    ensures key == KeyZ ==> r == Continue(s.(view := s.view.(zoom := ToggleZoom(s.view.zoom))))
    ensures key == KeyS ==> r == Continue(s.(browser := StartSave(s.browser)))
    ensures key == KeyP ==> r == Continue(ToggleBrowser(s))
    ensures key in {Return, KpEnter} ==> r == Enter(s, env)
    ensures key == KeyD ==> r == DeleteSelected(s)
    ensures key == KeyL ==> r == Continue(LoadKey(s, asWritten))
    ensures key == KeyH ==> r == Continue(s.(view := s.view.(help := !s.view.help)))
    ensures key == Up ==> r == Adjust(s, true)
    ensures key == Down ==> r == Adjust(s, false)
    ensures key in {Backspace, OtherKey} ==> r == Continue(s)
    ensures r.Uncaught? ==> key in {Return, KpEnter, KeyD, Up, Down}
  {
    match key
    case Right => Continue(NextScene(s))
    case Left => Continue(PrevScene(s))
    case KeyE => Continue(ToggleEdit(s))
    case Tab => Continue(s.(editor := NextParam(s.editor)))
    case KeyA => Continue(s.(view := s.view.(autoRotate := !s.view.autoRotate)))
    case KeyZ => Continue(s.(view := s.view.(zoom := ToggleZoom(s.view.zoom))))
    case KeyS => Continue(s.(browser := StartSave(s.browser)))
    case KeyP => Continue(ToggleBrowser(s))
    case Return => Enter(s, env)
    case KpEnter => Enter(s, env)
    case KeyD => DeleteSelected(s)
    case KeyL => Continue(LoadKey(s, asWritten))
    case KeyH => Continue(s.(view := s.view.(help := !s.view.help)))
    case Up => Adjust(s, true)
    case Down => Adjust(s, false)
    case Backspace => Continue(s)
    case OtherKey => Continue(s)
  }

  /** Which text input, if any, takes a key: numeric input takes every key;
      naming, renaming and tagging, in that order, take every key but Return,
      which falls through to the commit in the main key handling. */
  function KeyPress(s: Session, key: Key, ch: string, env: Env, asWritten: bool): (r: Outcome)
    requires s.scene < |s.scenes| && Presets.WellFormed(s.store) && env.stamp != ""
    ensures s.editor.numericMode ==> r == Continue(NumericKey(s, key, ch, env))
    ensures !s.editor.numericMode && key != Return && s.browser.saveMode ==>
              r == Continue(s.(browser := s.browser.(saveBuf := EditBuffer(s.browser.saveBuf, key, ch))))
    ensures !s.editor.numericMode && key != Return && !s.browser.saveMode && s.browser.renameMode ==>
              r == Continue(s.(browser := s.browser.(renameBuf := EditBuffer(s.browser.renameBuf, key, ch))))
    ensures !s.editor.numericMode && key != Return && !s.browser.saveMode && !s.browser.renameMode && s.browser.tagMode ==>
              r == Continue(s.(browser := s.browser.(tagBuf := EditBuffer(s.browser.tagBuf, key, ch))))
    ensures !s.editor.numericMode && key == Return ==> r == MainKey(s, key, env, asWritten)
    ensures !s.editor.numericMode && !s.browser.saveMode && !s.browser.renameMode && !s.browser.tagMode ==>
              r == MainKey(s, key, env, asWritten)
  {
    var b := s.browser;
    if s.editor.numericMode then Continue(NumericKey(s, key, ch, env))
    else if key != Return && b.saveMode then Continue(s.(browser := b.(saveBuf := EditBuffer(b.saveBuf, key, ch))))
    else if key != Return && b.renameMode then Continue(s.(browser := b.(renameBuf := EditBuffer(b.renameBuf, key, ch))))
    else if key != Return && b.tagMode then Continue(s.(browser := b.(tagBuf := EditBuffer(b.tagBuf, key, ch))))
    else MainKey(s, key, env, asWritten)
  }

  /** A touch on a button (main.py:490-530): the same actions as the keys;
      a touch that misses every button does nothing. */
  function Touch(s: Session, b: Option<Buttons.Button>, asWritten: bool): (r: Session)
    requires s.scene < |s.scenes| && Presets.WellFormed(s.store)
    ensures b.None? ==> r == s
    ensures b == Some(Buttons.NextScene) ==> r == NextScene(s)
    ensures b == Some(Buttons.PrevScene) ==> r == PrevScene(s)
    ensures b == Some(Buttons.Presets) ==> r == ToggleBrowser(s)
    ensures b == Some(Buttons.Load) ==> r == LoadKey(s, asWritten)
  {
    match b
    case None => s
    case Some(button) =>
      if button.PrevScene? then PrevScene(s)
      else if button.NextScene? then NextScene(s)
      else if button.EditMode? then ToggleEdit(s)
      else if button.AutoRotate? then s.(view := s.view.(autoRotate := !s.view.autoRotate))
      else if button.Zoom? then s.(view := s.view.(zoom := ToggleZoom(s.view.zoom)))
      else if button.Save? then s.(browser := StartSave(s.browser))
      else if button.Load? then LoadKey(s, asWritten)
      else if button.Presets? then ToggleBrowser(s)
      else s.(view := s.view.(help := !s.view.help))
  }

  /** The key each touch button stands for (main.py:490-530). */
  function KeyOf(b: Buttons.Button): Key {
    match b
    case PrevScene => Left
    case NextScene => Right
    case EditMode => KeyE
    case AutoRotate => KeyA
    case Zoom => KeyZ
    case Save => KeyS
    case Load => KeyL
    case Presets => KeyP
    case Help => KeyH
  }

  /** Every button does what its key does, and no button raises. */
  lemma TouchIsKey(s: Session, b: Buttons.Button, env: Env, asWritten: bool)
    requires s.scene < |s.scenes| && Presets.WellFormed(s.store) && env.stamp != ""
    ensures MainKey(s, KeyOf(b), env, asWritten) == Continue(Touch(s, Some(b), asWritten))
  {
  }

  /** One event (main.py:455-747), with L and the Load button as written or
      corrected. */
  function Dispatch(s: Session, ev: Event, env: Env, asWritten: bool): (r: Outcome)
    requires s.scene < |s.scenes| && Presets.WellFormed(s.store) && env.stamp != ""
    ensures ev == Quit ==> r == Continue(s.(running := false))
    ensures ev.MouseUp? || ev.FingerUp? ==> r == Continue(s.(editor := s.editor.(sliderActive := false)))
    ensures ev.KeyDown? ==> r == KeyPress(s, ev.key, ev.ch, env, asWritten)
    ensures ev.FingerDown? && !OnSlider(s.editor, ev.x, ev.y) ==>
              r == Continue(Touch(s.(editor := s.editor.(sliderActive := false)),
                                  Buttons.HitTest(env.width, env.height, ev.x, ev.y), asWritten))
    ensures ev.FingerDown? && OnSlider(s.editor, ev.x, ev.y) ==> r == Continue(s.(editor := s.editor.(sliderActive := true)))
    ensures ev.MouseDown? ==> r == Continue(s.(editor := s.editor.(sliderActive := OnSlider(s.editor, ev.x, ev.y))))
    ensures (ev.MouseMotion? || ev.FingerMotion?) && !s.editor.sliderActive ==> r == Continue(s)
    ensures (ev.MouseMotion? || ev.FingerMotion?) && s.editor.sliderActive ==> r == Drag(s, ev.x)
    ensures r.Uncaught? ==> ev.MouseMotion? || ev.FingerMotion? || ev.KeyDown?
  {
    var e := s.editor;
    match ev
    case Quit => Continue(s.(running := false))
    case MouseDown(x, y) => Continue(s.(editor := e.(sliderActive := OnSlider(e, x, y))))
    case MouseUp => Continue(s.(editor := e.(sliderActive := false)))
    case MouseMotion(x, _) => if e.sliderActive then Drag(s, x) else Continue(s)
    case FingerDown(x, y) =>
      if OnSlider(e, x, y) then Continue(s.(editor := e.(sliderActive := true)))
      else
        var hit := Buttons.HitTest(env.width, env.height, x, y);
        Continue(Touch(s.(editor := e.(sliderActive := false)), hit, asWritten))
    case FingerUp => Continue(s.(editor := e.(sliderActive := false)))
    case FingerMotion(x, _) => if e.sliderActive then Drag(s, x) else Continue(s)
    case KeyDown(key, ch) => KeyPress(s, key, ch, env, asWritten)
  }

  /** One event, as main.py handles it. */
  function StepAsWritten(s: Session, ev: Event, env: Env): (r: Outcome)
    requires s.scene < |s.scenes| && Presets.WellFormed(s.store) && env.stamp != ""
  {
    Dispatch(s, ev, env, true)
  }

  /** One event, with the selection moved to the loaded preset after L. From
      a reachable session, no event raises and the next session is
      reachable; the store changes only through the session. */
  function Step(s: Session, ev: Event, env: Env): (r: Outcome)
    requires s.scene < |s.scenes| && Presets.WellFormed(s.store) && env.stamp != ""
    ensures Inv(s) ==> r.Continue? && Inv(r.next)
  {
    StepInv(s, ev, env);
    Dispatch(s, ev, env, false)
  }

  /** A sequence of events from a reachable session. */
  function Run(s: Session, evs: seq<Event>, env: Env): (r: Session)
    requires Inv(s) && env.stamp != ""
    ensures Inv(r)
    ensures |evs| == 1 ==> Continue(r) == Step(s, evs[0], env)
    decreases |evs|
  {
    if evs == [] then s
    else Run(Step(s, evs[0], env).next, evs[1..], env)
  }

  // ---------------------------------------------------------------------
  // Every event keeps the invariant

  lemma TouchInv(s: Session, b: Option<Buttons.Button>)
    requires Inv(s)
    ensures Inv(Touch(s, b, false))
  {
    if b.Some? {
      var button := b.value;
      if button.PrevScene? || button.NextScene? {
        NavigationInv(s);
      } else if button.EditMode? {
        ToggleEditInv(s);
      } else if button.Presets? {
        ToggleBrowserInv(s);
      } else if button.Load? {
        LoadLatestInv(s);
      } else if button.Save? {
        BrowserInv(s, StartSave(s.browser));
      } else {
        ViewInv(s, Touch(s, b, false).view);
      }
    }
  }

  lemma NavigationInv(s: Session)
    requires Inv(s)
    ensures Inv(NextScene(s)) && Inv(PrevScene(s))
  {
  }

  lemma ToggleEditInv(s: Session)
    requires Inv(s)
    ensures Inv(ToggleEdit(s)) && Inv(s.(editor := NextParam(s.editor)))
  {
  }

  lemma ViewInv(s: Session, v: View)
    requires Inv(s) && (v.zoom == 1.0 || v.zoom == 2.0)
    ensures Inv(s.(view := v))
  {
  }

  lemma BrowserInv(s: Session, b: Browser)
    requires Inv(s) && b.list == s.browser.list && b.index == s.browser.index
    requires !b.renameMode && !b.tagMode
    ensures Inv(s.(browser := b))
  {
  }

  lemma KeyInv(s: Session, key: Key, ch: string, env: Env)
    requires Inv(s) && env.stamp != ""
    ensures KeyPress(s, key, ch, env, false).Continue? && Inv(KeyPress(s, key, ch, env, false).next)
  {
    var b := s.browser;
    if key != Return && b.saveMode {
      BrowserInv(s, b.(saveBuf := EditBuffer(b.saveBuf, key, ch)));
    } else {
      assert KeyPress(s, key, ch, env, false) == MainKey(s, key, env, false);
      MainKeyInv(s, key, env);
    }
  }

  lemma MainKeyInv(s: Session, key: Key, env: Env)
    requires Inv(s) && env.stamp != ""
    ensures MainKey(s, key, env, false).Continue? && Inv(MainKey(s, key, env, false).next)
  {
    if key in {Return, KpEnter, KeyD} {
      CommandKeyInv(s, key, env);
    } else if key in {KeyL, KeyP, KeyS} {
      PresetKeyInv(s, key, env);
    } else {
      match key
      case Right => NavigationInv(s);
      case Left => NavigationInv(s);
      case KeyE => ToggleEditInv(s);
      case Tab => ToggleEditInv(s);
      case KeyA => ViewInv(s, s.view.(autoRotate := !s.view.autoRotate));
      case KeyZ => ViewInv(s, s.view.(zoom := ToggleZoom(s.view.zoom)));
      case KeyH => ViewInv(s, s.view.(help := !s.view.help));
      case Up => AdjustInv(s, true);
      case Down => AdjustInv(s, false);
      case _ =>
    }
  }

  lemma CommandKeyInv(s: Session, key: Key, env: Env)
    requires Inv(s) && env.stamp != ""
    requires key in {Return, KpEnter, KeyD}
    ensures MainKey(s, key, env, false).Continue? && Inv(MainKey(s, key, env, false).next)
  {
    match key
    case Return => EnterInv(s, env);
    case KpEnter => EnterInv(s, env);
    case KeyD => DeleteSelectedInv(s);
  }

  lemma PresetKeyInv(s: Session, key: Key, env: Env)
    requires Inv(s) && env.stamp != ""
    requires key in {KeyL, KeyP, KeyS}
    ensures MainKey(s, key, env, false).Continue? && Inv(MainKey(s, key, env, false).next)
  {
    match key
    case KeyS => BrowserInv(s, StartSave(s.browser));
    case KeyP => ToggleBrowserInv(s);
    case KeyL => LoadLatestInv(s);
  }

  lemma StepInv(s: Session, ev: Event, env: Env)
    requires s.scene < |s.scenes| && Presets.WellFormed(s.store) && env.stamp != ""
    ensures Inv(s) ==> Dispatch(s, ev, env, false).Continue? && Inv(Dispatch(s, ev, env, false).next)
  {
    if Inv(s) {
      if ev.KeyDown? {
        KeyDownInv(s, ev, env);
      } else if ev.FingerDown? {
        FingerDownInv(s, ev, env);
      } else {
        PointerInv(s, ev, env);
      }
    }
  }

  lemma KeyDownInv(s: Session, ev: Event, env: Env)
    requires Inv(s) && env.stamp != "" && ev.KeyDown?
    ensures Dispatch(s, ev, env, false).Continue? && Inv(Dispatch(s, ev, env, false).next)
  {
    KeyInv(s, ev.key, ev.ch, env);
  }

  lemma FingerDownInv(s: Session, ev: Event, env: Env)
    requires Inv(s) && env.stamp != "" && ev.FingerDown?
    ensures Dispatch(s, ev, env, false).Continue? && Inv(Dispatch(s, ev, env, false).next)
  {
    TouchInv(s.(editor := s.editor.(sliderActive := false)), Buttons.HitTest(env.width, env.height, ev.x, ev.y));
  }

  /** Mouse events and finger releases and moves only start or stop a drag,
      which never begins without a slider. */
  lemma PointerInv(s: Session, ev: Event, env: Env)
    requires Inv(s) && env.stamp != ""
    requires !ev.KeyDown? && !ev.FingerDown?
    ensures Dispatch(s, ev, env, false).Continue? && Inv(Dispatch(s, ev, env, false).next)
  {
  }

  // ---------------------------------------------------------------------
  // What goes wrong as written

  /** Two presets of the first scene and one of the second, all readable. */
  function StaleStore(): (st: Presets.Store)
    ensures Presets.WellFormed(st)
  {
    var obj := Presets.Object(Empty);
    Presets.Store(map["scene_0_a.json" := obj, "scene_0_b.json" := obj, "scene_1_c.json" := obj], map[])
  }

  /** A session satisfying the invariant: the first scene, the browser open
      on its two presets and the second selected, as after opening the
      browser and then saving `b`. */
  function StaleStart(): (s: Session)
    ensures s.scene == 0 && s.browser.open && s.browser.index == 1
    ensures s.browser.list == ["scene_0_a.json", "scene_0_b.json"]
    ensures s.scenes == Initial && s.store == StaleStore()
  {
    var s := Start(StaleStore());
    s.(browser := s.browser.(open := true, list := ["scene_0_a.json", "scene_0_b.json"], index := 1))
  }

  lemma StaleStartInv()
    ensures Inv(StaleStart())
  {
    var s := StaleStart();
    StartInv(s.store);
    assert Distinct(s.browser.list);
  }

  /** Right, then L, then Enter: L refreshes the list to the second scene's
      single preset but leaves the selection at 1, and Enter indexes past
      the end of the list, an IndexError the loop does not catch. With the
      selection moved to the loaded preset, Enter loads it. */
  lemma StaleSelectionCrashes(env: Env)
    requires env.stamp != ""
    ensures var s0 := StaleStart();
            var s1 := NextScene(s0);
            && Inv(s0) && Inv(s1)
            && Step(s0, KeyDown(Right, ""), env) == Continue(s1)
            && StepAsWritten(s1, KeyDown(KeyL, "l"), env) == Continue(LoadLatestAsWritten(s1))
            && StepAsWritten(LoadLatestAsWritten(s1), KeyDown(Return, "\r"), env) == Uncaught
            && Step(s1, KeyDown(KeyL, "l"), env) == Continue(LoadLatest(s1))
            && Step(LoadLatest(s1), KeyDown(Return, "\r"), env).Continue?
  {
    StaleRight(env);
    StaleAsWritten(env);
    StaleCorrected(env);
  }

  lemma StaleRight(env: Env)
    requires env.stamp != ""
    ensures var s0 := StaleStart();
            && Inv(s0) && Inv(NextScene(s0))
            && Step(s0, KeyDown(Right, ""), env) == Continue(NextScene(s0))
  {
    StaleStartInv();
    NavigationInv(StaleStart());
  }

  lemma StaleAsWritten(env: Env)
    requires env.stamp != ""
    ensures var s1 := NextScene(StaleStart());
            && StepAsWritten(s1, KeyDown(KeyL, "l"), env) == Continue(LoadLatestAsWritten(s1))
            && StepAsWritten(LoadLatestAsWritten(s1), KeyDown(Return, "\r"), env) == Uncaught
  {
    var s1 := NextScene(StaleStart());
    StaleRight(env);
    LoadKeyAsWritten(s1, "l", env);
    StaleEnter(env);
  }

  /** Outside text input, L is the load key. */
  lemma LoadKeyAsWritten(s: Session, ch: string, env: Env)
    requires s.scene < |s.scenes| && Presets.WellFormed(s.store) && env.stamp != ""
    requires !s.editor.numericMode && !s.browser.saveMode && !s.browser.renameMode && !s.browser.tagMode
    ensures StepAsWritten(s, KeyDown(KeyL, ch), env) == Continue(LoadLatestAsWritten(s))
  {
    assert KeyPress(s, KeyL, ch, env, true) == MainKey(s, KeyL, env, true);
  }

  lemma StaleEnter(env: Env)
    requires env.stamp != ""
    ensures var w := LoadLatestAsWritten(NextScene(StaleStart()));
            StepAsWritten(w, KeyDown(Return, "\r"), env) == Uncaught
  {
    var w := LoadLatestAsWritten(NextScene(StaleStart()));
    StaleLoad();
    assert StepAsWritten(w, KeyDown(Return, "\r"), env) == Enter(w, env);
  }

  /** L on the second scene of the stale session, as written. */
  lemma StaleLoad()
    ensures var w := LoadLatestAsWritten(NextScene(StaleStart()));
            && w.browser.list == ["scene_1_c.json"] && w.browser.index == 1
            && w.browser.open && !w.browser.saveMode && !w.editor.numericMode
            && w.scene == 1 && w.scene < |w.scenes| && Presets.WellFormed(w.store)
  {
    StaleListing();
  }

  lemma StaleCorrected(env: Env)
    requires env.stamp != ""
    ensures var s1 := NextScene(StaleStart());
            && Step(s1, KeyDown(KeyL, "l"), env) == Continue(LoadLatest(s1))
            && Step(LoadLatest(s1), KeyDown(Return, "\r"), env).Continue?
  {
    StaleRight(env);
    var s1 := NextScene(StaleStart());
    LoadLatestInv(s1);
  }

  /** On the second scene, the stale store lists one preset. */
  lemma StaleListing()
    ensures Presets.List(StaleStore(), 1) == ["scene_1_c.json"]
  {
    var files := StaleStore().files;
    assert Presets.ScenePrefix(1) == "scene_1_";
    assert (set f | f in files && StartsWith(f, Presets.ScenePrefix(1))) == {"scene_1_c.json"} by {
      assert StartsWith("scene_1_c.json", "scene_1_");
      assert "scene_0_a.json"[6] != "scene_1_"[6];
      assert "scene_0_b.json"[6] != "scene_1_"[6];
    }
  }

  /** L always lists the current scene's presets and, corrected, selects a
      listed one, so a following Enter or D cannot index past the list. */
  lemma LoadLatestSelects(s: Session)
    requires s.scene < |s.scenes| && Presets.WellFormed(s.store)
    ensures var r := LoadLatest(s);
            r.browser.list != [] ==> r.browser.index == |r.browser.list| - 1
    ensures var r := LoadLatest(s);
            forall env: Env :: env.stamp != "" ==> Enter(r, env).Continue? && DeleteSelected(r).Continue?
  {
  }
}
