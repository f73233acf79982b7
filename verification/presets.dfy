/** The preset store (main.py:512, 642-732): a directory of
    `scene_<i>_<name>.json` files, each a JSON object of one scene's
    parameters, and the side index `index.json` mapping a file name to
    `{scene, name, tags}`.

    The directory is a map from file name to what `json.load` makes of the
    file; the index is the dictionary the application keeps in memory and
    rewrites after each change. The two may disagree (a file with no entry, an
    entry with no file): every operation tolerates that. */
module Presets {
  import opened Results
  import opened Strings
  import opened Values

  /** One value of the index: `{"scene": i, "name": n, "tags": [...]}`. */
  datatype Entry = Entry(scene: int, name: string, tags: seq<string>)

  /** What reading a preset file yields. */
  datatype Body = Object(obj: Params) | Unreadable

  datatype Store = Store(files: map<string, Body>, index: map<string, Entry>)

  /** Every readable preset file holds a JSON object, whose keys are distinct. */
  ghost predicate WellFormed(st: Store) {
    forall f :: f in st.files && st.files[f].Object? ==> Valid(st.files[f].obj)
  }

  /** `f"scene_{i}_"`, the prefix every preset of scene `i` starts with. */
  function ScenePrefix(scene: nat): string {
    "scene_" + NatToString(scene) + "_"
  }

  /** `f"scene_{i}_{name}.json"`. */
  function PresetFile(scene: nat, name: string): (f: string)
    ensures StartsWith(f, ScenePrefix(scene))
  {
    var f := ScenePrefix(scene) + name + ".json";
    assert f[..|ScenePrefix(scene)|] == ScenePrefix(scene);
    f
  }

  /** A file name `open` and `os.rename` accept inside the presets directory:
      no path separator, no NUL. */
  predicate PlainFileName(f: string) {
    '/' !in f && '\0' !in f
  }

  /** A file of scene `j` starts with the prefix of scene `i` exactly when
      `i == j`: the digits of the index are followed by `_`, which is not a
      digit, so `scene_1_` is not a prefix of `scene_12_x.json`. */
  lemma PrefixSeparatesScenes(i: nat, j: nat, name: string)
    ensures StartsWith(PresetFile(j, name), ScenePrefix(i)) <==> i == j
  {
    if StartsWith(PresetFile(j, name), ScenePrefix(i)) {
      SamePrefixSameScene(i, j, name);
    }
  }

  lemma SamePrefixSameScene(i: nat, j: nat, name: string)
    requires StartsWith(PresetFile(j, name), ScenePrefix(i))
    ensures i == j
  {
    var di, dj := NatToString(i), NatToString(j);
    var f := PresetFile(j, name);
    var p := ScenePrefix(i);
    var rest := f[|p|..];
    // Both spellings of `f` start "scene_", then a run of digits, then `_`.
    assert f == "scene_" + (di + ("_" + rest)) by {
      assert f == f[..|p|] + rest;
    }
    assert f == "scene_" + (dj + ("_" + name + ".json"));
    DropCommonPrefix("scene_", di + ("_" + rest), dj + ("_" + name + ".json"));
    SameDigitRun(di, "_" + rest, dj, "_" + name + ".json");
    NatToStringInjective(i, j);
  }

  lemma DropCommonPrefix(a: string, x: string, y: string)
    requires a + x == a + y
    ensures x == y
  {
    assert x == (a + x)[|a|..];
  }

  /** Two strings that are each a run of digits followed by a non-digit agree
      on the run. */
  lemma SameDigitRun(d1: string, r1: string, d2: string, r2: string)
    requires AllDigits(d1) && AllDigits(d2)
    requires r1 != [] && r2 != [] && !IsDigit(r1[0]) && !IsDigit(r2[0])
    requires d1 + r1 == d2 + r2
    ensures d1 == d2
  {
    DigitRunOf(d1, r1);
    DigitRunOf(d2, r2);
    assert d1 == (d1 + r1)[..|d1|];
    assert d2 == (d2 + r2)[..|d2|];
  }

  // ---------------------------------------------------------------------
  // list

  /** `sorted(p for p in os.listdir(presets_dir) if p.startswith(f"scene_{i}_"))`
      (main.py:512, 527, 638, 655, 673, 721). */
  function List(st: Store, scene: nat): (r: seq<string>)
    ensures StrictlySorted(r)
    ensures forall f :: f in r <==> f in st.files && StartsWith(f, ScenePrefix(scene))
  {
    SortSet(set f | f in st.files && StartsWith(f, ScenePrefix(scene)))
  }

  /** A listing never names a file twice. */
  lemma ListDistinct(st: Store, scene: nat)
    ensures Distinct(List(st, scene))
  {
    var r := List(st, scene);
    forall i, j | 0 <= i < j < |r| ensures r[i] != r[j] {
      LexIrreflexive(r[i]);
    }
  }

  lemma ListHoldsOnlyItsScene(st: Store, scene: nat, other: nat, name: string)
    requires PresetFile(other, name) in List(st, scene)
    ensures other == scene
  {
    PrefixSeparatesScenes(scene, other, name);
  }

  // ---------------------------------------------------------------------
  // save

  /** The name a preset is saved under: the stripped buffer, or the UTC
      timestamp when that is blank (main.py:645). */
  function SaveName(buffer: string, stamp: string): (name: string)
    requires stamp != ""
    ensures name != ""
    ensures !AllSpace(buffer) ==> name == Strip(buffer)
    ensures AllSpace(buffer) ==> name == stamp
  {
    var stripped := Strip(buffer);
    if stripped != "" then stripped else stamp
  }

  /** Commits a save of scene `scene`'s parameters (main.py:644-656): writes
      the preset file and records `{scene, name, tags: []}` in the index. */
  function Save(st: Store, scene: nat, params: Params, buffer: string, stamp: string): (r: Result<Store>)
    requires stamp != ""
    ensures var f := PresetFile(scene, SaveName(buffer, stamp));
            && (r.Err? <==> !PlainFileName(f))
            && (r.Err? ==> r.failure == BadFileName)
            && (r.Ok? ==>
                  && r.value.files == st.files[f := Object(Serialise(params))]
                  && r.value.index == st.index[f := Entry(scene, SaveName(buffer, stamp), [])])
  {
    var name := SaveName(buffer, stamp);
    var f := PresetFile(scene, name);
    if !PlainFileName(f) then Err(BadFileName)
    else Ok(Store(st.files[f := Object(Serialise(params))], st.index[f := Entry(scene, name, [])]))
  }

  /** After a save the new preset is listed for its scene, and its index
      entry has the saved name and no tags, whatever it had before. */
  lemma SaveThenList(st: Store, scene: nat, params: Params, buffer: string, stamp: string)
    requires stamp != ""
    requires Save(st, scene, params, buffer, stamp).Ok?
    ensures var st' := Save(st, scene, params, buffer, stamp).value;
            var name := SaveName(buffer, stamp);
            var f := PresetFile(scene, name);
            && f in List(st', scene)
            && st'.index[f] == Entry(scene, name, [])
            && (forall g :: g in List(st, scene) ==> g in List(st', scene))
            && (forall other: nat :: other != scene ==> List(st', other) == List(st, other))
  {
    var st' := Save(st, scene, params, buffer, stamp).value;
    var name := SaveName(buffer, stamp);
    var f := PresetFile(scene, name);
    assert st'.files.Keys == st.files.Keys + {f};
    forall other: nat | other != scene ensures List(st', other) == List(st, other) {
      PrefixSeparatesScenes(other, scene, name);
      ListIgnoresOtherFile(st.files.Keys, f, other);
    }
  }

  /** Adding a file of another scene leaves a scene's listing as it was. */
  lemma ListIgnoresOtherFile(names: set<string>, f: string, scene: nat)
    requires !StartsWith(f, ScenePrefix(scene))
    ensures SortSet(set g | g in names + {f} && StartsWith(g, ScenePrefix(scene)))
         == SortSet(set g | g in names && StartsWith(g, ScenePrefix(scene)))
  {
    assert (set g | g in names + {f} && StartsWith(g, ScenePrefix(scene)))
        == (set g | g in names && StartsWith(g, ScenePrefix(scene)));
  }

  // ---------------------------------------------------------------------
  // load

  /** Reads preset `sel` into the live parameters (main.py:696-702, 724-730):
      a missing or unreadable file changes nothing. */
  function Load(st: Store, sel: string, live: Params): (r: Result<Params>)
    requires WellFormed(st)
    ensures sel !in st.files <==> r == Err(NoSuchFile)
    ensures sel in st.files && st.files[sel].Unreadable? <==> r == Err(NotAnObject)
    ensures r.Ok? <==> sel in st.files && st.files[sel].Object?
    ensures r.Ok? ==> r.value == Values.Load(live, st.files[sel].obj)
  {
    if sel !in st.files then Err(NoSuchFile)
    else match st.files[sel]
      case Unreadable => Err(NotAnObject)
      case Object(obj) => Ok(Values.Load(live, obj))
  }

  /** Save, change the live parameters in any way, load the same preset: the
      saved values come back (arrays exactly, lists as arrays), and keys the
      preset does not hold keep their current values. */
  lemma SaveThenLoad(st: Store, scene: nat, saved: Params, buffer: string, stamp: string, live: Params)
    requires stamp != "" && Valid(saved) && WellFormed(st)
    requires Save(st, scene, saved, buffer, stamp).Ok?
    ensures var st' := Save(st, scene, saved, buffer, stamp).value;
            var f := PresetFile(scene, SaveName(buffer, stamp));
            && WellFormed(st')
            && Load(st', f, live).Ok?
            && var r := Load(st', f, live).value;
            && (forall k :: k in saved.vals ==> r.vals[k] == Reloaded(saved.vals[k]))
            && (forall k :: k in live.vals && k !in saved.vals ==> r.vals[k] == live.vals[k])
  {
    var st' := Save(st, scene, saved, buffer, stamp).value;
    var f := PresetFile(scene, SaveName(buffer, stamp));
    SaveKeepsWellFormed(st, f, saved);
    assert st'.files == st.files[f := Object(Serialise(saved))];
    var r := Values.Load(live, Serialise(saved));
    assert Load(st', f, live) == Ok(r);
    SaveLoadRoundTrip(saved, live);
  }

  lemma SaveKeepsWellFormed(st: Store, f: string, saved: Params)
    requires WellFormed(st) && Valid(saved)
    ensures WellFormed(Store(st.files[f := Object(Serialise(saved))], st.index))
  {
  }

  // ---------------------------------------------------------------------
  // rename

  /** Renames preset `sel` of scene `scene` to the stripped buffer
      (main.py:660-677). A blank name does nothing; otherwise the file moves
      to `scene_<scene>_<new>.json` and, when `sel` has an index entry, the
      entry moves with it under the new name, tags and scene kept. */
  function Rename(st: Store, scene: nat, sel: string, buffer: string): (r: Result<Store>)
    ensures AllSpace(buffer) ==> r == Ok(st)
    ensures !AllSpace(buffer) ==>
              var f := PresetFile(scene, Strip(buffer));
              && (sel !in st.files ==> r == Err(NoSuchFile))
              && (sel in st.files && !PlainFileName(f) ==> r == Err(BadFileName))
              && (r.Ok? <==> sel in st.files && PlainFileName(f))
              && (r.Ok? ==>
                    && r.value.files.Keys == st.files.Keys - {sel} + {f}
                    && r.value.files[f] == st.files[sel]
                    && (forall g :: g in st.files && g != sel && g != f ==> r.value.files[g] == st.files[g])
                    && (sel in st.index ==>
                          && r.value.index.Keys == st.index.Keys - {sel} + {f}
                          && r.value.index[f] == st.index[sel].(name := Strip(buffer))
                          && (forall g :: g in st.index && g != sel && g != f ==> r.value.index[g] == st.index[g]))
                    && (sel !in st.index ==> r.value.index == st.index))
  {
    var name := Strip(buffer);
    if name == "" then Ok(st)
    else
      var f := PresetFile(scene, name);
      if sel !in st.files then Err(NoSuchFile)
      else if !PlainFileName(f) then Err(BadFileName)
      else
        var files := (st.files - {sel})[f := st.files[sel]];
        var index := if sel in st.index then (st.index - {sel})[f := st.index[sel].(name := name)] else st.index;
        Ok(Store(files, index))
  }

  /** After a rename the old file is gone from the scene's list and the new
      one is in it; an indexed preset keeps its tags. */
  lemma RenameThenList(st: Store, scene: nat, sel: string, buffer: string)
    requires !AllSpace(buffer)
    requires Rename(st, scene, sel, buffer).Ok?
    ensures var st' := Rename(st, scene, sel, buffer).value;
            var f := PresetFile(scene, Strip(buffer));
            && f in List(st', scene)
            && (sel != f ==> sel !in List(st', scene))
            && (sel in st.index ==>
                  st'.index[f].tags == st.index[sel].tags && st'.index[f].scene == st.index[sel].scene)
  {
  }

  // ---------------------------------------------------------------------
  // tag

  /** Sets the tags of preset `sel` from the comma-separated buffer
      (main.py:678-690). An unindexed preset gets a new entry whose name is
      the file name itself. */
  function Tag(st: Store, scene: nat, sel: string, buffer: string): (r: Store)
    ensures r.files == st.files
    ensures r.index.Keys == st.index.Keys + {sel}
    ensures r.index[sel].tags == ParseTags(buffer)
    ensures sel in st.index ==> r.index[sel] == st.index[sel].(tags := ParseTags(buffer))
    ensures sel !in st.index ==> r.index[sel] == Entry(scene, sel, ParseTags(buffer))
    ensures forall g :: g in st.index && g != sel ==> r.index[g] == st.index[g]
  {
    var tags := ParseTags(buffer);
    var entry := if sel in st.index then st.index[sel].(tags := tags) else Entry(scene, sel, tags);
    Store(st.files, st.index[sel := entry])
  }

  /** No stored tag is empty, has surrounding whitespace or contains a comma,
      and tags typed back as a comma-separated list read back the same. */
  lemma TagsAreClean(st: Store, scene: nat, sel: string, buffer: string)
    ensures var tags := Tag(st, scene, sel, buffer).index[sel].tags;
            && (forall i :: 0 <= i < |tags| ==> Tidy(tags[i]) && ',' !in tags[i])
            && ParseTags(Join(tags, ',')) == tags
  {
    ParseJoinedTags(ParseTags(buffer));
  }

  /** Typing the stored tags back as one comma-separated line and tagging
      again leaves the store as it is. */
  lemma TagAgain(st: Store, scene: nat, sel: string, buffer: string)
    ensures var st' := Tag(st, scene, sel, buffer);
            Tag(st', scene, sel, Join(st'.index[sel].tags, ',')) == st'
  {
    var st' := Tag(st, scene, sel, buffer);
    ParseJoinedTags(ParseTags(buffer));
    TagSame(st', scene, sel, Join(st'.index[sel].tags, ','));
  }

  lemma TagSame(st: Store, scene: nat, sel: string, buffer: string)
    requires sel in st.index && st.index[sel].tags == ParseTags(buffer)
    ensures Tag(st, scene, sel, buffer) == st
  {
    assert st.index[sel := st.index[sel]] == st.index;
  }

  // ---------------------------------------------------------------------
  // delete

  /** Deletes preset `sel` (main.py:708-717): the file and its index entry,
      if any. A missing file is an error that changes nothing. */
  function Delete(st: Store, sel: string): (r: Result<Store>)
    ensures sel !in st.files <==> r == Err(NoSuchFile)
    ensures r.Ok? <==> sel in st.files
    ensures r.Ok? ==> r.value.files.Keys == st.files.Keys - {sel}
                      && r.value.index.Keys == st.index.Keys - {sel}
                      && (forall g :: g in r.value.files ==> r.value.files[g] == st.files[g])
                      && (forall g :: g in r.value.index ==> r.value.index[g] == st.index[g])
  {
    if sel !in st.files then Err(NoSuchFile)
    else Ok(Store(st.files - {sel}, st.index - {sel}))
  }

  /** A deleted preset is no longer listed, and deleting it again is an
      error that leaves the store alone. */
  lemma DeleteThenList(st: Store, scene: nat, sel: string)
    requires Delete(st, sel).Ok?
    ensures var st' := Delete(st, sel).value;
            && sel !in List(st', scene)
            && sel !in st'.index
            && Delete(st', sel) == Err(NoSuchFile)
            && (forall g :: g in List(st, scene) && g != sel ==> g in List(st', scene))
  {
  }
}
