# A model of the UHFF visualisation app

`main.py` is a pygame program that draws eleven 3-D "scenes", each produced by
a generator function from a dictionary of parameters. Its logic, apart from
the numerical generators and the drawing, is:

- `coerce_points`, which turns whatever array a generator returns into an
  N×3 point list;
- the scene registry, with `get_scene_params` / `set_scene_param`, and the
  keyword arguments the frame loop passes to a generator;
- the preset store: a directory of `scene_<i>_<name>.json` files plus an
  `index.json` of `{scene, name, tags}` entries, with save, list, load,
  rename, tag and delete;
- the touch-button layout and the hit test that turns a touch into a button;
- the event loop of `main()`: a state machine over the current scene, edit
  mode and its parameter selection, zoom, auto-rotation, the help overlay,
  the preset browser and its selection, and the text inputs (preset name,
  rename, tags, numeric value).

The Dafny modules follow that structure:

| module | file | models |
|---|---|---|
| `Results` | results.dfy | `Option`, and `Result` with the failures the preset code catches |
| `Strings` | strings.dfy | `str.strip`, `str.split(",")`, `str(int)`, prefix tests, the order `sorted()` puts file names in |
| `Values` | values.dfy | parameter values, ordered parameter dicts, JSON serialisation and loading |
| `Shapes` | shapes.dfy | `coerce_points` on an array given as shape plus row-major buffer |
| `Scenes` | scenes.dfy | the scene list, `get_scene_params`, `set_scene_param`, generator arguments |
| `Presets` | presets.dfy | the preset directory and index as maps, and the six preset operations |
| `Buttons` | buttons.dfy | `get_button_layout`, `handle_touch_input` |
| `EventLoop` | eventloop.dfy | one event applied to the session; the invariant every event keeps |

One event is `EventLoop.Step`. An exception that the loop does not catch
ends the main loop, so a step can produce `Uncaught` instead of a session.
(main.py:862-870 then calls `main()` once more. Its local state, such as
the current scene, the modes and the preset browser, starts afresh, but the
module-level `scenes` keeps every edited or loaded parameter. A second
uncaught exception ends the program.) The presets directory is modelled as
changed only by this session. `EventLoop.Inv` describes every session
reachable from the start with the corrected load key. It says:

- the scene index is in range;
- every parameter dict has distinct keys;
- the edit and preset selections are inside their lists;
- every listed preset exists, and none is listed twice;
- the zoom is 1 or 2;
- the slider and the numeric, rename and tag inputs are off, because
  `main.py` never switches them on.

`Step` keeps `Inv` and never produces `Uncaught` from such a session. That
holds for the corrected load key (see Findings), and only while no other
process removes a listed preset file (see "Left out"). The behaviour as written
is `StepAsWritten`.

The environment supplies three things, because they are I/O:

- the screen size;
- the UTC timestamp a nameless preset gets;
- Python's `float()` on the numeric buffer.

Floats are modelled as reals. Python's `round` is written out as
round-half-to-even. Python's `%` is written for the positive modulus the
program uses, so it is never negative.

## Model

| member | source | states |
|---|---|---|
| Shapes.Coerce | main.py:73-118 | no points or an empty array give the empty 0×3 list; any 1-D or 2-D array, or grid whose last dimension is 2 or 3, gives a non-empty N×3 list; other shapes come back unchanged |
| Shapes.CoerceKeepsPointList | main.py:110-118 | an N×3 array comes back unchanged |
| Shapes.CoercePadsPairs | main.py:110-112 | an N×2 array gains a zero third coordinate on every row, and dropping that column gives the input back |
| Shapes.CoerceFlattensGrid | main.py:84-85 | a grid whose last dimension is 2 or 3 becomes one row per grid cell and keeps its values in order |
| Shapes.CoerceRereadsOtherWidths | main.py:87-98 | a 2-D array of another width is re-read as rows of 3, else as rows of 2 padded with zeros, else zero-padded up to a multiple of 3 |
| Shapes.CoerceMakesOneRow | main.py:100-109 | a 1-D array becomes one row: its first three values, padded with zeros |
| Shapes.WidthStepSeesTwoOrThree | main.py:87-98 | by the time the column step runs, a 2-D array is 2 or 3 wide, so the truncation branch at lines 113-114 can never run |
| Shapes.CoerceIdempotent | main.py:73-118 | coercing a coerced array changes nothing |
| Shapes.NarrowRegrid | main.py:110-117 | widening rows with zero columns loses nothing: the original columns can be read back |
| Values.ToJson | main.py:649 | a numpy array is written as a JSON list; every other value is written as itself |
| Values.FromJson | main.py:698-702 | a JSON list is loaded as a numpy array; every other value is kept |
| Values.JsonRoundTrip | main.py:649 | a saved and reloaded value is the same value, except that a list comes back as an array |
| Values.Put | main.py:331 | assigning a key sets that key only; an existing key keeps its place, a new key goes last, and keys stay distinct |
| Values.Serialise | main.py:649 | the saved object has the parameters' keys in the same order, each value converted by `tolist` |
| Values.Load | main.py:696-702 | every key of the preset is overwritten with its loaded value; every other live key is untouched; keys stay distinct |
| Values.ApplyAllKeepsOrder | main.py:698-702 | loading keeps the existing keys in their places and puts new keys after them |
| Values.SaveLoadRoundTrip | main.py:649-702 | saving a parameter dict and loading it into any dict restores every saved value and leaves the other keys alone |
| Scenes.InitialScenes | main.py:301-319 | there are eleven scenes; each starts with distinct parameter names, all declared by its generator; only scenes 5 and 11 take a time argument |
| Scenes.PyIndex | main.py:320-333 | `scenes[index]` succeeds exactly for `-len <= index < len`; a negative index counts from the end |
| Scenes.GetSceneParams | main.py:320-325 | the scene's parameters, or `{}` when the index raises |
| Scenes.SetSceneParam | main.py:328-333 | sets one parameter of one scene; a bad index changes nothing; every other scene is untouched |
| Scenes.SetThenGet | main.py:320-333 | a value set through an index is read back through that index or its negative spelling; other scenes read as before |
| Scenes.Filter | main.py:767 | keeps exactly the keys the generator accepts, without repeats; one key is kept or dropped on its own |
| Scenes.FilterAppend | main.py:767 | filtering two pieces and joining the results is filtering the whole, so the kept keys keep their order |
| Scenes.GeneratorArgs | main.py:755-768 | the generator gets its declared parameters with their values, plus `t` = the clock when it declares `t` and the scene has none |
| Scenes.ArgsOfDeclared | main.py:755-768 | a generator that declares all the scene's parameters gets them all in order, followed by `t` when it takes one |
| Scenes.ClockOnlyForTimedScenes | main.py:754-761 | among the eleven scenes, only the standing wave and the superposition are given the clock |
| Strings.Strip | main.py:645 | the result is a slice of the input with only whitespace before and after it; it is empty exactly when the input is all whitespace, and otherwise has no whitespace at either end |
| Strings.StripOfStripped | main.py:645 | stripping a stripped name changes nothing |
| Strings.ParseTags | main.py:680 | no tag is empty, has whitespace at either end, or contains a comma |
| Strings.StripNonEmpty | main.py:680 | one segment gives its stripped text, or nothing when it is blank; every result is tidy |
| Strings.StripNonEmptyAppend | main.py:680 | segments are handled one by one, so the kept ones stay in order |
| Strings.ParseSegments | main.py:680 | a buffer of comma-free segments joined by commas gives each segment stripped, blank ones dropped, in order |
| Strings.ParseJoinedTags | main.py:680 | tags typed back as one comma-separated line parse to the same tags |
| Strings.SplitJoin | main.py:680 | splitting on a separator undoes joining with it when no part contains the separator |
| Strings.JoinSplit | main.py:680 | joining the parts of a split gives the input back |
| Strings.NatToStringInjective | main.py:646 | different scene numbers are written as different digit strings |
| Strings.SortSet | main.py:512 | the sorted listing holds exactly the set's names, in strictly increasing code-point order |
| Presets.PresetFile | main.py:646 | a preset file name starts with its scene's prefix |
| Presets.PrefixSeparatesScenes | main.py:646 | the file of scene `j` starts with the `scene_<i>_` prefix exactly when `i == j`, so scene 1 never lists the presets of scene 12 |
| Presets.List | main.py:512 | the listing is sorted and holds exactly the scene's preset files |
| Presets.ListDistinct | main.py:512 | a listing never names a file twice |
| Presets.SaveName | main.py:645 | the saved name is never empty: it is the stripped buffer, or the timestamp when the buffer is blank |
| Presets.Save | main.py:642-659 | a save fails exactly when the file name is not a plain name; otherwise it writes the serialised parameters and an index entry with no tags |
| Presets.SaveThenList | main.py:642-656 | after a save, the new preset is listed for its scene, existing presets stay listed, and every other scene's listing is unchanged |
| Presets.Load | main.py:693-704 | a missing file and an unreadable file are reported as distinct errors; loading succeeds exactly when the file exists and holds an object, and then the preset is loaded into the live parameters |
| Presets.SaveThenLoad | main.py:642-704 | save, change the parameters, load the same preset: the saved values come back, and keys the preset lacks keep their current values |
| Presets.Rename | main.py:660-677 | a blank name changes nothing; otherwise the rename succeeds exactly when the file exists and the new name is a plain file name, and then the file moves and its index entry moves with it under the new name, and nothing else changes |
| Presets.RenameThenList | main.py:660-677 | after a rename the new name is listed and the old one is not; an indexed preset keeps its scene and tags |
| Presets.Tag | main.py:678-690 | the selected preset's tags become the parsed buffer; an unindexed preset gets an entry named after its file; no file and no other entry changes |
| Presets.TagAgain | main.py:678-690 | tagging with the stored tags typed back as a comma-separated line changes nothing |
| Presets.TagSame | main.py:678-690 | tagging an indexed preset with the tags it already has changes nothing |
| Presets.TagsAreClean | main.py:678-690 | stored tags are clean and read back unchanged when typed as a comma-separated line |
| Presets.Delete | main.py:705-717 | deleting succeeds exactly when the file exists; a missing file is an error; on success exactly the file and its index entry go |
| Presets.DeleteThenList | main.py:705-717 | a deleted preset is no longer listed or indexed, deleting it again fails, and every other preset stays listed |
| Buttons.MetricsFor | main.py:339-345 | button height, width and margin are the larger of `height // 20`, `width // 10`, `width // 80` and 40, 80, 5 pixels; the two rows stack up from the bottom edge |
| Buttons.Layout | main.py:336-358 | nine buttons, none named twice |
| Buttons.RowsRunLeftToRight | main.py:347-357 | from 500 px wide, the bottom row is Prev, Next on the left and Zoom, Auto, Edit on the right, the second row Save, Load on the left and Help, Presets on the right; neighbours and the outer buttons and screen edges are one margin apart, and the two groups do not meet |
| Buttons.RowsStackUp | main.py:336-358 | every button has the same size; the bottom row ends one margin above the screen's bottom; the second row ends one margin above the bottom row |
| Buttons.FirstHit | main.py:386-396 | the first rectangle that holds the point, or none exactly when no rectangle holds it |
| Buttons.HitTest | main.py:386-396 | the first button in declaration order whose rectangle holds the touch, edges included, or none when no button does |
| Buttons.ButtonsApart | main.py:336-358 | from 500 pixels wide, no two buttons overlap, edges included |
| Buttons.HitIsUnique | main.py:386-396 | from 500 pixels wide, a touch inside a button selects that button |
| Buttons.DefaultWindow | main.py:336-396 | on the 800×600 window, Prev sits at (10, 550) and Zoom at (530, 550), each 80×40; a touch in the middle of the screen hits nothing |
| EventLoop.Start | main.py:415-452 | the first scene, auto-rotate on, zoom 1, every mode off, the browser closed with an empty list |
| EventLoop.StartInv | main.py:415-452 | the start session satisfies the invariant |
| EventLoop.NextScene | main.py:612-613 | Right and Next select the following scene, wrap to the first after the last, and change nothing else |
| EventLoop.PrevScene | main.py:614-615 | Left and Prev select the preceding scene, wrap to the last before the first, and change nothing else |
| EventLoop.NavigationInverse | main.py:612-615 | Left undoes Right and Right undoes Left |
| EventLoop.ForwardCounts | main.py:612-613 | within one round, pressing Right `n` times moves `n` scenes forward and wraps at most once |
| EventLoop.NavigationCycles | main.py:612-613 | pressing Right once per scene returns to the starting session |
| EventLoop.ToggleEdit | main.py:616-620 | E flips edit mode, selects the first name, and takes the current scene's parameter names in order; nothing else changes |
| EventLoop.NextParam | main.py:621-624 | Tab moves the selection to the next name and wraps; with no names it does nothing |
| EventLoop.TabsCycle | main.py:621-624 | pressing Tab once per name returns to the selected name |
| EventLoop.StepValue | main.py:740-747 | integers and booleans move by exactly 1 and floats by 0.1; other values are not stepped |
| EventLoop.StepValueInverse | main.py:736-747 | Down undoes Up on integer and float values |
| EventLoop.Adjust | main.py:736-747 | outside edit mode, or with no names, nothing happens; a stale selection raises; otherwise only the current scene's parameters change |
| EventLoop.AdjustSteps | main.py:736-747 | Up/Down steps a numeric selected parameter and leaves every other parameter alone; a missing or non-numeric parameter is left unchanged |
| EventLoop.AdjustInverse | main.py:736-747 | Up then Down restores an integer or float parameter and the whole session |
| EventLoop.ToggleZoom | main.py:627-629 | the zoom becomes 1 or 2, different from what it was |
| EventLoop.ZoomInvolution | main.py:627-629 | pressing Z twice restores the zoom |
| EventLoop.Clamp | main.py:469 | the ratio is in [0, 1] and equals the input when that is already in [0, 1] |
| EventLoop.RoundHalfEven | main.py:475 | the result is within a half of the input, and even when exactly a half away |
| EventLoop.RoundUnique | main.py:475 | those two properties determine the rounded value |
| EventLoop.SliderValue | main.py:470-478 | an integer parameter gets an integer in [0, max(20, 2v+1)], rounded from the ratio; any other parameter gets the float -10 + 20·ratio |
| EventLoop.SliderEnds | main.py:474-475 | the ends of an integer slider give 0 and max(20, 2v+1) exactly |
| EventLoop.Drag | main.py:466-478 | a missing slider, a zero-width slider or a stale selection raises; only the current scene's parameters can change; with no names nothing happens |
| EventLoop.DragSets | main.py:470-478 | a drag sets the selected parameter, even one the scene lacks, and leaves every other parameter alone |
| EventLoop.AcceptedIsNumeric | main.py:572-574 | text accepted by the numeric filter consists of digits and `.`, `-`, `e`, `E` only |
| EventLoop.DropLast | main.py:569 | removes the last character, if any |
| EventLoop.EditBuffer | main.py:576-611 | Backspace shortens the buffer by one character, other keys append what they type, and either way one buffer is a prefix of the other |
| EventLoop.BackspaceUndoes | main.py:580-587 | Backspace takes back the last character typed |
| EventLoop.NumericKey | main.py:554-575 | Return commits the buffer exactly as `NumericCommit` does, then leaves numeric input with an empty buffer; Backspace deletes; other keys append accepted text only, so the buffer keeps holding only numeric characters |
| EventLoop.NumericCommit | main.py:555-566 | a buffer that does not parse, or a stale selection, changes nothing; otherwise only the current scene's parameters change |
| EventLoop.NumericCommitSets | main.py:556-562 | the parsed number lands in the selected parameter, rounded when that is an int, and no other parameter changes |
| EventLoop.ToggleBrowser | main.py:634-639 | opening the browser lists the current scene's presets and selects the first; closing it keeps the list; nothing else changes |
| EventLoop.ToggleBrowserInv | main.py:634-639 | opening the browser shows exactly the current scene's presets, each once |
| EventLoop.StartSave | main.py:630-633 | S starts naming with an empty name |
| EventLoop.CommitSave | main.py:642-659 | a failed save only ends naming; a successful one stores the preset, lists the scene's presets and selects the last one |
| EventLoop.CommitSaveLists | main.py:642-656 | a successful save is listed, and the selection is inside the list |
| EventLoop.CommitSaveInv | main.py:642-659 | saving keeps the session reachable |
| EventLoop.CommitRename | main.py:660-677 | a blank or failed rename only ends renaming; a successful one refreshes the list and selects its first entry |
| EventLoop.CommitRenameLists | main.py:660-677 | after a rename the new name is listed and the old one is gone, without repeats |
| EventLoop.CommitTag | main.py:678-690 | the store becomes `Presets.Tag` of the selected preset: its tags become the parsed buffer, every other index entry is kept, no file changes; only tagging ends |
| EventLoop.CommitTagAgain | main.py:678-690 | committing the stored tags again, typed back as one line, leaves the store as it is |
| EventLoop.LoadSelected | main.py:691-704 | the selected preset is loaded into the current scene; a failed load changes nothing |
| EventLoop.Without | main.py:708 | `list.pop(i)` keeps the entries before `i` and shifts those after it down by one |
| EventLoop.WithoutRemoves | main.py:708 | popping from a list without repeats removes that name and only that name |
| EventLoop.DeleteSelected | main.py:705-717 | a stale selection raises; a failed removal keeps the popped list; a successful one deletes the preset and moves the selection up by one |
| EventLoop.LatestParams | main.py:720-732 | the current scene's parameters after loading its last listed preset; unchanged when the scene has no preset or the load fails |
| EventLoop.LoadLatestAsWritten | main.py:718-732 | L lists the current scene's presets and loads the last one; the selection is left where it was |
| EventLoop.LoadLatest | main.py:718-732 | the corrected L: as written, and the last preset, the one loaded, becomes the selection |
| EventLoop.LoadLatestSelects | main.py:718-732 | after the corrected L the selection is inside the list, so neither Enter nor D can raise |
| EventLoop.Enter | main.py:640-704 | a pending save is committed; otherwise, with the browser open on a valid selection, a pending rename is committed, else a pending tag, else the selected preset is loaded; with the browser open on a stale selection, Enter raises |
| EventLoop.EnterInv | main.py:640-704 | from a reachable session Enter does not raise and keeps the session reachable |
| EventLoop.MainKey | main.py:612-747 | each bound key does its action: Right and Left navigate, E toggles editing, Tab moves the selection, A, Z and H toggle rotation, zoom and help, S starts naming, P toggles the browser, Enter commits or loads, D deletes, L loads the latest preset, Up and Down adjust; unbound keys do nothing; only Enter, D, Up and Down can raise |
| EventLoop.KeyPress | main.py:552-611 | numeric input takes every key; naming, renaming and tagging, in that order, take every key but Return into their buffer; Return and keys with no input mode on take their main meaning |
| EventLoop.Touch | main.py:481-530 | a touch that misses every button does nothing; the scene, preset and load buttons do what their keys do |
| EventLoop.TouchIsKey | main.py:490-530 | each of the nine buttons does exactly what its key does, and no button raises |
| EventLoop.Dispatch | main.py:453-747 | QUIT stops the loop; a press starts a drag on the slider; a finger press elsewhere goes to the button under it; motion drags only while dragging; a release ends a drag; a key goes to the key handling; only motion and key events can raise |
| EventLoop.Step | main.py:453-747 | from a reachable session, no event raises and the next session is reachable |
| EventLoop.StepInv | main.py:453-747 | every event keeps the invariant |
| EventLoop.Run | main.py:453-747 | any sequence of events from a reachable session ends in a reachable session |
| EventLoop.StaleSelectionCrashes | main.py:693-732 | as written, Right, L, Enter from a reachable session raises IndexError; with the corrected L, the same Enter continues |

## Left out

- The generators and the drawing (`rotate_points`, `project`, the quaternion
  helpers, `draw_touch_buttons`, the help overlay text). They are
  floating-point numerics and rendering. Each generator is represented only
  by the parameter names it declares.
- Floating-point rounding. Floats are exact reals, so `0.1` steps and the
  slider ratio do not round. `float()` on the numeric buffer is a parameter
  of the environment, and infinities and NaN are not modelled.
- JSON text and numpy dtypes. A preset file is what `json.load` returns: an
  object, or `Unreadable`. A value is null, a bool, an int, a float, a
  string, a list or an array; a nested JSON object, which `json.load` gives
  as a dict and main.py:700-702 would store as it is, has no counterpart.
- Changes to the presets directory made outside the session. The store
  changes only through save, rename, tag and delete, so every listed file
  exists. In the program another process can remove a listed file. Then D
  pops the entry at main.py:708, `os.remove` raises inside the `try`, and
  `preset_index` stays where it was. If the last entry was selected, the
  next Enter (main.py:694) or D (main.py:708) raises IndexError, even with
  the corrected load key.
- Presets.Load: applies a preset all or nothing, and so does `Values.Load`.
  In the program, `np.array(v)` at main.py:700 and 728 runs inside the loop
  over the preset's keys. On a ragged nested list numpy raises, and the
  `try` catches it after the earlier keys have been assigned, so the preset
  is applied in part. Values are not modelled finely enough to tell a ragged
  list apart.
- I/O failures other than a missing file or a file name with `/` or NUL.
  Examples are permissions and a full disk. A failed write of `index.json`
  is also left out.
- Presets.Save and Presets.Rename: a name containing `/` always fails. In
  the program it would succeed if a matching subdirectory existed inside the
  presets directory; subdirectories are not modelled.
- The contents of `index.json` when loaded. The index is whatever
  dictionary it held, and malformed entries are not modelled.
- `is_mobile_device` and the scaling of touch coordinates from
  `event.x * WIDTH`. Touch positions are integer pixels.
- `str.isdigit` on non-ASCII digits. Only `0`-`9` count.
- Leaving the loop. QUIT sets `running` to false, and the rest of the event
  batch is still handled. The program's exit is not modelled.
- The restart at main.py:862-870. An exception out of `main()` calls `main()`
  once more: its locals start afresh while the module-level `scenes`, with
  every parameter already edited or loaded, is kept. The model stops at
  `Uncaught`.
- The generator fallback at main.py:769-774, which calls the generator
  without arguments after a failure. The generators are not modelled.
- Behaviour of `main.py` that the model reproduces and that is easy to
  miss:
  - the column truncation branch of `coerce_points` (lines 113-114) is dead
    code, because a 2-D array of another width has already been re-read as
    rows of 2 or 3, as `Shapes.WidthStepSeesTwoOrThree` shows;
  - nothing in `main.py` sets the slider rectangle or switches on the
    numeric, rename or tag input. They are modelled with their code, and
    `Inv` records that they stay off;
  - a stale preset selection raises outside any `try` (see Findings);
  - rename moves the index entry only when the old file has one.
- `param_meta` of the first scene is never read by the code and is not
  modelled.
- EventLoop.StepAsWritten: no contract of its own. Its behaviour on the
  failing input is stated by `EventLoop.StaleSelectionCrashes`.

## Findings

| source | as written | input that shows it | evidently intended | confidence | as-written member | corrected member |
|---|---|---|---|---|---|---|
| main.py:718-732 (and the Load button, main.py:509-523) | L replaces `preset_list` with the current scene's presets but leaves `preset_index` unchanged. A later Enter (line 694) or D (line 708) with the browser open indexes past the end and raises an IndexError outside any `try`. It ends the main loop; main.py:869-870 restarts `main()` once, and the scene, modes and preset browser start afresh. A listed file removed by another process reaches the same IndexError through a failed D; that route is not modelled (see Left out) | Browser open on the two presets `scene_0_a.json`, `scene_0_b.json` of the first scene, second selected; one preset `scene_1_c.json` for the second scene. Press Right, then L (the list becomes `[scene_1_c.json]`, the selection stays 1), then Enter | the selection stays inside the list; selecting the loaded preset, as a save does (line 656) | not executed | EventLoop.LoadLatestAsWritten, EventLoop.StaleSelectionCrashes | EventLoop.LoadLatest, EventLoop.LoadLatestSelects, EventLoop.Step |
