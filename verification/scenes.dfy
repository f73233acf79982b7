/** The scene registry (main.py:301-333) and how a scene's parameters become
    the keyword arguments of its generator (main.py:755-768).

    The generators themselves are numerical code and are not modelled; each
    is represented by the set of parameter names its signature declares
    (main.py:138-286), which is all the argument preparation looks at. */
module Scenes {
  import opened Results
  import opened Values

  datatype Generator =
    | TorusKnot | GradientFlow | FibSpiral | HarmonicPressure | StandingWave
    | PhaseAlignment | QuaternionRotation | ConvergingWaves | GoldenTorusSpiral
    | HarmonicLattice | HarmonicSuperposition

  /** The parameter names of each generator's signature. */
  function Declared(g: Generator): set<string> {
    match g
    case TorusKnot => {"p", "q", "R", "r", "num_points"}
    case GradientFlow => {"num_arrows"}
    case FibSpiral => {"num_points", "phi"}
    case HarmonicPressure => {"num_points"}
    case StandingWave => {"num_points", "amp", "freq", "t"}
    case PhaseAlignment => {"num_points", "phase_diff"}
    case QuaternionRotation => {"angle", "axis"}
    case ConvergingWaves => {"num_points"}
    case GoldenTorusSpiral => {"num_points", "turns", "R", "r", "phi"}
    case HarmonicLattice => {"nx", "ny", "modes"}
    case HarmonicSuperposition =>
      {"num_waves", "num_points", "x_min", "x_max", "amplitudes", "freqs", "phases", "t"}
  }

  datatype Scene = Scene(name: string, gen: Generator, params: Params)

  /** The eleven scenes and their starting parameters. Floating-point
      constants are the doubles Python computes: `(1+sqrt(5))/2` and `pi/2`. */
  const Initial: seq<Scene> := [
    Scene("1. Fibonacci Torus Knots", TorusKnot, KnotStart),
    Scene("2. Force Gradient Flow", GradientFlow, Empty),
    Scene("3. Golden Ratio Overtone", FibSpiral, Params(["phi"], map["phi" := Num(1.618033988749895)])),
    Scene("4. Gravity Harmonic Pressure", HarmonicPressure, Empty),
    Scene("5. Mass Phase-Locked Density", StandingWave, WaveStart),
    Scene("6. Quantum Phase Alignment", PhaseAlignment,
          Params(["phase_diff"], map["phase_diff" := Num(1.5707963267948966)])),
    Scene("7. Quaternion Rotation", QuaternionRotation, QuaternionStart),
    Scene("8. Spacetime Emergent Geom", ConvergingWaves, Empty),
    Scene("9. Golden Torus Spiral", GoldenTorusSpiral, SpiralStart),
    Scene("10. Harmonic Lattice", HarmonicLattice, LatticeStart),
    Scene("11. Harmonic Superposition", HarmonicSuperposition, SuperpositionStart)
  ]

  const KnotStart :=
    Params(["p", "q", "R", "r"], map["p" := Int(2), "q" := Int(3), "R" := Num(1.0), "r" := Num(0.4)])
  const WaveStart := Params(["amp", "freq"], map["amp" := Num(1.0), "freq" := Num(2.0)])
  const QuaternionStart :=
    Params(["angle", "axis"], map["angle" := Num(0.0), "axis" := Vec([Num(1.0), Num(1.0), Num(1.0)])])
  const SpiralStart := Params(["turns", "R", "r"], map["turns" := Int(5), "R" := Num(1.0), "r" := Num(0.2)])
  const LatticeStart := Params(["nx", "ny", "modes"], map["nx" := Int(32), "ny" := Int(32), "modes" := Int(3)])
  const SuperpositionStart := Params(["num_waves", "num_points"], map["num_waves" := Int(5), "num_points" := Int(400)])

  /** Scene `i` starts with well-formed parameters, each of which its
      generator declares, and only scenes 5 and 11 take a time argument. */
  ghost predicate WellDeclared(i: nat)
    requires i < |Initial|
  {
    && Valid(Initial[i].params)
    && (forall k :: k in Initial[i].params.vals ==> k in Declared(Initial[i].gen))
    && ("t" in Declared(Initial[i].gen) <==> i == 4 || i == 10)
  }

  lemma InitialScenes()
    ensures |Initial| == 11
    ensures forall i :: 0 <= i < |Initial| ==> WellDeclared(i)
  {
    forall i | 0 <= i < |Initial| ensures WellDeclared(i) {
      InitialScene(i);
    }
  }

  lemma InitialScene(i: nat)
    requires i < |Initial|
    ensures WellDeclared(i)
  {
    var sc := Initial[i];
    TimedScenes(i);
    KnownParams(sc.params, Declared(sc.gen));
  }

  lemma TimedScenes(i: nat)
    requires i < |Initial|
    ensures "t" in Declared(Initial[i].gen) <==> i == 4 || i == 10
  {
  }

  /** A literal parameter mapping with distinct keys, all declared. */
  lemma KnownParams(p: Params, declared: set<string>)
    requires forall i, j :: 0 <= i < j < |p.keys| ==> p.keys[i] != p.keys[j]
    requires p.vals.Keys == set k | k in p.keys
    requires forall i :: 0 <= i < |p.keys| ==> p.keys[i] in declared
    ensures Valid(p)
    ensures forall k :: k in p.vals ==> k in declared
  {
  }

  // ---------------------------------------------------------------------
  // get_scene_params / set_scene_param

  /** Python's reading of `scenes[index]`: negative indices count from the
      end; anything else outside the list raises. */
  function PyIndex(n: nat, index: int): (r: Option<nat>)
    ensures r.Some? <==> 0 <= index + n && index < n
    ensures r.Some? ==> r.value < n && (r.value == index || r.value == index + n)
  {
    if 0 <= index < n then Some(index)
    else if 0 <= index + n && index < 0 then Some(index + n)
    else None
  }

  /** `get_scene_params(index)`: the scene's parameters, or `{}` when the
      index raises (main.py:320-325). */
  function GetSceneParams(scenes: seq<Scene>, index: int): (r: Params)
    ensures PyIndex(|scenes|, index).None? ==> r == Empty
    ensures PyIndex(|scenes|, index).Some? ==> r == scenes[PyIndex(|scenes|, index).value].params
  {
    match PyIndex(|scenes|, index)
    case None => Empty
    case Some(i) => scenes[i].params
  }

  /** `set_scene_param(index, key, value)`: one parameter of one scene is set;
      a bad index changes nothing (main.py:328-333). */
  function SetSceneParam(scenes: seq<Scene>, index: int, key: string, value: Value): (r: seq<Scene>)
    ensures |r| == |scenes|
    ensures PyIndex(|scenes|, index).None? ==> r == scenes
    ensures forall i :: 0 <= i < |scenes| && Some(i) != PyIndex(|scenes|, index) ==> r[i] == scenes[i]
    ensures PyIndex(|scenes|, index).Some? ==>
              var i := PyIndex(|scenes|, index).value;
              && r[i].name == scenes[i].name && r[i].gen == scenes[i].gen
              && r[i].params == Put(scenes[i].params, key, value)
  {
    match PyIndex(|scenes|, index)
    case None => scenes
    case Some(i) => scenes[i := scenes[i].(params := Put(scenes[i].params, key, value))]
  }

  /** What is set can be read back through the same index, or through the
      other spelling of it (`i` and `i - len(scenes)` name the same scene);
      every other scene is untouched. */
  lemma SetThenGet(scenes: seq<Scene>, index: int, other: int, key: string, value: Value)
    requires 0 <= index + |scenes| && index < |scenes|
    requires 0 <= other + |scenes| && other < |scenes|
    ensures var same := index == other || index - other == |scenes| || other - index == |scenes|;
            var r := GetSceneParams(SetSceneParam(scenes, index, key, value), other);
            && (same ==> Get(r, key) == Some(value))
            && (!same ==> r == GetSceneParams(scenes, other))
  {
  }

  // ---------------------------------------------------------------------
  // generator arguments

  /** The keys of `keys` that are in `allowed`, in order. */
  function Filter(keys: seq<string>, allowed: set<string>): (r: seq<string>)
    ensures forall k :: k in r <==> k in keys && k in allowed
    ensures |r| <= |keys|
    ensures Distinct(keys) ==> Distinct(r)
    ensures |keys| == 1 ==> r == if keys[0] in allowed then keys else []
    decreases |keys|
  {
    if keys == [] then []
    else
      var rest := Filter(keys[1..], allowed);
      assert forall k :: k in keys <==> k == keys[0] || k in keys[1..];
      if keys[0] in allowed then
        assert Distinct(keys) ==> keys[0] !in keys[1..] && Distinct(keys[1..]) by {
          if Distinct(keys) {
            forall j | 0 <= j < |keys[1..]| ensures keys[1..][j] != keys[0] {
              assert keys[1..][j] == keys[j + 1];
            }
          }
        }
        [keys[0]] + rest
      else
        assert Distinct(keys) ==> Distinct(keys[1..]) by {
          if Distinct(keys) {
            forall a, b | 0 <= a < b < |keys[1..]| ensures keys[1..][a] != keys[1..][b] {
              assert keys[1..][a] == keys[a + 1] && keys[1..][b] == keys[b + 1];
            }
          }
        }
        rest
  }

  /** Filtering works piece by piece, so the kept keys stay in the order
      they had. */
  lemma {:induction false} FilterAppend(a: seq<string>, b: seq<string>, allowed: set<string>)
    ensures Filter(a + b, allowed) == Filter(a, allowed) + Filter(b, allowed)
    decreases |a|
  {
    if a != [] {
      assert (a + b)[1..] == a[1..] + b;
      FilterAppend(a[1..], b, allowed);
    } else {
      assert a + b == b;
    }
  }

  /** Filtering by a set holding every key changes nothing. */
  lemma {:induction false} FilterAllowed(keys: seq<string>, allowed: set<string>)
    requires forall i :: 0 <= i < |keys| ==> keys[i] in allowed
    ensures Filter(keys, allowed) == keys
    decreases |keys|
  {
    if keys != [] {
      FilterAllowed(keys[1..], allowed);
      assert [keys[0]] + keys[1..] == keys;
    }
  }

  /** The keyword arguments the frame loop passes to a generator that declares
      `declared`, given the scene's parameters and the clock `t` in seconds
      (main.py:755-768): `t` is supplied only when declared and not already a
      parameter, then everything undeclared is dropped. */
  function GeneratorArgs(p: Params, declared: set<string>, t: real): (r: Params)
    requires Valid(p)
    ensures Valid(r)
    ensures forall k :: k in r.vals <==> (k in p.vals && k in declared) || (k == "t" && "t" in declared)
    ensures forall k :: k in r.vals && k in p.vals ==> r.vals[k] == p.vals[k]
    ensures "t" in declared && "t" !in p.vals ==> r.vals["t"] == Num(t)
  {
    var withT := if "t" in declared && "t" !in p.vals then Put(p, "t", Num(t)) else p;
    var keys := Filter(withT.keys, declared);
    Params(keys, map k | k in withT.vals && k in declared :: withT.vals[k])
  }

  /** A generator whose declared names cover the scene's parameters receives
      all of them, in the scene's order, followed by `t` when it takes one. */
  lemma ArgsOfDeclared(p: Params, declared: set<string>, t: real)
    requires Valid(p)
    requires forall k :: k in p.vals ==> k in declared
    ensures var r := GeneratorArgs(p, declared, t);
            && ("t" !in declared || "t" in p.vals ==> r.keys == p.keys && r.vals == p.vals)
            && ("t" in declared && "t" !in p.vals ==> r.keys == p.keys + ["t"])
  {
    var withT := if "t" in declared && "t" !in p.vals then Put(p, "t", Num(t)) else p;
    assert forall i :: 0 <= i < |withT.keys| ==> withT.keys[i] in withT.vals;
    FilterAllowed(withT.keys, declared);
  }

  /** Only the standing wave and the superposition are given the clock. */
  lemma ClockOnlyForTimedScenes(i: nat, t: real)
    requires i < |Initial|
    ensures Valid(Initial[i].params)
    ensures var r := GeneratorArgs(Initial[i].params, Declared(Initial[i].gen), t);
            "t" in r.vals <==> i == 4 || i == 10
  {
    InitialScene(i);
    var sc := Initial[i];
    var r := GeneratorArgs(sc.params, Declared(sc.gen), t);
    assert "t" in r.vals <==> "t" in Declared(sc.gen);
  }
}
