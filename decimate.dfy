/** The Decimate Meshes and Undecimate Meshes operators: each walks every object of
    the file and works on the MESH ones. Decimate replaces the decimate modifiers of a
    mesh by one new COLLAPSE modifier configured from the scene; Undecimate only
    removes them. The first host call that raises ends the batch; objects already
    processed keep their new stacks. */
module Decimation {
  import opened Common
  import opened Host
  import opened SceneData
  import opened Modifiers

  /** The assignments made to the new modifier, in the order the operator makes them;
      the axis is assigned only when symmetry is on. */
  function FieldOps(c: DecimateConfig): (ops: seq<ObjectOp>)
    ensures |ops| == if Truthy(c.symmetry) then 5 else 4
  {
    [SetField(DecimateType), SetField(Ratio), SetField(UseCollapseTriangulate), SetField(UseSymmetry)]
    + (if Truthy(c.symmetry) then [SetField(SymmetryAxis)] else [])
  }

  /** The assignments by position. A helper for the solver: it only unfolds FieldOps. */
  lemma FieldOpsAt(c: DecimateConfig)
    ensures var ops := FieldOps(c);
            && ops[0] == SetField(DecimateType) && ops[1] == SetField(Ratio)
            && ops[2] == SetField(UseCollapseTriangulate) && ops[3] == SetField(UseSymmetry)
            && (Truthy(c.symmetry) ==> ops[4] == SetField(SymmetryAxis))
  {
  }

  /** The new modifier after the first p of its assignments. */
  function ConfiguredUpTo(c: DecimateConfig, p: nat): DecimateSettings {
    DecimateSettings(
      if p > 0 then Some("COLLAPSE") else None,
      if p > 1 then Some(c.ratio) else None,
      if p > 2 then Some(c.triangulate) else None,
      if p > 3 then Some(c.symmetry) else None,
      if p > 4 then Some(c.symmetryAxis) else None)
  }

  /** One object of a Decimate batch: nothing happens to an object that is not a mesh;
      on a mesh, the decimate modifiers are removed, a new one is appended and its
      fields are assigned, and the first of these host calls that raises leaves the
      stack as far as it got. */
  function DecimateItem(v: ObjectView, c: DecimateConfig): Step<ObjectView, ObjectOp> {
    if !IsMesh(v) then Step(v, None)
    else
      var n := CountDecimate(v.modifiers);
      var p := FirstIn(RemovalOps(n), v.raisesOn);
      var stripped := RemoveFirstDecimates(v.modifiers, p);
      if p < n then Step(v.(modifiers := stripped), Some(RemoveModifier(p)))
      else if NewModifier in v.raisesOn then Step(v.(modifiers := stripped), Some(NewModifier))
      else
        var ops := FieldOps(c);
        var q := FirstIn(ops, v.raisesOn);
        Step(v.(modifiers := stripped + [Decimate(ConfiguredUpTo(c, q))]),
             if q < |ops| then Some(ops[q]) else None)
  }

  /** An object's Decimate step never changes anything but its modifier stack, and
      leaves an object that is not a mesh exactly as it was. */
  lemma DecimateTouchesOnlyModifiers(v: ObjectView, c: DecimateConfig)
    ensures var s := DecimateItem(v, c);
            && s.after.(modifiers := v.modifiers) == v
            && (!IsMesh(v) ==> s == Step(v, None))
  {
  }

  /** A mesh is decimated without error exactly when the host accepts every removal,
      the creation of the modifier and every assignment to it. */
  lemma DecimateSucceedsIff(v: ObjectView, c: DecimateConfig)
    requires IsMesh(v)
    ensures DecimateItem(v, c).raised.None? <==>
      && AcceptsRemovals(v.raisesOn, CountDecimate(v.modifiers))
      && NewModifier !in v.raisesOn
      && (forall j :: 0 <= j < |FieldOps(c)| ==> FieldOps(c)[j] !in v.raisesOn)
  {
    var n := CountDecimate(v.modifiers);
    var p := FirstIn(RemovalOps(n), v.raisesOn);
    if AcceptsRemovals(v.raisesOn, n) {
      assert p == n;
    } else {
      var r: nat :| r < n && RemoveModifier(r) in v.raisesOn;
      assert RemovalOps(n)[r] == RemoveModifier(r);
    }
  }

  /** A completed Decimate of a mesh: its other modifiers keep their order and the
      stack ends in exactly one decimate modifier, of type COLLAPSE, carrying the
      scene's ratio, triangulate and symmetry values, and the axis name when
      symmetry is on (the axis field is not assigned otherwise). */
  lemma DecimatedStack(v: ObjectView, c: DecimateConfig)
    requires IsMesh(v) && DecimateItem(v, c).raised.None?
    ensures var m := DecimateItem(v, c).after.modifiers;
            && m == WithoutDecimate(v.modifiers) + [Decimate(DecimateSettings(
                 Some("COLLAPSE"), Some(c.ratio), Some(c.triangulate), Some(c.symmetry),
                 if Truthy(c.symmetry) then Some(c.symmetryAxis) else None))]
            && CountDecimate(m) == 1
            && IsDecimate(m[|m| - 1])
  {
    var n := CountDecimate(v.modifiers);
    var p := FirstIn(RemovalOps(n), v.raisesOn);
    assert p == n;
    RemoveAll(v.modifiers);
    var w := WithoutDecimate(v.modifiers);
    var d := DecimateItem(v, c).after.modifiers[|w|];
    WithoutIdempotent(v.modifiers);
    CountAppend(w, [d]);
  }

  /** Decimating a decimated mesh again changes nothing, provided the host accepts
      the removal of the one decimate modifier it now has. */
  lemma DecimateIdempotent(v: ObjectView, c: DecimateConfig)
    requires IsMesh(v) && DecimateItem(v, c).raised.None?
    requires RemoveModifier(0) !in v.raisesOn
    ensures var once := DecimateItem(v, c).after;
            DecimateItem(once, c) == Step(once, None)
  {
    var once := DecimateItem(v, c).after;
    DecimatedStack(v, c);
    DecimateSucceedsIff(v, c);
    var w := WithoutDecimate(v.modifiers);
    var m := once.modifiers;
    assert AcceptsRemovals(once.raisesOn, CountDecimate(m));
    DecimateSucceedsIff(once, c);
    var p := FirstIn(RemovalOps(1), once.raisesOn);
    assert RemovalOps(1)[0] == RemoveModifier(0);
    assert p == 1;
    WithoutIdempotent(v.modifiers);
    assert m == w + [m[|w|]];
    RemoveAfterClean(w, [m[|w|]], 1);
    assert [m[|w|]][1..] == [];
    assert RemoveFirstDecimates(m, 1) == w;
  }

  /** Decimate on one object, as the operator's loop body does it. */
  method DecimateObject(obj: BlendObject, c: DecimateConfig) returns (raised: Option<ObjectOp>)
    requires obj.objectType == "MESH"
    modifies obj`modifiers
    ensures obj.View() == DecimateItem(old(obj.View()), c).after
    ensures raised == DecimateItem(old(obj.View()), c).raised
  {
    FieldOpsAt(c);
    var _, r := RemoveAllDecimateModifiers(obj);
    if r.Some? {
      return r;
    }
    if NewModifier in obj.raisesOn {
      return Some(NewModifier);
    }
    var base := obj.modifiers;
    var settings := Unassigned;
    obj.modifiers := base + [Decimate(settings)];
    if SetField(DecimateType) in obj.raisesOn {
      return Some(SetField(DecimateType));
    }
    settings := settings.(decimateType := Some("COLLAPSE"));
    obj.modifiers := base + [Decimate(settings)];
    if SetField(Ratio) in obj.raisesOn {
      return Some(SetField(Ratio));
    }
    settings := settings.(ratio := Some(c.ratio));
    obj.modifiers := base + [Decimate(settings)];
    if SetField(UseCollapseTriangulate) in obj.raisesOn {
      return Some(SetField(UseCollapseTriangulate));
    }
    settings := settings.(useCollapseTriangulate := Some(c.triangulate));
    obj.modifiers := base + [Decimate(settings)];
    if SetField(UseSymmetry) in obj.raisesOn {
      return Some(SetField(UseSymmetry));
    }
    settings := settings.(useSymmetry := Some(c.symmetry));
    obj.modifiers := base + [Decimate(settings)];
    if Truthy(c.symmetry) {
      if SetField(SymmetryAxis) in obj.raisesOn {
        return Some(SetField(SymmetryAxis));
      }
      settings := settings.(symmetryAxis := Some(c.symmetryAxis));
      obj.modifiers := base + [Decimate(settings)];
    }
    raised := None;
  }

  function DecimateSteps(vs: seq<ObjectView>, c: DecimateConfig): (steps: seq<Step<ObjectView, ObjectOp>>)
    ensures |steps| == |vs|
    ensures forall j :: 0 <= j < |vs| ==> steps[j] == DecimateItem(vs[j], c)
  {
    seq(|vs|, j requires 0 <= j < |vs| => DecimateItem(vs[j], c))
  }

  /** The loop body of the Decimate Meshes operator on the object at position i of
      the batch: a mesh is decimated, any other object is left alone; the batch moves
      on by one item, and when nothing raised the count of meshes grows by one for a mesh. */
  method DecimateAt(obj: BlendObject, c: DecimateConfig, ghost objects: seq<BlendObject>, ghost i: nat,
                    ghost before: seq<ObjectView>, ghost steps: seq<Step<ObjectView, ObjectOp>>, ncount: nat)
    returns (ncount': nat, raised: Option<ObjectOp>)
    requires i < |objects| == |before| == |steps| && objects[i] == obj && Distinct(objects)
    requires steps[i] == DecimateItem(before[i], c)
    requires ObjectViews(objects) == Applied(before, steps, i)
    requires ncount == CountMeshes(before[..i])
    modifies obj`modifiers
    ensures ObjectViews(objects) == Applied(before, steps, i + 1)
    ensures raised == steps[i].raised
    ensures raised.None? ==> ncount' == CountMeshes(before[..i + 1])
  {
    CountersStep(before, i);
    ncount', raised := ncount, None;
    if obj.objectType == "MESH" {
      raised := DecimateObject(obj, c);
      ncount' := ncount + 1;
    }
    forall j | 0 <= j < |objects| && j != i
      ensures old(objects[j].View()) == objects[j].View()
    {
      assert objects[j] != obj;
    }
    AppliedStep(before, steps, i);
  }

  /** Where the loop of the Decimate Meshes operator stops, at the first raising item
      or at the end, it has left the fail-fast merge and counted the meshes before that point. */
  lemma DecimateLoopExit(before: seq<ObjectView>, after: seq<ObjectView>, c: DecimateConfig,
                         ncount: nat, failure: Option<Failure>, i: nat)
    requires i <= |before|
    requires forall j :: 0 <= j < i ==> DecimateItem(before[j], c).raised.None?
    requires i < |before| ==> DecimateItem(before[i], c).raised.Some?
    requires after == Applied(before, DecimateSteps(before, c), if i < |before| then i + 1 else i)
    requires ncount == CountMeshes(before[..i])
    requires failure == (if i < |before| then Some(ObjectRaised(i, DecimateItem(before[i], c).raised.value)) else None)
    ensures var steps := DecimateSteps(before, c);
            var k := FirstRaise(steps);
            && after == Merge(before, steps)
            && ncount == CountMeshes(before[..k])
            && failure == (if k < |before| then Some(ObjectRaised(k, steps[k].raised.value)) else None)
  {
    AppliedIsMerge(before, DecimateSteps(before, c), i);
  }

  /** The loop of the Decimate Meshes operator, with the configuration it read: the
      objects are processed in order up to the first one whose step raised, and
      ncount is the number of meshes finished before it. */
  method DecimateObjects(objects: seq<BlendObject>, c: DecimateConfig) returns (ncount: nat, failure: Option<Failure>)
    requires Distinct(objects)
    modifies objects
    ensures var before := old(ObjectViews(objects));
            var steps := DecimateSteps(before, c);
            var k := FirstRaise(steps);
            && ObjectViews(objects) == Merge(before, steps)
            && ncount == CountMeshes(before[..k])
            && failure == (if k < |objects| then Some(ObjectRaised(k, steps[k].raised.value)) else None)
  {
    ghost var before := ObjectViews(objects);
    ghost var steps := DecimateSteps(before, c);
    ncount := 0;
    var i := 0;
    while i < |objects|
      invariant 0 <= i <= |objects|
      invariant forall j :: 0 <= j < i ==> steps[j].raised.None?
      invariant ObjectViews(objects) == Applied(before, steps, i)
      invariant ncount == CountMeshes(before[..i])
    {
      var ncount', raised := DecimateAt(objects[i], c, objects, i, before, steps, ncount);
      if raised.Some? {
        failure := Some(ObjectRaised(i, raised.value));
        DecimateLoopExit(before, ObjectViews(objects), c, ncount, failure, i);
        return;
      }
      ncount := ncount';
      NoneRaisedExtends(steps, i);
      i := i + 1;
    }
    failure := None;
    DecimateLoopExit(before, ObjectViews(objects), c, ncount, failure, i);
  }

  /** The Decimate Meshes operator. A configuration read that fails touches nothing;
      otherwise the loop runs, and after a loop that completes the scene update can
      still raise. */
  method DecimateGlobally(objects: seq<BlendObject>, scene: Scene) returns (ncount: nat, failure: Option<Failure>)
    requires Distinct(objects)
    modifies objects
    ensures var before := old(ObjectViews(objects));
            match ReadDecimateConfig(scene.table)
            case Err(e) => ncount == 0 && failure == Some(e) && ObjectViews(objects) == before
            case Ok(c) =>
              var steps := DecimateSteps(before, c);
              var k := FirstRaise(steps);
              && ObjectViews(objects) == Merge(before, steps)
              && ncount == CountMeshes(before[..k])
              && failure == (if k < |objects| then Some(ObjectRaised(k, steps[k].raised.value))
                             else if SceneUpdate in scene.raisesOn then Some(SceneRaised(SceneUpdate))
                             else None)
  {
    var cfg := ReadDecimateConfig(scene.table);
    if cfg.Err? {
      return 0, Some(cfg.error);
    }
    ncount, failure := DecimateObjects(objects, cfg.value);
    if failure.None? && SceneUpdate in scene.raisesOn {
      failure := Some(SceneRaised(SceneUpdate));
    }
  }

  /** One object of an Undecimate batch: a mesh loses its decimate modifiers, as far as
      the host lets the removals go. */
  function UndecimateItem(v: ObjectView): Step<ObjectView, ObjectOp> {
    if !IsMesh(v) then Step(v, None)
    else
      var n := CountDecimate(v.modifiers);
      var p := FirstIn(RemovalOps(n), v.raisesOn);
      Step(v.(modifiers := RemoveFirstDecimates(v.modifiers, p)),
           if p < n then Some(RemoveModifier(p)) else None)
  }

  function UndecimateSteps(vs: seq<ObjectView>): (steps: seq<Step<ObjectView, ObjectOp>>)
    ensures |steps| == |vs|
    ensures forall j :: 0 <= j < |vs| ==> steps[j] == UndecimateItem(vs[j])
  {
    seq(|vs|, j requires 0 <= j < |vs| => UndecimateItem(vs[j]))
  }

  /** The number of decimate modifiers on the meshes. */
  function DecimateOnMeshes(vs: seq<ObjectView>): nat {
    if vs == [] then 0
    else
      var last := vs[|vs| - 1];
      DecimateOnMeshes(vs[..|vs| - 1]) + (if IsMesh(last) then CountDecimate(last.modifiers) else 0)
  }

  /** A mesh whose Undecimate completes has no decimate modifier left and keeps the
      others in order; the step raises exactly when some removal is refused. */
  lemma UndecimateClears(v: ObjectView)
    requires IsMesh(v)
    ensures UndecimateItem(v).raised.None? <==> AcceptsRemovals(v.raisesOn, CountDecimate(v.modifiers))
    ensures UndecimateItem(v).raised.None? ==>
      && UndecimateItem(v).after == v.(modifiers := WithoutDecimate(v.modifiers))
      && CountDecimate(UndecimateItem(v).after.modifiers) == 0
  {
    var n := CountDecimate(v.modifiers);
    var p := FirstIn(RemovalOps(n), v.raisesOn);
    if AcceptsRemovals(v.raisesOn, n) {
      assert p == n;
      RemoveAll(v.modifiers);
      WithoutIdempotent(v.modifiers);
    } else {
      var r: nat :| r < n && RemoveModifier(r) in v.raisesOn;
      assert RemovalOps(n)[r] == RemoveModifier(r);
    }
  }

  /** Undecimating a decimated mesh gives back its original stack with the decimate
      modifiers gone, provided the host accepts the one removal it takes. */
  lemma UndecimateAfterDecimate(v: ObjectView, c: DecimateConfig)
    requires IsMesh(v) && DecimateItem(v, c).raised.None?
    requires RemoveModifier(0) !in v.raisesOn
    ensures UndecimateItem(DecimateItem(v, c).after)
            == Step(v.(modifiers := WithoutDecimate(v.modifiers)), None)
  {
    var once := DecimateItem(v, c).after;
    DecimatedStack(v, c);
    DecimateTouchesOnlyModifiers(v, c);
    assert AcceptsRemovals(once.raisesOn, CountDecimate(once.modifiers));
    UndecimateClears(once);
    var w := WithoutDecimate(v.modifiers);
    var m := once.modifiers;
    assert m == w + [m[|w|]];
    WithoutAppend(w, [m[|w|]]);
    WithoutIdempotent(v.modifiers);
    assert [m[|w|]][1..] == [];
    assert WithoutDecimate([m[|w|]]) == [];
    assert WithoutDecimate(m) == w;
  }

  /** A second Undecimate batch after one that completed finds nothing to remove:
      every object is left as it is and nothing raises. */
  lemma UndecimateBatchTwice(vs: seq<ObjectView>)
    requires FirstRaise(UndecimateSteps(vs)) == |vs|
    ensures var once := Merge(vs, UndecimateSteps(vs));
            && DecimateOnMeshes(once) == 0
            && FirstRaise(UndecimateSteps(once)) == |vs|
            && Merge(once, UndecimateSteps(once)) == once
  {
    var steps := UndecimateSteps(vs);
    var once := Merge(vs, steps);
    MergeFailFast(vs, steps, |vs|);
    forall j | 0 <= j < |vs|
      ensures UndecimateItem(once[j]) == Step(once[j], None)
      ensures IsMesh(once[j]) ==> CountDecimate(once[j].modifiers) == 0
    {
      if IsMesh(vs[j]) {
        UndecimateClears(vs[j]);
        var w := WithoutDecimate(vs[j].modifiers);
        WithoutIdempotent(vs[j].modifiers);
        CountZero(w);
        RemoveNone(w);
        assert RemovalOps(0) == [];
      }
    }
    var again := UndecimateSteps(once);
    MergeFailFast(once, again, |vs|);
    NoneOnMeshes(once);
  }

  lemma {:induction false} NoneOnMeshes(vs: seq<ObjectView>)
    requires forall j :: 0 <= j < |vs| && IsMesh(vs[j]) ==> CountDecimate(vs[j].modifiers) == 0
    ensures DecimateOnMeshes(vs) == 0
  {
    if vs != [] {
      NoneOnMeshes(vs[..|vs| - 1]);
    }
  }

  /** The counters after one more object. */
  lemma CountersStep(vs: seq<ObjectView>, i: nat)
    requires i < |vs|
    ensures CountMeshes(vs[..i + 1]) == CountMeshes(vs[..i]) + (if IsMesh(vs[i]) then 1 else 0)
    ensures DecimateOnMeshes(vs[..i + 1])
            == DecimateOnMeshes(vs[..i]) + (if IsMesh(vs[i]) then CountDecimate(vs[i].modifiers) else 0)
  {
    assert vs[..i + 1][..i] == vs[..i];
  }

  /** The loop body of the Undecimate Meshes operator on the object at position i of
      the batch: a mesh loses its decimate modifiers, and when nothing raised the
      counters grow by the number removed, which is all of them, and by one mesh. */
  method UndecimateAt(obj: BlendObject, ghost objects: seq<BlendObject>, ghost i: nat, ghost before: seq<ObjectView>,
                      ncount: nat, ntotal: nat)
    returns (ncount': nat, ntotal': nat, raised: Option<ObjectOp>)
    requires i < |objects| == |before| && objects[i] == obj && Distinct(objects)
    requires obj.View() == before[i]
    requires ncount == DecimateOnMeshes(before[..i]) && ntotal == CountMeshes(before[..i])
    modifies obj`modifiers
    ensures ObjectViews(objects) == old(ObjectViews(objects))[i := UndecimateItem(before[i]).after]
    ensures raised == UndecimateItem(before[i]).raised
    ensures raised.None? ==> ncount' == DecimateOnMeshes(before[..i + 1]) && ntotal' == CountMeshes(before[..i + 1])
  {
    CountersStep(before, i);
    ncount', ntotal', raised := ncount, ntotal, None;
    if obj.objectType == "MESH" {
      var removed;
      removed, raised := RemoveAllDecimateModifiers(obj);
      if raised.None? {
        ncount' := ncount + removed;
        ntotal' := ntotal + 1;
      }
    }
    forall j | 0 <= j < |objects| && j != i
      ensures old(objects[j].View()) == objects[j].View()
    {
      assert objects[j] != obj;
    }
  }

  /** The Undecimate Meshes operator. The objects are processed in order up to the
      first one whose step raised; ncount is the number of decimate modifiers and
      ntotal the number of meshes finished before it. */
  method UnDecimateGlobally(objects: seq<BlendObject>) returns (ncount: nat, ntotal: nat, failure: Option<Failure>)
    requires Distinct(objects)
    modifies objects
    ensures var before := old(ObjectViews(objects));
            var steps := UndecimateSteps(before);
            var k := FirstRaise(steps);
            && ObjectViews(objects) == Merge(before, steps)
            && ncount == DecimateOnMeshes(before[..k])
            && ntotal == CountMeshes(before[..k])
            && failure == (if k < |objects| then Some(ObjectRaised(k, steps[k].raised.value)) else None)
  {
    ghost var before := ObjectViews(objects);
    ghost var steps := UndecimateSteps(before);
    ncount, ntotal := 0, 0;
    var i := 0;
    while i < |objects|
      invariant 0 <= i <= |objects|
      invariant forall j :: 0 <= j < i ==> steps[j].raised.None?
      invariant ObjectViews(objects) == Applied(before, steps, i)
      invariant ncount == DecimateOnMeshes(before[..i])
      invariant ntotal == CountMeshes(before[..i])
    {
      var ncount', ntotal', raised := UndecimateAt(objects[i], objects, i, before, ncount, ntotal);
      AppliedStep(before, steps, i);
      if raised.Some? {
        AppliedIsMerge(before, steps, i);
        return ncount, ntotal, Some(ObjectRaised(i, raised.value));
      }
      ncount, ntotal := ncount', ntotal';
      NoneRaisedExtends(steps, i);
      i := i + 1;
    }
    AppliedIsMerge(before, steps, |objects|);
    assert before[..|objects|] == before;
    failure := None;
  }

  /** The first counter counts modifiers, not meshes: one mesh with two decimate
      modifiers gives "Undecimated 2 of 1 meshes". */
  lemma UndecimateCountsModifiers(d1: DecimateSettings, d2: DecimateSettings)
    ensures var v := ObjectView("MESH", {}, [Decimate(d1), Decimate(d2)], [], false);
            && DecimateOnMeshes([v]) == 2
            && CountMeshes([v]) == 1
  {
    var s := [Decimate(d1), Decimate(d2)];
    assert s[1..] == [Decimate(d2)] && s[1..][1..] == [];
    assert CountDecimate(s) == 2;
    var v := ObjectView("MESH", {}, s, [], false);
    assert [v][..0] == [];
  }
}
