/** The Smart UV Project operator: it reads six unwrap settings from the scene, walks
    every object of the file, optionally strips the UV layers of each mesh, selects
    exactly the meshes left without UV layers, and unwraps the selection when there is
    one. The active object is restored at the end when there was one to restore. */
module SmartUv {
  import opened Common
  import opened Host
  import opened SceneData

  /** The host calls of stripping n UV layers: the 0th, 1st, ... `uv_texture_remove`. */
  function UvRemovalOps(n: nat): (ops: seq<ObjectOp>)
    ensures |ops| == n
    ensures forall r :: 0 <= r < n ==> ops[r] == RemoveUvTexture(r)
  {
    seq(n, r requires 0 <= r < n => RemoveUvTexture(r))
  }

  /** The objects the operator makes active: meshes it strips of their UV layers. */
  predicate Activated(v: ObjectView, delete: bool) {
    IsMesh(v) && delete && |v.uvLayers| > 0
  }

  /** One object of the batch: an object that is not a mesh is deselected; a mesh is
      stripped of its UV layers first when `delete` is on, and is then selected
      exactly when it has no UV layer. A removal that raises leaves the layers not yet
      removed and the selection flag as they were. */
  function UvItem(v: ObjectView, delete: bool): Step<ObjectView, ObjectOp> {
    if !IsMesh(v) then Step(v.(select := false), None)
    else if Activated(v, delete) then
      var n := |v.uvLayers|;
      var q := FirstIn(UvRemovalOps(n), v.raisesOn);
      if q < n then Step(v.(uvLayers := v.uvLayers[q..]), Some(RemoveUvTexture(q)))
      else Step(v.(uvLayers := [], select := true), None)
    else Step(v.(select := |v.uvLayers| == 0), None)
  }

  /** The host accepts the first c UV layer removals on an object. */
  predicate AcceptsUvRemovals(raising: set<ObjectOp>, c: nat) {
    forall r: nat :: r < c ==> RemoveUvTexture(r) !in raising
  }

  /** Only the UV layers and the selection flag of an object change, and only a mesh
      can raise. */
  lemma UvItemFrame(v: ObjectView, delete: bool)
    ensures UvItem(v, delete).after.(uvLayers := v.uvLayers, select := v.select) == v
    ensures !IsMesh(v) ==> UvItem(v, delete) == Step(v.(select := false), None)
  {
  }

  /** A step raises exactly when it strips a mesh and the host refuses one of the
      removals; a step that completes selects the mesh exactly when `delete` is on or
      it had no UV layer, and leaves it without UV layers when `delete` is on and with
      its own otherwise. */
  lemma UvItemOutcome(v: ObjectView, delete: bool)
    requires IsMesh(v)
    ensures UvItem(v, delete).raised.Some? <==>
      Activated(v, delete) && !AcceptsUvRemovals(v.raisesOn, |v.uvLayers|)
    ensures UvItem(v, delete).raised.None? ==>
      && UvItem(v, delete).after.select == (delete || |v.uvLayers| == 0)
      && UvItem(v, delete).after.uvLayers == (if delete then [] else v.uvLayers)
  {
    var n := |v.uvLayers|;
    var q := FirstIn(UvRemovalOps(n), v.raisesOn);
    if !AcceptsUvRemovals(v.raisesOn, n) {
      var r: nat :| r < n && RemoveUvTexture(r) in v.raisesOn;
      assert UvRemovalOps(n)[r] == RemoveUvTexture(r);
    }
  }

  function UvSteps(vs: seq<ObjectView>, delete: bool): (steps: seq<Step<ObjectView, ObjectOp>>)
    ensures |steps| == |vs|
    ensures forall j :: 0 <= j < |vs| ==> steps[j] == UvItem(vs[j], delete)
  {
    seq(|vs|, j requires 0 <= j < |vs| => UvItem(vs[j], delete))
  }

  /** The meshes a completed step selects (ncount counts them). */
  function CountSelected(vs: seq<ObjectView>, delete: bool): (n: nat)
    ensures n <= CountMeshes(vs)
  {
    if vs == [] then 0
    else
      var last := vs[|vs| - 1];
      CountSelected(vs[..|vs| - 1], delete) + (if IsMesh(last) && (delete || |last.uvLayers| == 0) then 1 else 0)
  }

  /** With `delete` on, every mesh is selected: ncount equals ntotal. */
  lemma {:induction false} DeleteSelectsAll(vs: seq<ObjectView>)
    ensures CountSelected(vs, true) == CountMeshes(vs)
  {
    if vs != [] {
      DeleteSelectsAll(vs[..|vs| - 1]);
    }
  }

  /** When no mesh has a UV layer, `delete` makes no difference to the count. */
  lemma {:induction false} NothingToDelete(vs: seq<ObjectView>)
    requires forall j :: 0 <= j < |vs| ==> |vs[j].uvLayers| == 0
    ensures CountSelected(vs, false) == CountMeshes(vs)
  {
    if vs != [] {
      NothingToDelete(vs[..|vs| - 1]);
    }
  }

  /** The one object made active last among vs, if any. */
  function LastActivated(vs: seq<ObjectView>, delete: bool): (r: Option<nat>)
    ensures r.Some? ==> r.value < |vs|
  {
    if vs == [] then None
    else if Activated(vs[|vs| - 1], delete) then Some(|vs| - 1)
    else LastActivated(vs[..|vs| - 1], delete)
  }

  /** LastActivated finds the last of the objects made active, and finds one whenever
      one was. */
  lemma {:induction false} LastActivatedIsLast(vs: seq<ObjectView>, delete: bool)
    ensures var r := LastActivated(vs, delete);
            && (r.Some? ==> Activated(vs[r.value], delete))
            && (r.Some? ==> forall j :: r.value < j < |vs| ==> !Activated(vs[j], delete))
            && (r.None? ==> forall j :: 0 <= j < |vs| ==> !Activated(vs[j], delete))
  {
    if vs != [] && !Activated(vs[|vs| - 1], delete) {
      LastActivatedIsLast(vs[..|vs| - 1], delete);
    }
  }

  /** The active object before the restore: the one activated last, or the one the
      batch started with. */
  function ActiveAfter(objects: seq<BlendObject>, vs: seq<ObjectView>, delete: bool, initial: BlendObject?): BlendObject?
    requires |vs| <= |objects|
  {
    match LastActivated(vs, delete)
    case Some(j) => objects[j]
    case None => initial
  }

  /** The arguments of the `uv.smart_project` call. */
  datatype ProjectCall = ProjectCall(
    angleLimit: Value, islandMargin: Value, userAreaWeight: Value, useAspect: Value, stretchToBounds: Value)

  function CallFor(c: UvConfig): ProjectCall {
    ProjectCall(c.angleLimit, c.islandMargin, c.areaWeight, c.correctAspect, c.stretchToUvBounds)
  }

  /** The result of the operator: its two counters, the unwrap call it made, if any,
      and the failure that ended it, if any. */
  datatype UvOutcome = UvOutcome(ncount: nat, ntotal: nat, call: Option<ProjectCall>, failure: Option<Failure>)

  /** Strips the UV layers of the active mesh (`while len(uv_textures): uv_texture_remove()`),
      until none is left or a removal raises. */
  method StripUvLayers(obj: BlendObject) returns (raised: Option<ObjectOp>)
    modifies obj`uvLayers
    ensures var n := |old(obj.uvLayers)|;
            var q := FirstIn(UvRemovalOps(n), obj.raisesOn);
            && obj.uvLayers == old(obj.uvLayers)[q..]
            && raised == (if q < n then Some(RemoveUvTexture(q)) else None)
  {
    ghost var layers := obj.uvLayers;
    ghost var n := |layers|;
    var removed := 0;
    while |obj.uvLayers| > 0
      invariant removed <= n
      invariant obj.uvLayers == layers[removed..]
      invariant AcceptsUvRemovals(obj.raisesOn, removed)
      decreases |obj.uvLayers|
    {
      if RemoveUvTexture(removed) in obj.raisesOn {
        assert UvRemovalOps(n)[removed] == RemoveUvTexture(removed);
        return Some(RemoveUvTexture(removed));
      }
      obj.uvLayers := obj.uvLayers[1..];
      assert layers[removed..][1..] == layers[removed + 1..];
      removed := removed + 1;
    }
    assert FirstIn(UvRemovalOps(n), obj.raisesOn) == n;
    raised := None;
  }

  /** One object of the batch, as the loop body does it; a mesh to strip is made the
      active object first. */
  method UvObject(obj: BlendObject, scene: Scene, delete: bool) returns (selected: bool, raised: Option<ObjectOp>)
    modifies obj`uvLayers, obj`select, scene`active
    ensures obj.View() == UvItem(old(obj.View()), delete).after
    ensures raised == UvItem(old(obj.View()), delete).raised
    ensures scene.active == if Activated(old(obj.View()), delete) then obj else old(scene.active)
    ensures raised.None? ==> (selected <==> obj.objectType == "MESH" && (delete || |old(obj.uvLayers)| == 0))
  {
    selected := false;
    if obj.objectType == "MESH" {
      if delete {
        if |obj.uvLayers| > 0 {
          scene.active := obj;
          raised := StripUvLayers(obj);
          if raised.Some? {
            return;
          }
        }
      }
      if |obj.uvLayers| == 0 {
        obj.select := true;
        selected := true;
      } else {
        obj.select := false;
      }
    } else {
      obj.select := false;
    }
    raised := None;
  }

  /** The counters and the active object after one more object. */
  lemma BatchStep(objects: seq<BlendObject>, vs: seq<ObjectView>, delete: bool, initial: BlendObject?, i: nat)
    requires i < |vs| <= |objects|
    ensures CountMeshes(vs[..i + 1]) == CountMeshes(vs[..i]) + (if IsMesh(vs[i]) then 1 else 0)
    ensures CountSelected(vs[..i + 1], delete)
            == CountSelected(vs[..i], delete) + (if IsMesh(vs[i]) && (delete || |vs[i].uvLayers| == 0) then 1 else 0)
    ensures ActiveAfter(objects, vs[..i + 1], delete, initial)
            == if Activated(vs[i], delete) then objects[i] else ActiveAfter(objects, vs[..i], delete, initial)
  {
    assert vs[..i + 1][..i] == vs[..i];
  }

  /** The loop body on the object at position i, with the counters and the active
      object as the loop has them after the objects before it. */
  method VisitObject(obj: BlendObject, scene: Scene, delete: bool, ghost objects: seq<BlendObject>, ghost i: nat,
                     ghost before: seq<ObjectView>, ghost steps: seq<Step<ObjectView, ObjectOp>>,
                     ghost initial: BlendObject?, ncount: nat, ntotal: nat)
    returns (ncount': nat, ntotal': nat, raised: Option<ObjectOp>)
    requires i < |objects| == |before| == |steps| && objects[i] == obj && Distinct(objects)
    requires steps[i] == UvItem(before[i], delete)
    requires ObjectViews(objects) == Applied(before, steps, i)
    requires ncount == CountSelected(before[..i], delete)
    requires ntotal == CountMeshes(before[..i])
    requires scene.active == ActiveAfter(objects, before[..i], delete, initial)
    modifies obj`uvLayers, obj`select, scene`active
    ensures ObjectViews(objects) == Applied(before, steps, i + 1)
    ensures raised == steps[i].raised
    ensures ntotal' == CountMeshes(before[..i + 1])
    ensures scene.active == ActiveAfter(objects, before[..i + 1], delete, initial)
    ensures raised.None? ==> ncount' == CountSelected(before[..i + 1], delete)
    ensures raised.Some? ==> ncount' == ncount
  {
    BatchStep(objects, before, delete, initial, i);
    ntotal' := ntotal;
    if obj.objectType == "MESH" {
      ntotal' := ntotal + 1;
    }
    var selected;
    selected, raised := UvObject(obj, scene, delete);
    ncount' := ncount;
    if raised.None? && selected {
      ncount' := ncount + 1;
    }
    forall j | 0 <= j < |objects| && j != i
      ensures old(objects[j].View()) == objects[j].View()
    {
      assert objects[j] != obj;
    }
    AppliedStep(before, steps, i);
  }

  /** What the loop leaves, given the objects' states before and after it and the
      active object before and after it: the objects are processed up to the first
      one whose step raised; ntotal counts the meshes reached, that one included;
      ncount counts the meshes selected before it; the active object is the last mesh
      stripped, or the one the loop started with. */
  ghost predicate UvLoopDone(objects: seq<BlendObject>, before: seq<ObjectView>, after: seq<ObjectView>, delete: bool,
                             activeBefore: BlendObject?, activeAfter: BlendObject?,
                             ncount: nat, ntotal: nat, failure: Option<Failure>)
  {
    var steps := UvSteps(before, delete);
    var k := FirstRaise(steps);
    var reached := if k < |before| then k + 1 else k;
    && |before| == |objects|
    && after == Merge(before, steps)
    && ncount == CountSelected(before[..k], delete)
    && ntotal == CountMeshes(before[..reached])
    && activeAfter == ActiveAfter(objects, before[..reached], delete, activeBefore)
    && failure == (if k < |before| then Some(ObjectRaised(k, steps[k].raised.value)) else None)
  }

  /** The loop's two exits, after the object at i raised or after the last object,
      end in UvLoopDone. */
  lemma UvLoopExit(objects: seq<BlendObject>, before: seq<ObjectView>, after: seq<ObjectView>, delete: bool,
                   activeBefore: BlendObject?, activeAfter: BlendObject?,
                   ncount: nat, ntotal: nat, failure: Option<Failure>, i: nat)
    requires |before| == |objects| && i <= |before|
    requires forall j :: 0 <= j < i ==> UvItem(before[j], delete).raised.None?
    requires i < |before| ==> UvItem(before[i], delete).raised.Some?
    requires var reached := if i < |before| then i + 1 else i;
             && after == Applied(before, UvSteps(before, delete), reached)
             && ncount == CountSelected(before[..i], delete)
             && ntotal == CountMeshes(before[..reached])
             && activeAfter == ActiveAfter(objects, before[..reached], delete, activeBefore)
             && failure == (if i < |before| then Some(ObjectRaised(i, UvItem(before[i], delete).raised.value)) else None)
    ensures UvLoopDone(objects, before, after, delete, activeBefore, activeAfter, ncount, ntotal, failure)
  {
    AppliedIsMerge(before, UvSteps(before, delete), i);
  }

  /** The loop of the operator, with `delete` read from the scene. */
  method UvObjects(objects: seq<BlendObject>, scene: Scene, delete: bool) returns (ncount: nat, ntotal: nat, failure: Option<Failure>)
    requires Distinct(objects)
    modifies objects, scene`active
    ensures UvLoopDone(objects, old(ObjectViews(objects)), ObjectViews(objects), delete, old(scene.active), scene.active,
                       ncount, ntotal, failure)
  {
    ghost var before := ObjectViews(objects);
    ghost var steps := UvSteps(before, delete);
    ghost var initial := scene.active;
    ncount, ntotal := 0, 0;
    var i := 0;
    while i < |objects|
      invariant 0 <= i <= |objects|
      invariant forall j :: 0 <= j < i ==> steps[j].raised.None?
      invariant ObjectViews(objects) == Applied(before, steps, i)
      invariant ncount == CountSelected(before[..i], delete)
      invariant ntotal == CountMeshes(before[..i])
      invariant scene.active == ActiveAfter(objects, before[..i], delete, initial)
    {
      var raised;
      ncount, ntotal, raised := VisitObject(objects[i], scene, delete, objects, i, before, steps, initial, ncount, ntotal);
      if raised.Some? {
        failure := Some(ObjectRaised(i, raised.value));
        UvLoopExit(objects, before, ObjectViews(objects), delete, initial, scene.active, ncount, ntotal, failure, i);
        return;
      }
      NoneRaisedExtends(steps, i);
      i := i + 1;
    }
    failure := None;
    UvLoopExit(objects, before, ObjectViews(objects), delete, initial, scene.active, ncount, ntotal, failure, i);
  }

  /** `if restore_obj: scene.objects.active = restore_obj`; no object changes. */
  method RestoreActive(scene: Scene, restore: BlendObject?, ghost objects: seq<BlendObject>)
    modifies scene`active
    ensures scene.active == if restore != null then restore else old(scene.active)
    ensures ObjectViews(objects) == old(ObjectViews(objects))
  {
    if restore != null {
      scene.active := restore;
    }
  }

  /** What the operator leaves once its settings c are read, given the objects' states
      before and after and the active object before and after: the objects end in
      the fail-fast merge of their steps; ncount counts the meshes selected before
      the first failure and ntotal the meshes reached, the failing one included; the
      selection is unwrapped with c's settings exactly when the loop completed and
      selected something, and that call can raise in turn; the active object is the
      one the operator started with when there was one, and otherwise the last mesh
      it stripped, if any. */
  ghost predicate Projected(objects: seq<BlendObject>, before: seq<ObjectView>, after: seq<ObjectView>, c: UvConfig,
                            raisesOn: set<SceneOp>, activeBefore: BlendObject?, activeAfter: BlendObject?, r: UvOutcome)
  {
    var delete := Truthy(c.deleteUvMaps);
    var steps := UvSteps(before, delete);
    var k := FirstRaise(steps);
    var reached := if k < |before| then k + 1 else k;
    var projects := k == |before| && r.ncount > 0;
    && |before| == |objects|
    && after == Merge(before, steps)
    && r.ncount == CountSelected(before[..k], delete)
    && r.ntotal == CountMeshes(before[..reached])
    && r.call == (if projects then Some(CallFor(c)) else None)
    && r.failure == (if k < |before| then Some(ObjectRaised(k, steps[k].raised.value))
                     else if projects && SmartProject in raisesOn then Some(SceneRaised(SmartProject))
                     else None)
    && activeAfter == (if activeBefore != null then activeBefore else ActiveAfter(objects, before[..reached], delete, null))
  }

  /** The operator once its settings are read: the loop, then the unwrap of the
      selection, then the restore of the active object. */
  method ProjectWithSettings(objects: seq<BlendObject>, scene: Scene, c: UvConfig) returns (r: UvOutcome)
    requires Distinct(objects)
    modifies objects, scene`active
    ensures Projected(objects, old(ObjectViews(objects)), ObjectViews(objects), c, scene.raisesOn,
                      old(scene.active), scene.active, r)
  {
    var restore := scene.active;
    var ncount, ntotal, failure := UvObjects(objects, scene, Truthy(c.deleteUvMaps));
    var call: Option<ProjectCall> := None;
    if failure.None? && ncount > 0 {
      call := Some(CallFor(c));
      if SmartProject in scene.raisesOn {
        failure := Some(SceneRaised(SmartProject));
      }
    }
    RestoreActive(scene, restore, objects);
    r := UvOutcome(ncount, ntotal, call, failure);
  }

  /** The Smart UV Project operator. A settings read that fails touches nothing;
      otherwise the operator runs as ProjectWithSettings says. */
  method SmartUvProject(objects: seq<BlendObject>, scene: Scene) returns (r: UvOutcome)
    requires Distinct(objects)
    modifies objects, scene`active
    ensures match ReadUvConfig(scene.table)
            case Err(e) =>
              && r == UvOutcome(0, 0, None, Some(e))
              && ObjectViews(objects) == old(ObjectViews(objects))
              && scene.active == old(scene.active)
            case Ok(c) =>
              Projected(objects, old(ObjectViews(objects)), ObjectViews(objects), c, scene.raisesOn,
                        old(scene.active), scene.active, r)
  {
    var cfg := ReadUvConfig(scene.table);
    if cfg.Err? {
      return UvOutcome(0, 0, None, Some(cfg.error));
    }
    r := ProjectWithSettings(objects, scene, cfg.value);
  }
}
