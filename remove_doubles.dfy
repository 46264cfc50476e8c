/** The Remove Doubles operator: every mesh datablock of the file is loaded into one
    BMesh, welded at the scene's minimum distance and written back, while the operator
    counts the meshes finished, the vertices it saw and the vertices it removed. The
    weld itself is the host's algorithm and enters the model as the function `weld`. */
module RemoveDoubles {
  import opened Common
  import opened Host
  import opened SceneData

  /** The host calls made on each mesh, in order: `bm.from_mesh`, `bmesh.ops.remove_doubles`,
      `bm.to_mesh` and `m.update`. */
  const WeldOps: seq<MeshOp> := [FromMesh, RemoveDoubles, ToMesh, MeshUpdate]

  /** The distance handed to `remove_doubles`: a stored float, or an int or a bool, which
      Python converts; a stored string makes the call raise, which is None here. */
  function Distance(v: Value): (d: Option<real>)
    ensures d.None? <==> v.Str?
  {
    match v
    case Float(x) => Some(x)
    case Int(i) => Some(i as real)
    case Bool(b) => Some(if b then 1.0 else 0.0)
    case Str(_) => None
  }

  /** The calls that raise on a mesh: its own, and `remove_doubles` when the distance
      cannot be converted. */
  function Raising(mv: MeshView, dist: Option<real>): set<MeshOp> {
    mv.raisesOn + (if dist.None? then {RemoveDoubles} else {})
  }

  /** How many of the four calls on a mesh complete before the first that raises. */
  function Reached(mv: MeshView, dist: Option<real>): (q: nat)
    ensures q <= |WeldOps|
    ensures forall j :: 0 <= j < q ==> WeldOps[j] !in Raising(mv, dist)
    ensures q < |WeldOps| ==> WeldOps[q] in Raising(mv, dist)
  {
    var raising := Raising(mv, dist);
    if FromMesh in raising then 0
    else if RemoveDoubles in raising then 1
    else if ToMesh in raising then 2
    else if MeshUpdate in raising then 3
    else 4
  }

  /** `remove_doubles` is only reached with a distance it accepts. */
  lemma ReachedWeld(mv: MeshView, dist: Option<real>)
    requires Reached(mv, dist) >= 2
    ensures dist.Some? && RemoveDoubles !in mv.raisesOn
  {
    assert WeldOps[1] == RemoveDoubles;
  }

  /** One mesh of the batch: its vertices are replaced by the welded ones once
      `to_mesh` has completed, even if `update` then raises. */
  function WeldItem(mv: MeshView, dist: Option<real>, weld: (seq<Vertex>, real) -> seq<Vertex>)
    : Step<MeshView, MeshOp>
  {
    var q := Reached(mv, dist);
    Step(if q >= 3 then mv.(vertices := weld(mv.vertices, dist.value)) else mv,
         if q < |WeldOps| then Some(WeldOps[q]) else None)
  }

  /** What one mesh adds to `total_verts`: its vertex count, once `from_mesh` completed. */
  function SeenBy(mv: MeshView, dist: Option<real>): nat {
    if Reached(mv, dist) >= 1 then |mv.vertices| else 0
  }

  /** What one mesh adds to `total_verts_removed`, once `remove_doubles` completed. */
  function RemovedBy(mv: MeshView, dist: Option<real>, weld: (seq<Vertex>, real) -> seq<Vertex>): int {
    if Reached(mv, dist) >= 2 then |mv.vertices| - |weld(mv.vertices, dist.value)| else 0
  }

  function WeldSteps(mvs: seq<MeshView>, dist: Option<real>, weld: (seq<Vertex>, real) -> seq<Vertex>)
    : (steps: seq<Step<MeshView, MeshOp>>)
    ensures |steps| == |mvs|
    ensures forall j :: 0 <= j < |mvs| ==> steps[j] == WeldItem(mvs[j], dist, weld)
  {
    seq(|mvs|, j requires 0 <= j < |mvs| => WeldItem(mvs[j], dist, weld))
  }

  function VertsSeen(mvs: seq<MeshView>, dist: Option<real>): nat {
    if mvs == [] then 0 else VertsSeen(mvs[..|mvs| - 1], dist) + SeenBy(mvs[|mvs| - 1], dist)
  }

  function VertsRemoved(mvs: seq<MeshView>, dist: Option<real>, weld: (seq<Vertex>, real) -> seq<Vertex>): int {
    if mvs == [] then 0 else VertsRemoved(mvs[..|mvs| - 1], dist, weld) + RemovedBy(mvs[|mvs| - 1], dist, weld)
  }

  /** The number of vertices of the meshes. */
  function VertexTotal(mvs: seq<MeshView>): nat {
    if mvs == [] then 0 else VertexTotal(mvs[..|mvs| - 1]) + |mvs[|mvs| - 1].vertices|
  }

  /** A weld in the sense of remove_doubles: it merges vertices and never adds one. */
  ghost predicate Merges(weld: (seq<Vertex>, real) -> seq<Vertex>) {
    forall v: seq<Vertex>, d: real :: |weld(v, d)| <= |v|
  }

  /** A mesh completes exactly when the distance converts and none of the four calls
      raises; then it holds the welded vertices and adds its whole vertex count and
      the number the weld removed. */
  lemma WeldItemOutcome(mv: MeshView, dist: Option<real>, weld: (seq<Vertex>, real) -> seq<Vertex>)
    ensures WeldItem(mv, dist, weld).raised.None?
            <==> dist.Some? && forall j :: 0 <= j < |WeldOps| ==> WeldOps[j] !in mv.raisesOn
    ensures WeldItem(mv, dist, weld).raised.None? ==>
      && WeldItem(mv, dist, weld).after == MeshView(mv.raisesOn, weld(mv.vertices, dist.value))
      && SeenBy(mv, dist) == |mv.vertices|
      && RemovedBy(mv, dist, weld) == |mv.vertices| - |weld(mv.vertices, dist.value)|
  {
    var q := Reached(mv, dist);
    if q < |WeldOps| {
      assert WeldOps[q] in Raising(mv, dist);
    } else {
      forall j | 0 <= j < |WeldOps| ensures WeldOps[j] !in mv.raisesOn {
        assert WeldOps[j] !in Raising(mv, dist);
      }
    }
  }

  /** The counters run ahead of the mesh: when `to_mesh` raises, the operator has
      already counted the vertices the weld removed, yet the mesh keeps all of them. */
  lemma RemovedButNotWritten(mv: MeshView, d: real, weld: (seq<Vertex>, real) -> seq<Vertex>)
    requires FromMesh !in mv.raisesOn && RemoveDoubles !in mv.raisesOn && ToMesh in mv.raisesOn
    ensures WeldItem(mv, Some(d), weld) == Step(mv, Some(ToMesh))
    ensures RemovedBy(mv, Some(d), weld) == |mv.vertices| - |weld(mv.vertices, d)|
  {
    assert Reached(mv, Some(d)) == 2;
  }

  /** The counters after one more mesh. */
  lemma TotalsStep(mvs: seq<MeshView>, i: nat, dist: Option<real>, weld: (seq<Vertex>, real) -> seq<Vertex>)
    requires i < |mvs|
    ensures VertsSeen(mvs[..i + 1], dist) == VertsSeen(mvs[..i], dist) + SeenBy(mvs[i], dist)
    ensures VertsRemoved(mvs[..i + 1], dist, weld) == VertsRemoved(mvs[..i], dist, weld) + RemovedBy(mvs[i], dist, weld)
  {
    assert mvs[..i + 1][..i] == mvs[..i];
  }

  /** After a batch in which every mesh completed, the operator saw every vertex, and
      the number it reports as removed is the drop in the vertex count of the meshes. */
  lemma {:induction false} CompletedTotals(mvs: seq<MeshView>, after: seq<MeshView>, dist: Option<real>,
                                          weld: (seq<Vertex>, real) -> seq<Vertex>)
    requires |after| == |mvs|
    requires forall j :: 0 <= j < |mvs| ==> WeldItem(mvs[j], dist, weld) == Step(after[j], None)
    ensures VertsSeen(mvs, dist) == VertexTotal(mvs)
    ensures VertsRemoved(mvs, dist, weld) == VertexTotal(mvs) - VertexTotal(after)
  {
    if mvs != [] {
      var n := |mvs| - 1;
      CompletedTotals(mvs[..n], after[..n], dist, weld);
      WeldItemOutcome(mvs[n], dist, weld);
    }
  }

  /** With a weld that never adds vertices, the removed count is never negative and
      never more than the vertices seen, whether or not the batch completed. */
  lemma {:induction false} RemovedWithinSeen(mvs: seq<MeshView>, dist: Option<real>,
                                            weld: (seq<Vertex>, real) -> seq<Vertex>)
    requires Merges(weld)
    ensures 0 <= VertsRemoved(mvs, dist, weld) <= VertsSeen(mvs, dist)
  {
    if mvs != [] {
      var n := |mvs| - 1;
      RemovedWithinSeen(mvs[..n], dist, weld);
      if Reached(mvs[n], dist) >= 2 {
        var v, d := mvs[n].vertices, dist.value;
        assert |weld(v, d)| <= |v|;
      }
    }
  }

  /** The body of the loop on one mesh. */
  method WeldMesh(m: Mesh, dist: Option<real>, weld: (seq<Vertex>, real) -> seq<Vertex>)
    returns (len1: nat, numRemoved: int, raised: Option<MeshOp>)
    modifies m`vertices
    ensures var s := WeldItem(old(m.View()), dist, weld);
            && m.View() == s.after && raised == s.raised
            && len1 == SeenBy(old(m.View()), dist)
            && numRemoved == RemovedBy(old(m.View()), dist, weld)
  {
    ghost var q := Reached(m.View(), dist);
    len1, numRemoved := 0, 0;
    if FromMesh in m.raisesOn {
      return 0, 0, Some(FromMesh);
    }
    var bm := m.vertices;
    len1 := |bm|;
    if dist.None? || RemoveDoubles in m.raisesOn {
      return len1, 0, Some(RemoveDoubles);
    }
    bm := weld(bm, dist.value);
    var len2 := |bm|;
    numRemoved := len1 - len2;
    if ToMesh in m.raisesOn {
      return len1, numRemoved, Some(ToMesh);
    }
    m.vertices := bm;
    if MeshUpdate in m.raisesOn {
      return len1, numRemoved, Some(MeshUpdate);
    }
    raised := None;
  }

  /** The loop body on the mesh at position i of the batch, with the counters it updates. */
  method WeldAt(m: Mesh, dist: Option<real>, weld: (seq<Vertex>, real) -> seq<Vertex>,
                ghost meshes: seq<Mesh>, ghost i: nat, ghost before: seq<MeshView>, totalVerts: nat, removed: int)
    returns (totalVerts': nat, removed': int, raised: Option<MeshOp>)
    requires i < |meshes| == |before| && meshes[i] == m && Distinct(meshes)
    requires m.View() == before[i]
    requires totalVerts == VertsSeen(before[..i], dist) && removed == VertsRemoved(before[..i], dist, weld)
    modifies m`vertices
    ensures MeshViews(meshes) == old(MeshViews(meshes))[i := WeldItem(before[i], dist, weld).after]
    ensures raised == WeldItem(before[i], dist, weld).raised
    ensures totalVerts' == VertsSeen(before[..i + 1], dist)
    ensures removed' == VertsRemoved(before[..i + 1], dist, weld)
  {
    TotalsStep(before, i, dist, weld);
    var len1, numRemoved;
    len1, numRemoved, raised := WeldMesh(m, dist, weld);
    totalVerts', removed' := totalVerts + len1, removed + numRemoved;
    forall j | 0 <= j < |meshes| && j != i
      ensures old(meshes[j].View()) == meshes[j].View()
    {
      assert meshes[j] != m;
    }
  }

  /** What the operator reports at its end: the meshes in the file, the meshes
      finished, the vertices seen and removed, and why it aborted, if it did. */
  datatype WeldOutcome = WeldOutcome(meshCount: nat, ncount: nat, totalVerts: nat, removed: int,
                                     failure: Option<Failure>)

  /** The loop over the meshes with the distance read: meshes are processed in order
      up to the first one whose step raised; the counters include what that mesh
      contributed before it raised. */
  method WeldMeshes(meshes: seq<Mesh>, dist: Option<real>, weld: (seq<Vertex>, real) -> seq<Vertex>)
    returns (r: WeldOutcome)
    requires Distinct(meshes)
    modifies meshes
    ensures var before := old(MeshViews(meshes));
            var steps := WeldSteps(before, dist, weld);
            var k := FirstRaise(steps);
            var reached := if k < |meshes| then k + 1 else k;
            && MeshViews(meshes) == Merge(before, steps)
            && r == WeldOutcome(|meshes|, k, VertsSeen(before[..reached], dist),
                                VertsRemoved(before[..reached], dist, weld),
                                if k < |meshes| then Some(MeshRaised(k, steps[k].raised.value)) else None)
  {
    ghost var before := MeshViews(meshes);
    ghost var steps := WeldSteps(before, dist, weld);
    var meshCount := |meshes|;
    var ncount, totalVerts, removed := 0, 0, 0;
    while ncount < |meshes|
      invariant 0 <= ncount <= |meshes|
      invariant forall j :: 0 <= j < ncount ==> steps[j].raised.None?
      invariant MeshViews(meshes) == Applied(before, steps, ncount)
      invariant totalVerts == VertsSeen(before[..ncount], dist)
      invariant removed == VertsRemoved(before[..ncount], dist, weld)
    {
      var totalVerts', removed', raised := WeldAt(meshes[ncount], dist, weld, meshes, ncount, before, totalVerts, removed);
      AppliedStep(before, steps, ncount);
      if raised.Some? {
        AppliedIsMerge(before, steps, ncount);
        return WeldOutcome(meshCount, ncount, totalVerts', removed', Some(MeshRaised(ncount, raised.value)));
      }
      totalVerts, removed := totalVerts', removed';
      NoneRaisedExtends(steps, ncount);
      ncount := ncount + 1;
    }
    AppliedIsMerge(before, steps, |meshes|);
    assert before[..|meshes|] == before;
    r := WeldOutcome(meshCount, ncount, totalVerts, removed, None);
  }

  /** The Remove Doubles operator. Without a `min_distance` key nothing is touched and
      every counter but the mesh count stays 0. */
  method RemoveDoublesGlobally(meshes: seq<Mesh>, scene: Scene, weld: (seq<Vertex>, real) -> seq<Vertex>)
    returns (r: WeldOutcome)
    requires Distinct(meshes)
    modifies meshes
    ensures var before := old(MeshViews(meshes));
            match Lookup(scene.table, "min_distance")
            case Err(e) => MeshViews(meshes) == before && r == WeldOutcome(|meshes|, 0, 0, 0, Some(e))
            case Ok(v) =>
              var steps := WeldSteps(before, Distance(v), weld);
              var k := FirstRaise(steps);
              var reached := if k < |meshes| then k + 1 else k;
              && MeshViews(meshes) == Merge(before, steps)
              && r == WeldOutcome(|meshes|, k, VertsSeen(before[..reached], Distance(v)),
                                  VertsRemoved(before[..reached], Distance(v), weld),
                                  if k < |meshes| then Some(MeshRaised(k, steps[k].raised.value)) else None)
  {
    var minDistance := Lookup(scene.table, "min_distance");
    if minDistance.Err? {
      return WeldOutcome(|meshes|, 0, 0, 0, Some(minDistance.error));
    }
    r := WeldMeshes(meshes, Distance(minDistance.value), weld);
  }

  /** A batch that completes reports every mesh finished, every vertex seen, and as
      removed exactly the vertices the meshes lost; with a weld that never adds
      vertices that number lies between 0 and the vertices seen. */
  lemma CompletedBatch(mvs: seq<MeshView>, dist: Option<real>, weld: (seq<Vertex>, real) -> seq<Vertex>)
    requires FirstRaise(WeldSteps(mvs, dist, weld)) == |mvs|
    ensures VertsSeen(mvs, dist) == VertexTotal(mvs)
    ensures VertsRemoved(mvs, dist, weld) == VertexTotal(mvs) - VertexTotal(Merge(mvs, WeldSteps(mvs, dist, weld)))
    ensures Merges(weld) ==> 0 <= VertsRemoved(mvs, dist, weld) <= VertsSeen(mvs, dist)
  {
    var steps := WeldSteps(mvs, dist, weld);
    MergeFailFast(mvs, steps, |mvs|);
    CompletedTotals(mvs, Merge(mvs, steps), dist, weld);
    if Merges(weld) {
      RemovedWithinSeen(mvs, dist, weld);
    }
  }
}
