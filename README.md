# Tools for Models, modelled in Dafny

Tools for Models is a Blender add-on with four batch operators. It runs them from
one panel over every object or mesh in the open file:

- **Remove Doubles** welds the vertices of every mesh datablock at the scene's
  `min_distance`.
- **Decimate Meshes** replaces the decimate modifiers of every mesh object with one
  fresh COLLAPSE decimate modifier. The modifier's settings come from the scene.
- **Undecimate Meshes** removes every decimate modifier from every mesh object.
- **Smart UV Project** can strip the UV layers of every mesh object. It then selects
  the mesh objects that have no UV layer and runs the host's Smart UV Project on the
  selection.

The add-on keeps its settings in the scene's key-to-value property table.
`__init_data` fills in the keys that are missing. Every operator stops at the first
exception. It rolls nothing back and reports the counters it had reached.
`report_exception` turns a traceback into error messages for the user.

The model is split into these modules:

- `Common`: Option and Result; the fail-fast rule, where `Merge` gives the state
  after a batch whose first raising item is at `FirstRaise`; `Applied`, the state
  part way through a batch loop.
- `Host`: the host's objects (`BlendObject`, with a modifier stack, UV layers and a
  selection flag), its meshes (`Mesh`) and its `Scene`. These are classes whose
  fields the operators update in place.
- `SceneData`: the scene keys, their defaults and the configuration each operator
  reads.
- `Modifiers`: `remove_all_decimate_modifiers`.
- `Decimation`: the Decimate and Undecimate operators.
- `SmartUv`: the Smart UV Project operator.
- `RemoveDoubles`: the Remove Doubles operator.
- `Report`: `report_exception`.

Host calls that can fail are modelled as data. Each object or mesh has a set
`raisesOn` of the host calls that raise on it, for example every modifier removal
while Blender is in edit mode. A pure function gives each item's step: its new state
and the call that raised, if one did. Each operator is a method whose loop is proved
to leave the objects in the `Merge` of those steps. The counters it returns are
proved to equal functions of the state before the loop.

## Model

| member | source | states |
|---|---|---|
| Common.FirstIn | Tools-for-Models.py:398-406 | how far a run of host calls gets: every call before the returned index is accepted, and the call at it is the first the host raises on, or the index is the number of calls when none raises; the removals at 51-54 and the field assignments here stop that way |
| Common.FirstRaise | Tools-for-Models.py:356-366 | the item at which a batch stops: every item before it was processed without an exception, and it is the first whose processing raised, or the end of the batch when none did; each operator has one `try` around its whole loop, so the first exception ends the loop |
| Common.Merge | Tools-for-Models.py:393-414 | the objects after a batch: items up to and including the first raising one carry their own step's result (the raising one as far as it got, with nothing rolled back), later items are untouched; the same rule holds for the loops at 358-366 and 438-457 |
| Host.Truthy | Tools-for-Models.py:389 | Python's truth value of a stored setting, as tested by `if symmetry:` here and at 405 and by `if delete_uv_maps:` at 301: false, 0, 0.0 and the empty string are false |
| Host.CountMeshes | Tools-for-Models.py:361-362 | the number of meshes among the objects (`ntotal += 1` for each mesh), never more than the objects |
| SceneData.Defaults | Tools-for-Models.py:77-156 | the ten keys `__init_data` fills in and the value each gets: min_distance 0.005, decimate_triangulate False, decimate_symmetry False, symmetry_axis_items '1', angle_limit 33.0, island_margin 0.40, area_weight 0.0, correct_aspect True, stretch_to_uv_bounds True, delete_uv_maps False |
| SceneData.WithDefaults | Tools-for-Models.py:66-158 | every key already in the table keeps its value; each of the ten defaulted keys that was missing gets its default; no other key appears |
| SceneData.InitData | Tools-for-Models.py:66-158 | `__init_data` leaves the scene table equal to WithDefaults of the table it started with |
| SceneData.SetDefault | Tools-for-Models.py:77-78 | one `if key not in keys: scn[key] = default` step writes the key only when it was absent from the keys read at the start |
| SceneData.DefaultsInOrder | Tools-for-Models.py:66-158 | writing the ten defaults one after another, in the order `__init_data` writes them, gives the table of defaults |
| SceneData.InitDataIdempotent | Tools-for-Models.py:66-158 | initialising an initialised scene changes nothing |
| SceneData.InitDataLeavesRatioAndAxis | Tools-for-Models.py:66-158 | `decimate_ratio` and `decimate_symmetry_axis` are never given a default: each is present afterwards exactly when it was before |
| SceneData.GetSymmetryItem | Tools-for-Models.py:58-59 | `get_symmetry_item` returns the stored `decimate_symmetry_axis` value, or raises KeyError when the key is absent; every `scene[key]` read of the add-on is the same `Lookup`, a value or a MissingKey error |
| SceneData.SetSymmetryItem | Tools-for-Models.py:62-63 | the setter stores the value under `decimate_symmetry_axis` and changes nothing else |
| SceneData.GetAfterSet | Tools-for-Models.py:58-63 | reading the axis after setting it gives the value set; every other key stays present or absent as it was and keeps its value |
| SceneData.PyIndex | Tools-for-Models.py:390 | Python list indexing by a stored value: 0..n-1 directly, -n..-1 from the end, a bool as 0 or 1, anything else raises |
| SceneData.AxisName | Tools-for-Models.py:94-96 | a symmetry axis that can be read is one of X, Y and Z |
| SceneData.AxisNames | Tools-for-Models.py:94-96 | in any table storing the int i as the axis index, i names an axis exactly when -3 <= i < 3: 0 and -3 give X, 1 and -2 give Y, 2 and -1 give Z |
| SceneData.ReadDecimateConfig | Tools-for-Models.py:384-390 | the Decimate settings can be read exactly when ratio, triangulate and symmetry are present and, with symmetry on, the axis index is present and valid; a missing ratio is the first error |
| SceneData.SymmetryOffIgnoresAxis | Tools-for-Models.py:388-390 | with symmetry off, the stored axis, or its absence, does not change what is read |
| SceneData.FreshSceneCannotDecimate | Tools-for-Models.py:66-158 | on a freshly initialised scene Decimate fails with a KeyError on `decimate_ratio` |
| SceneData.ReadUvConfig | Tools-for-Models.py:283-288 | the read (six `Lookup`s) succeeds exactly when all six unwrap settings are present and then holds the six stored values; otherwise the KeyError names the first absent key in the order area_weight, correct_aspect, stretch_to_uv_bounds, angle_limit, island_margin, delete_uv_maps |
| SceneData.InitialisedSceneReadsUvAndWeld | Tools-for-Models.py:66-158 | after initialisation the unwrap settings and `min_distance` can always be read |
| Modifiers.CountDecimate | Tools-for-Models.py:52 | the number of modifiers whose type is DECIMATE is at most the stack's length |
| Modifiers.CountZero | Tools-for-Models.py:52 | the count is 0 exactly when no modifier of the stack is a decimate modifier |
| Modifiers.WithoutDecimate | Tools-for-Models.py:49-55 | the stack with its decimate modifiers removed holds none, and is shorter by their number |
| Modifiers.CountAppend | Tools-for-Models.py:52 | the decimate count of a concatenation is the sum of the counts |
| Modifiers.WithoutAppend | Tools-for-Models.py:49-55 | removing the decimate modifiers keeps the order of the other modifiers |
| Modifiers.RemoveNone | Tools-for-Models.py:49-55 | no removal leaves the stack as it was |
| Modifiers.RemovePrefix | Tools-for-Models.py:49-55 | removing as many decimate modifiers as a prefix holds clears that prefix and leaves the rest |
| Modifiers.RemoveAfterClean | Tools-for-Models.py:49-55 | a prefix without decimate modifiers is left untouched by any number of removals |
| Modifiers.RemoveAll | Tools-for-Models.py:49-55 | removing all of them leaves exactly the other modifiers, in order |
| Modifiers.WithoutKeepsOthers | Tools-for-Models.py:49-55 | every other modifier is kept as often as it occurred, and no decimate modifier is left |
| Modifiers.WithoutIdempotent | Tools-for-Models.py:49-55 | removing the decimate modifiers twice is removing them once |
| Modifiers.RemoveAllDecimateModifiers | Tools-for-Models.py:49-55 | with p the number of removals the host accepts before one raises (`FirstIn` of the `RemovalOps`, the 0th to (n-1)th `modifiers.remove` calls): p modifiers are removed and counted, the stack is the old one without its first p decimate modifiers, and the (p+1)th removal is the exception when there was one |
| Modifiers.RemoveWhileIterating | Tools-for-Models.py:51-54 | the loop as written, with `obj.modifiers` iterated as a Python list iterates: every modifier either stays or is counted |
| Modifiers.AdjacentDecimateSurvives | Tools-for-Models.py:51-54 | under Python list iteration, on two decimate modifiers in a row the loop as written removes one and leaves one, while the corrected loop removes both; whether the host's own collection iterator behaves this way is not modelled |
| Decimation.FieldOps | Tools-for-Models.py:401-406 | the decimate modifier gets four field assignments, and a fifth (the axis) when symmetry is on |
| Decimation.DecimateItem | Tools-for-Models.py:396-406 | one object of a Decimate batch: a non-mesh is untouched; a mesh loses its decimate modifiers, gains one new modifier and has its fields assigned in source order, and the first host call that raises leaves the stack as far as it got |
| Decimation.DecimateTouchesOnlyModifiers | Tools-for-Models.py:394-408 | a Decimate step changes only the modifier stack, and only on a mesh |
| Decimation.DecimateSucceedsIff | Tools-for-Models.py:396-408 | a mesh is decimated without exception exactly when the host accepts all its decimate removals, `modifiers.new` and every field assignment |
| Decimation.DecimatedStack | Tools-for-Models.py:396-408 | after a completed step the stack is the other modifiers in order, then one COLLAPSE decimate modifier with the scene's ratio, triangulate and symmetry, and X/Y/Z axis when symmetry is on; it is the only decimate modifier |
| Decimation.DecimateIdempotent | Tools-for-Models.py:396-408 | decimating a decimated mesh again gives the same stack |
| Decimation.DecimateObject | Tools-for-Models.py:398-406 | the body on one mesh leaves its state as the Decimate step says and raises what the step raises |
| Decimation.DecimateAt | Tools-for-Models.py:395-408 | the loop body at position i moves the batch from i items applied to i+1: it changes only the object at i, as its step says; its exception is that step's; when nothing raised the mesh count grows by one exactly for a mesh |
| Decimation.DecimateLoopExit | Tools-for-Models.py:393-409 | wherever the loop stops, at the first raising object or at the end, it has left the fail-fast merge, the count of meshes before that point, and the failure that names that object and call |
| Decimation.DecimateObjects | Tools-for-Models.py:393-409 | the objects end in the fail-fast merge of the `DecimateSteps` (one DecimateItem per object, in order); ncount is `CountMeshes` of the objects before the first failure; the failure names that object and call |
| Decimation.DecimateGlobally | Tools-for-Models.py:380-420 | a settings read that fails touches nothing and reports 0; otherwise the loop runs as above, and a completed loop can still fail in `scene.update` |
| Decimation.UndecimateItem | Tools-for-Models.py:359-361 | one object of an Undecimate batch: a non-mesh is untouched; a mesh loses its decimate modifiers up to the first removal the host refuses, which is the exception |
| Decimation.UndecimateClears | Tools-for-Models.py:359-361 | a mesh's Undecimate step completes exactly when the host accepts all its removals; it then has the other modifiers only, in order |
| Decimation.UndecimateAfterDecimate | Tools-for-Models.py:353-420 | Undecimate after Decimate gives back the original stack without its decimate modifiers |
| Decimation.UndecimateBatchTwice | Tools-for-Models.py:353-372 | after a completed Undecimate batch no mesh has a decimate modifier, and a second batch completes without changing anything |
| Decimation.UndecimateAt | Tools-for-Models.py:359-362 | the loop body at position i changes only that object; when it completes, ncount grows by the removals and ntotal by one mesh |
| Decimation.UnDecimateGlobally | Tools-for-Models.py:353-372 | the objects end in the fail-fast merge of the `UndecimateSteps` (one UndecimateItem per object, in order); ncount is `DecimateOnMeshes`, the number of decimate modifiers, and ntotal `CountMeshes`, the number of meshes, of the objects before the failure |
| Decimation.UndecimateCountsModifiers | Tools-for-Models.py:361-365 | one mesh with two decimate modifiers is reported as "Undecimated 2 of 1 meshes" (ncount 2, ntotal 1) |
| SmartUv.UvItemFrame | Tools-for-Models.py:298-322 | a step changes only the UV layers and the selection flag; an object that is not a mesh is deselected and does not raise |
| SmartUv.UvItemOutcome | Tools-for-Models.py:299-319 | a mesh raises exactly when it is stripped and a removal is refused; after a completed step it is selected exactly when delete is on or it had no UV layer, and it keeps its layers only when delete is off |
| SmartUv.UvItem | Tools-for-Models.py:299-322 | one object of a Smart UV Project batch: a non-mesh is deselected; a mesh is stripped of its UV layers first when delete is on and it has some, then selected exactly when it has no UV layer left; a refused removal leaves the layers not yet removed and the selection as it was |
| SmartUv.CountSelected | Tools-for-Models.py:309-310 | the selected meshes are never more than the meshes |
| SmartUv.DeleteSelectsAll | Tools-for-Models.py:301-310 | with delete on, every mesh is selected |
| SmartUv.NothingToDelete | Tools-for-Models.py:309-310 | with delete off and no UV layer anywhere, every mesh is selected |
| SmartUv.LastActivated | Tools-for-Models.py:305 | the position of the last object made active, if any, is in range |
| SmartUv.LastActivatedIsLast | Tools-for-Models.py:301-305 | that object was made active and none after it was; None means none was |
| SmartUv.StripUvLayers | Tools-for-Models.py:306-307 | the while loop makes the `UvRemovalOps` calls (the 0th to (n-1)th `uv_texture_remove`) until none is left or one raises; the layers left are those from the refused one on |
| SmartUv.UvObject | Tools-for-Models.py:299-322 | the body on one object: its state and exception follow its step; it becomes active exactly when it is a mesh being stripped; when it completes, it is selected exactly when it is a mesh and delete is on or it had no UV layer |
| SmartUv.VisitObject | Tools-for-Models.py:298-322 | the loop body at position i moves the batch from i items applied to i+1, changing only the object at i; its exception is that step's; ntotal counts the mesh even when it raises; ncount grows only on completion; the active object becomes the object whose UV maps are removed |
| SmartUv.UvObjects | Tools-for-Models.py:297-322 | the objects end in the fail-fast merge of the `UvSteps` (one UvItem per object, in order); ncount is `CountSelected` of the objects before the failure, ntotal `CountMeshes` of those reached including the one that failed; the active object is the last one stripped |
| SmartUv.UvLoopExit | Tools-for-Models.py:297-322 | wherever the loop stops, at the first raising object or at the end, its state is the fail-fast merge with the counters, the active object and the failure stated for the whole loop |
| SmartUv.RestoreActive | Tools-for-Models.py:342-343 | a non-null saved object becomes the active one again, a null one leaves the active object as it is; no object changes |
| SmartUv.ProjectWithSettings | Tools-for-Models.py:275-343 | with the settings read: the loop runs as above; smart_project is called with the five settings exactly when the loop completed and selected something, and its exception is the failure then; the active object is the saved one when there was one, otherwise the last mesh stripped |
| SmartUv.SmartUvProject | Tools-for-Models.py:274-344 | a settings read that fails touches nothing and reports the missing key; otherwise the operator ends as ProjectWithSettings states |
| RemoveDoubles.Distance | Tools-for-Models.py:436-444 | the stored `min_distance` converts to a distance unless it is a string, with which remove_doubles raises |
| RemoveDoubles.Reached | Tools-for-Models.py:439-451 | the number of the four host calls on a mesh that complete before the first that raises |
| RemoveDoubles.ReachedWeld | Tools-for-Models.py:444 | remove_doubles completes only with a distance it accepts and on a mesh that lets it |
| RemoveDoubles.WeldItem | Tools-for-Models.py:440-450 | one mesh of a Remove Doubles batch: from_mesh, remove_doubles, to_mesh and update in order; the vertices are the welded ones once to_mesh completed, and the first call that raises is the exception |
| RemoveDoubles.SeenBy | Tools-for-Models.py:440-442 | what one mesh adds to total_verts: its vertex count once from_mesh completed, else nothing |
| RemoveDoubles.RemovedBy | Tools-for-Models.py:444-447 | what one mesh adds to total_verts_removed: len1 - len2 once remove_doubles completed, else nothing |
| RemoveDoubles.WeldItemOutcome | Tools-for-Models.py:439-453 | a mesh completes exactly when the distance converts and none of its four calls raises; it then holds the welded vertices and adds its vertex count and the number removed |
| RemoveDoubles.RemovedButNotWritten | Tools-for-Models.py:446-450 | when `to_mesh` raises, the removed vertices are already counted but the mesh keeps all of its vertices |
| RemoveDoubles.CompletedTotals | Tools-for-Models.py:438-453 | over meshes that all complete, total_verts (`VertsSeen`) is their vertex total (`VertexTotal`) and total_verts_removed (`VertsRemoved`) is the drop in that total |
| RemoveDoubles.RemovedWithinSeen | Tools-for-Models.py:441-447 | with a weld that never adds vertices, the removed count lies between 0 and the vertices seen, whether or not the batch completed |
| RemoveDoubles.WeldMesh | Tools-for-Models.py:439-451 | the body on one mesh: its vertices, exception, len1 and num_removed follow its step |
| RemoveDoubles.WeldAt | Tools-for-Models.py:439-453 | the loop body at position i changes only that mesh and adds its contributions to the counters |
| RemoveDoubles.WeldMeshes | Tools-for-Models.py:438-453 | the meshes end in the fail-fast merge of the `WeldSteps` (one WeldItem per mesh, in order); ncount is the number completed; total_verts is `VertsSeen` and total_verts_removed `VertsRemoved` of the meshes reached, which include what the failing mesh added before it raised |
| RemoveDoubles.RemoveDoublesGlobally | Tools-for-Models.py:427-463 | mesh_count is the number of meshes; without `min_distance` nothing is touched and the other counters are 0; otherwise the loop runs as above |
| RemoveDoubles.CompletedBatch | Tools-for-Models.py:427-463 | a completed batch saw every vertex; it reports as removed exactly the vertices the meshes lost, which lies between 0 and the vertices seen when the weld never adds vertices |
| Report.Split | Tools-for-Models.py:35 | `split(',')` gives one comma-free field more than there are commas |
| Report.JoinSplit | Tools-for-Models.py:35 | joining the fields with commas gives the line back |
| Report.SplitJoin | Tools-for-Models.py:35 | splitting a join of comma-free fields gives the fields back |
| Report.Extracted | Tools-for-Models.py:35-41 | what one non-empty traceback line contributes: the first element of `line.split(',')[2:]` (`SliceFrom`, Python's `xs[n:]`, empty when xs has n elements or fewer), or the whole line when that slice is empty |
| Report.ExtractedWhole | Tools-for-Models.py:38-41 | a line with fewer than two commas contributes itself |
| Report.ExtractedThirdField | Tools-for-Models.py:35-39 | a line with two commas or more contributes the comma-free text between its second comma and the next comma or the end |
| Report.ExtractedOfThree | Tools-for-Models.py:35-39 | three comma-free fields joined by commas contribute the third |
| Report.TracebackFrameLine | Tools-for-Models.py:35-39 | a frame line `  File "<file>", line <n>, in <function>` whose file name, line number and function name hold no comma contributes its ` in <function>` part (with the leading space and `in`); a comma in the file name shifts the fields |
| Report.NonEmpty | Tools-for-Models.py:34 | the kept lines are non-empty and no more than the input |
| Report.NonEmptyKeepsLines | Tools-for-Models.py:33-34 | only the empty lines are dropped: every non-empty line is kept as often as it occurs, and no empty line is kept |
| Report.Collected | Tools-for-Models.py:32-41 | one entry per non-empty line, in order, each what that line contributes |
| Report.ErrorMessages | Tools-for-Models.py:44-45 | one message per collected line |
| Report.Header | Tools-for-Models.py:43 | the header `Error%s from %s:`, with the `s` exactly when more than one line was collected |
| Report.Reported | Tools-for-Models.py:43-45 | everything report_exception reports: the header, then one ERROR message per collected line, in order |
| Report.ReportedShape | Tools-for-Models.py:43-45 | every message is an ERROR; one header, then one message per non-empty line with what it contributes; the header is "Errors" exactly when more than one message follows |
| Report.CollectLines | Tools-for-Models.py:31-41 | the first loop builds the Collected lines |
| Report.ReportException | Tools-for-Models.py:27-45 | the messages reported are the header followed by the collected lines, in order |

## Left out

- The report texts of the four operators (`Processing %s`, `Finished %d meshes`,
  `Abort after ...`) are not modelled, nor the printing of the traceback to the
  console. Each operator returns the counters and the failure those texts are
  formatted from.
- The `_DEBUG` branches are left out. `_DEBUG` is the constant False, so they never run.
- The registration of the `bpy.props` properties is left out, with their soft limits
  and precision. These are the host's UI metadata and do not change the table that
  `__init_data` writes.
- The SYMMETRY_LIST menu operator, the panel's `draw` and the debug operator are
  left out, because they only lay out UI.
- `traceback.format_exc().splitlines()` is I/O, so those lines are the
  `formattedLines` parameter of `Report.ReportException`.
- The effect of `bpy.ops.uv.smart_project` on the UV layers is the host's algorithm.
  The model records the call and its arguments (`SmartUv.ProjectCall`) and whether
  it raised.
- The weld performed by `bmesh.ops.remove_doubles` is the host's algorithm. It is
  the function parameter `weld`. `bmesh.new`, `bm.clear` and `bm.free` have no
  effect on the model's state.
- Which UV layer `uv_texture_remove` removes is not modelled. The model removes the
  first layer each time; only the number left matters to the operator.
- Mesh data shared between objects is not modelled. Each object owns its UV layers,
  and meshes are separate from objects, so two objects sharing one mesh are not
  modelled.
- Modifiers.RemoveWhileIterating: models `for m in obj.modifiers` with Python list
  iteration; how the host's own collection iterator behaves when the current item
  is removed is not part of this model.
- Floats are exact reals. The add-on copies them and does not compute with them.
- Report.ReportedShape: states the header's text, not the `%`-formatting of
  `error_from`. `error_from` is a string parameter here.
- The host's generic failures beyond the listed calls (an `obj.data.uv_layers` read,
  `str(obj)`, a report) are not modelled as raising.

## Findings

| source | as written | input that shows it | evidently intended | confidence | as-written member | corrected member |
|---|---|---|---|---|---|---|
| Tools-for-Models.py:51-54 | `for m in obj.modifiers:` removes from the collection it is iterating over; under Python list iteration the modifier right after a removed one is skipped | a stack of two decimate modifiers, iterated as a Python list: one removal, one survives | every decimate modifier is removed, as the operators' names and the comment at line 48 say | low, not executed: `obj.modifiers` is a host collection, not a Python list, and an iterator that moves on before handing back the current modifier would remove both | Modifiers.AdjacentDecimateSurvives | Modifiers.RemoveAllDecimateModifiers |
