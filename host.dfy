/** The part of the 3D host that the add-on's batch operators see: the values a
    scene's property table holds, objects with their modifier stacks, UV layers and
    selection flags, meshes with their vertices, and the host calls that can raise. */
module Host {
  import opened Common

  /** A value stored under a key of the scene's property table. Floats are only ever
      copied by the add-on, never computed with, so they are kept as exact reals. */
  datatype Value = Bool(b: bool) | Int(i: int) | Float(x: real) | Str(s: string)

  /** Python's truth value of a stored value (`if symmetry:`, `if delete_uv_maps:`). */
  predicate Truthy(v: Value) {
    match v
    case Bool(b) => b
    case Int(i) => i != 0
    case Float(x) => x != 0.0
    case Str(s) => s != ""
  }

  datatype Vertex = Vertex(x: real, y: real, z: real)

  datatype UVLayer = UVLayer(name: string)

  /** The type tag of any modifier that is not a decimate modifier. */
  type OtherType = t: string | t != "DECIMATE" witness "ARRAY"

  /** The fields of a decimate modifier that the add-on assigns; None is a field the
      add-on has not assigned, which keeps whatever default the host gave it. */
  datatype DecimateSettings = DecimateSettings(
    decimateType: Option<string>,
    ratio: Option<Value>,
    useCollapseTriangulate: Option<Value>,
    useSymmetry: Option<Value>,
    symmetryAxis: Option<string>)

  /** A freshly created decimate modifier: no field assigned yet. */
  const Unassigned := DecimateSettings(None, None, None, None, None)

  datatype Modifier = Decimate(settings: DecimateSettings) | Other(otherType: OtherType) {
    /** The modifier's `type` tag. */
    function Type(): string {
      if Decimate? then "DECIMATE" else otherType
    }
  }

  /** The test the add-on applies to each modifier: `m.type == "DECIMATE"`. */
  predicate IsDecimate(m: Modifier) {
    m.Type() == "DECIMATE"
  }

  datatype DecimateField = DecimateType | Ratio | UseCollapseTriangulate | UseSymmetry | SymmetryAxis

  /** Host calls on an object that can raise: the nth `modifiers.remove` on it,
      `modifiers.new`, an assignment to a field of the new decimate modifier, and the
      nth `uv_texture_remove` with it active. */
  datatype ObjectOp =
    | RemoveModifier(nth: nat)
    | NewModifier
    | SetField(field: DecimateField)
    | RemoveUvTexture(nth: nat)

  /** Host calls on a mesh that can raise while it is welded. */
  datatype MeshOp = FromMesh | RemoveDoubles | ToMesh | MeshUpdate

  /** Host calls made once per batch, after its loop. */
  datatype SceneOp = SceneUpdate | SmartProject

  /** Why a batch stopped: a configuration read that failed before the loop (a missing
      key, an axis index the symmetry table cannot take), or a host call that raised. */
  datatype Failure =
    | MissingKey(key: string)
    | BadAxisIndex(index: Value)
    | ObjectRaised(item: nat, objectOp: ObjectOp)
    | MeshRaised(item: nat, meshOp: MeshOp)
    | SceneRaised(sceneOp: SceneOp)

  /** The value of an object's state at one moment. */
  datatype ObjectView = ObjectView(
    objectType: string,
    raisesOn: set<ObjectOp>,
    modifiers: seq<Modifier>,
    uvLayers: seq<UVLayer>,
    select: bool)

  predicate IsMesh(v: ObjectView) {
    v.objectType == "MESH"
  }

  /** The value of a mesh's state at one moment. */
  datatype MeshView = MeshView(raisesOn: set<MeshOp>, vertices: seq<Vertex>)

  /** An object of the scene: its type never changes; its modifier stack, its UV
      layers and its selection flag are changed in place by the batch operators.
      `raisesOn` is the set of host calls that raise when made on it (for instance
      every modifier removal while the host is in edit mode). */
  class BlendObject {
    const objectType: string
    const raisesOn: set<ObjectOp>
    var modifiers: seq<Modifier>
    var uvLayers: seq<UVLayer>
    var select: bool

    constructor (objectType: string, raisesOn: set<ObjectOp>, modifiers: seq<Modifier>,
                 uvLayers: seq<UVLayer>, select: bool)
      ensures View() == ObjectView(objectType, raisesOn, modifiers, uvLayers, select)
    {
      this.objectType := objectType;
      this.raisesOn := raisesOn;
      this.modifiers := modifiers;
      this.uvLayers := uvLayers;
      this.select := select;
    }

    function View(): ObjectView
      reads this
    {
      ObjectView(objectType, raisesOn, modifiers, uvLayers, select)
    }
  }

  /** A mesh datablock: the weld replaces its vertices. */
  class Mesh {
    const raisesOn: set<MeshOp>
    var vertices: seq<Vertex>

    constructor (raisesOn: set<MeshOp>, vertices: seq<Vertex>)
      ensures View() == MeshView(raisesOn, vertices)
    {
      this.raisesOn := raisesOn;
      this.vertices := vertices;
    }

    function View(): MeshView
      reads this
    {
      MeshView(raisesOn, vertices)
    }
  }

  /** The scene: its key-to-value property table and its active object. */
  class Scene {
    const raisesOn: set<SceneOp>
    var table: map<string, Value>
    var active: BlendObject?

    constructor (raisesOn: set<SceneOp>, table: map<string, Value>, active: BlendObject?)
      ensures this.raisesOn == raisesOn && this.table == table && this.active == active
    {
      this.raisesOn := raisesOn;
      this.table := table;
      this.active := active;
    }
  }

  function ObjectViews(objects: seq<BlendObject>): (vs: seq<ObjectView>)
    reads set o | o in objects
    ensures |vs| == |objects|
    ensures forall j :: 0 <= j < |objects| ==> vs[j] == objects[j].View()
  {
    seq(|objects|, j reads set o | o in objects requires 0 <= j < |objects| => objects[j].View())
  }

  function MeshViews(meshes: seq<Mesh>): (vs: seq<MeshView>)
    reads set m | m in meshes
    ensures |vs| == |meshes|
    ensures forall j :: 0 <= j < |meshes| ==> vs[j] == meshes[j].View()
  {
    seq(|meshes|, j reads set m | m in meshes requires 0 <= j < |meshes| => meshes[j].View())
  }

  /** The number of MESH objects. */
  function CountMeshes(vs: seq<ObjectView>): (n: nat)
    ensures n <= |vs|
  {
    if vs == [] then 0
    else CountMeshes(vs[..|vs| - 1]) + (if IsMesh(vs[|vs| - 1]) then 1 else 0)
  }
}
