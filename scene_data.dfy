/** The scene's property table as the add-on uses it: the defaults it fills in when
    it is loaded, the getter and setter of the symmetry-axis property, the fixed
    X/Y/Z axis table, and the configuration each batch operator reads before its loop. */
module SceneData {
  import opened Common
  import opened Host

  /** The value written for each key that the table does not yet hold when the
      add-on initialises a scene. Neither `decimate_ratio` nor
      `decimate_symmetry_axis` is among them; `symmetry_axis_items` is. */
  const Defaults: map<string, Value> := map[
    "min_distance" := Float(0.005),
    "decimate_triangulate" := Bool(false),
    "decimate_symmetry" := Bool(false),
    "symmetry_axis_items" := Str("1"),
    "angle_limit" := Float(33.0),
    "island_margin" := Float(0.40),
    "area_weight" := Float(0.0),
    "correct_aspect" := Bool(true),
    "stretch_to_uv_bounds" := Bool(true),
    "delete_uv_maps" := Bool(false)]

  /** The table after initialisation: every default key present, and every key that
      was present keeps its value. */
  function WithDefaults(table: map<string, Value>): (r: map<string, Value>)
    ensures r.Keys == table.Keys + Defaults.Keys
    ensures forall k :: k in table ==> r[k] == table[k]
    ensures forall k :: k in Defaults && k !in table ==> r[k] == Defaults[k]
  {
    Defaults + table
  }

  /** Scene initialisation: each default key is written only when the key set taken
      at entry does not hold it. */
  method InitData(scn: Scene)
    modifies scn`table
    ensures scn.table == WithDefaults(old(scn.table))
  {
    var keys := scn.table.Keys;
    ghost var written: map<string, Value> := map[];
    assert scn.table == written + old(scn.table);
    SetDefault(scn, keys, "min_distance", Float(0.005), written, old(scn.table));
    written := written["min_distance" := Float(0.005)];
    SetDefault(scn, keys, "decimate_triangulate", Bool(false), written, old(scn.table));
    written := written["decimate_triangulate" := Bool(false)];
    SetDefault(scn, keys, "decimate_symmetry", Bool(false), written, old(scn.table));
    written := written["decimate_symmetry" := Bool(false)];
    SetDefault(scn, keys, "symmetry_axis_items", Str("1"), written, old(scn.table));
    written := written["symmetry_axis_items" := Str("1")];
    SetDefault(scn, keys, "angle_limit", Float(33.0), written, old(scn.table));
    written := written["angle_limit" := Float(33.0)];
    SetDefault(scn, keys, "island_margin", Float(0.40), written, old(scn.table));
    written := written["island_margin" := Float(0.40)];
    SetDefault(scn, keys, "area_weight", Float(0.0), written, old(scn.table));
    written := written["area_weight" := Float(0.0)];
    SetDefault(scn, keys, "correct_aspect", Bool(true), written, old(scn.table));
    written := written["correct_aspect" := Bool(true)];
    SetDefault(scn, keys, "stretch_to_uv_bounds", Bool(true), written, old(scn.table));
    written := written["stretch_to_uv_bounds" := Bool(true)];
    SetDefault(scn, keys, "delete_uv_maps", Bool(false), written, old(scn.table));
    written := written["delete_uv_maps" := Bool(false)];
    DefaultsInOrder();
  }

  /** The defaults, written one key after the other in the order of initialisation. */
  lemma DefaultsInOrder()
    ensures map[]["min_distance" := Float(0.005)]["decimate_triangulate" := Bool(false)]["decimate_symmetry" := Bool(false)]["symmetry_axis_items" := Str("1")]["angle_limit" := Float(33.0)]["island_margin" := Float(0.40)]["area_weight" := Float(0.0)]["correct_aspect" := Bool(true)]["stretch_to_uv_bounds" := Bool(true)]["delete_uv_maps" := Bool(false)] == Defaults
  {
  }

  /** `if key not in keys: scn[key] = value`, with `keys` the key set taken when the
      initialisation started. Stated also on the table it leaves: the defaults written
      so far, overridden by the initial table. */
  method SetDefault(scn: Scene, keys: set<string>, key: string, value: Value,
                    ghost written: map<string, Value>, ghost initial: map<string, Value>)
    requires keys == initial.Keys && scn.table == written + initial
    modifies scn`table
    ensures scn.table == if key in keys then old(scn.table) else old(scn.table)[key := value]
    ensures scn.table == written[key := value] + initial
  {
    if key !in keys {
      scn.table := scn.table[key := value];
    }
  }

  /** Initialising twice changes nothing the first time did not. */
  lemma InitDataIdempotent(table: map<string, Value>)
    ensures WithDefaults(WithDefaults(table)) == WithDefaults(table)
  {
    var once := WithDefaults(table);
    var twice := WithDefaults(once);
    assert twice.Keys == once.Keys;
    forall k | k in once ensures twice[k] == once[k] { }
  }

  /** Initialisation never supplies the ratio or the stored axis index: a scene has
      them only if they were already there. */
  lemma InitDataLeavesRatioAndAxis(table: map<string, Value>)
    ensures "decimate_ratio" in WithDefaults(table) <==> "decimate_ratio" in table
    ensures "decimate_symmetry_axis" in WithDefaults(table) <==> "decimate_symmetry_axis" in table
  {
    assert "decimate_ratio" !in Defaults;
    assert "decimate_symmetry_axis" !in Defaults;
  }

  /** `scn[key]`: the stored value, or a KeyError. */
  function Lookup(table: map<string, Value>, key: string): (r: Result<Value, Failure>)
    ensures r.Ok? <==> key in table
    ensures r.Ok? ==> r.value == table[key]
    ensures r.Err? ==> r.error == MissingKey(key)
  {
    if key in table then Ok(table[key]) else Err(MissingKey(key))
  }

  /** The property getter of the symmetry axis: the stored index, or a KeyError. */
  function GetSymmetryItem(table: map<string, Value>): Result<Value, Failure> {
    Lookup(table, "decimate_symmetry_axis")
  }

  /** The property setter of the symmetry axis: stores the chosen index under
      `decimate_symmetry_axis` and changes no other key. */
  method SetSymmetryItem(scn: Scene, value: Value)
    modifies scn`table
    ensures scn.table == old(scn.table)["decimate_symmetry_axis" := value]
  {
    scn.table := scn.table["decimate_symmetry_axis" := value];
  }

  /** The getter returns what the setter stored, and the setter leaves every other key alone. */
  lemma {:induction false} GetAfterSet(table: map<string, Value>, value: Value)
    ensures GetSymmetryItem(table["decimate_symmetry_axis" := value]) == Ok(value)
    ensures forall k :: k != "decimate_symmetry_axis" ==>
      (k in table["decimate_symmetry_axis" := value] <==> k in table)
    ensures forall k :: k != "decimate_symmetry_axis" && k in table ==>
      table["decimate_symmetry_axis" := value][k] == table[k]
  {
  }

  /** One entry of the enum items of the axis property: identifier, name, description. */
  datatype AxisItem = AxisItem(identifier: string, name: string, description: string)

  const SymmetryAxisItems: seq<AxisItem> :=
    [AxisItem("1", "X", "0"), AxisItem("2", "Y", "0"), AxisItem("3", "Z", "0")]

  /** Python's `items[v]` on a list of length n: an int (or a bool, which Python treats
      as 0 or 1) in -n..n-1, negative indexes counting from the end; anything else
      raises (IndexError or TypeError). */
  function PyIndex(v: Value, n: nat): (r: Option<nat>)
    ensures r.Some? ==> r.value < n
    ensures v.Int? && 0 <= v.i < n ==> r == Some(v.i)
    ensures v.Int? && -(n as int) <= v.i < 0 ==> r == Some(n + v.i)
    ensures (v.Int? && !(-(n as int) <= v.i < n)) || v.Float? || v.Str? ==> r.None?
    ensures v.Bool? && n > 1 ==> r == Some(if v.b then 1 else 0)
  {
    match v
    case Int(i) => if 0 <= i < n then Some(i) else if -(n as int) <= i < 0 then Some(n + i) else None
    case Bool(b) => if n == 0 then None else if !b then Some(0) else if n > 1 then Some(1) else None
    case Float(_) => None
    case Str(_) => None
  }

  /** `symmetry_axis_items[scene['decimate_symmetry_axis']][1]`: the name of the axis
      at the stored index. */
  function AxisName(table: map<string, Value>): (r: Result<string, Failure>)
    ensures r.Ok? ==> r.value in {"X", "Y", "Z"}
  {
    var raw :- Lookup(table, "decimate_symmetry_axis");
    match PyIndex(raw, |SymmetryAxisItems|)
    case None => Err(BadAxisIndex(raw))
    case Some(idx) => Ok(SymmetryAxisItems[idx].name)
  }

  /** Index 0, 1, 2 name X, Y, Z; -1, -2, -3 name Z, Y, X. */
  lemma AxisNames(table: map<string, Value>, i: int)
    requires "decimate_symmetry_axis" in table && table["decimate_symmetry_axis"] == Int(i)
    ensures AxisName(table).Ok? <==> -3 <= i < 3
    ensures i == 0 || i == -3 ==> AxisName(table) == Ok("X")
    ensures i == 1 || i == -2 ==> AxisName(table) == Ok("Y")
    ensures i == 2 || i == -1 ==> AxisName(table) == Ok("Z")
  {
  }

  /** The configuration a Decimate batch reads before its loop. */
  datatype DecimateConfig = DecimateConfig(ratio: Value, triangulate: Value, symmetry: Value, symmetryAxis: string)

  /** Reads ratio, triangulate and symmetry, in that order, and the axis name only
      when symmetry is on (the name stays "X" otherwise); the first read that fails
      aborts the batch before any object is touched. */
  function ReadDecimateConfig(table: map<string, Value>): (r: Result<DecimateConfig, Failure>)
    ensures r.Ok? <==>
      && "decimate_ratio" in table && "decimate_triangulate" in table && "decimate_symmetry" in table
      && (Truthy(table["decimate_symmetry"]) ==> AxisName(table).Ok?)
    ensures r.Ok? ==>
      && r.value.ratio == table["decimate_ratio"]
      && r.value.triangulate == table["decimate_triangulate"]
      && r.value.symmetry == table["decimate_symmetry"]
      && r.value.symmetryAxis == (if Truthy(r.value.symmetry) then AxisName(table).value else "X")
    ensures "decimate_ratio" !in table ==> r == Err(MissingKey("decimate_ratio"))
  {
    var ratio :- Lookup(table, "decimate_ratio");
    var triangulate :- Lookup(table, "decimate_triangulate");
    var symmetry :- Lookup(table, "decimate_symmetry");
    var axis :- if Truthy(symmetry) then AxisName(table) else Ok("X");
    Ok(DecimateConfig(ratio, triangulate, symmetry, axis))
  }

  /** With symmetry off, the stored axis index is never read: the configuration is
      the same whatever `decimate_symmetry_axis` holds, or whether it exists. */
  lemma SymmetryOffIgnoresAxis(table: map<string, Value>, other: Value)
    requires "decimate_symmetry" in table && !Truthy(table["decimate_symmetry"])
    ensures ReadDecimateConfig(table) == ReadDecimateConfig(table["decimate_symmetry_axis" := other])
    ensures ReadDecimateConfig(table) == ReadDecimateConfig(table - {"decimate_symmetry_axis"})
  {
  }

  /** A scene holding only the defaults cannot be decimated: the ratio was never initialised. */
  lemma FreshSceneCannotDecimate()
    ensures ReadDecimateConfig(WithDefaults(map[])) == Err(MissingKey("decimate_ratio"))
  {
    InitDataLeavesRatioAndAxis(map[]);
  }

  /** The configuration a Smart UV Project batch reads before its loop. */
  datatype UvConfig = UvConfig(
    areaWeight: Value, correctAspect: Value, stretchToUvBounds: Value,
    angleLimit: Value, islandMargin: Value, deleteUvMaps: Value)

  /** The table holds all six unwrap settings. */
  predicate HasUvSettings(table: map<string, Value>) {
    && "area_weight" in table && "correct_aspect" in table && "stretch_to_uv_bounds" in table
    && "angle_limit" in table && "island_margin" in table && "delete_uv_maps" in table
  }

  /** Reads the six settings in the order the operator reads them: with all of them
      present the configuration holds the stored values, otherwise the first absent
      one in that order is the KeyError. */
  function ReadUvConfig(table: map<string, Value>): (r: Result<UvConfig, Failure>)
    ensures r.Ok? <==> HasUvSettings(table)
    ensures r.Ok? ==>
      r.value == UvConfig(table["area_weight"], table["correct_aspect"], table["stretch_to_uv_bounds"],
                          table["angle_limit"], table["island_margin"], table["delete_uv_maps"])
    ensures "area_weight" !in table ==> r == Err(MissingKey("area_weight"))
    ensures ("area_weight" in table && "correct_aspect" !in table) ==> r == Err(MissingKey("correct_aspect"))
    ensures ("area_weight" in table && "correct_aspect" in table && "stretch_to_uv_bounds" !in table)
            ==> r == Err(MissingKey("stretch_to_uv_bounds"))
    ensures ("area_weight" in table && "correct_aspect" in table && "stretch_to_uv_bounds" in table
             && "angle_limit" !in table)
            ==> r == Err(MissingKey("angle_limit"))
    ensures ("area_weight" in table && "correct_aspect" in table && "stretch_to_uv_bounds" in table
             && "angle_limit" in table && "island_margin" !in table)
            ==> r == Err(MissingKey("island_margin"))
    ensures ("area_weight" in table && "correct_aspect" in table && "stretch_to_uv_bounds" in table
             && "angle_limit" in table && "island_margin" in table && "delete_uv_maps" !in table)
            ==> r == Err(MissingKey("delete_uv_maps"))
  {
    var areaWeight :- Lookup(table, "area_weight");
    var correctAspect :- Lookup(table, "correct_aspect");
    var stretchToUvBounds :- Lookup(table, "stretch_to_uv_bounds");
    var angleLimit :- Lookup(table, "angle_limit");
    var islandMargin :- Lookup(table, "island_margin");
    var deleteUvMaps :- Lookup(table, "delete_uv_maps");
    Ok(UvConfig(areaWeight, correctAspect, stretchToUvBounds, angleLimit, islandMargin, deleteUvMaps))
  }

  /** After initialisation the unwrap settings and the weld distance can always be read. */
  lemma InitialisedSceneReadsUvAndWeld(table: map<string, Value>)
    ensures ReadUvConfig(WithDefaults(table)).Ok?
    ensures Lookup(WithDefaults(table), "min_distance").Ok?
  {
    var t := WithDefaults(table);
    assert "area_weight" in Defaults && "correct_aspect" in Defaults && "stretch_to_uv_bounds" in Defaults;
    assert "angle_limit" in Defaults && "island_margin" in Defaults && "delete_uv_maps" in Defaults;
  }
}
