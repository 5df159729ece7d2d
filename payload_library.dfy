/** The payload catalogue and the payload builder behind the payload
    library tab: the user picks a catalogue entry, then a geometry and its
    dimensions; the builder derives area, volume and density, suggests a
    drag coefficient, and exports and saves the payload configuration. */
module PayloadLibrary {
  import opened Builtins
  import opened Strings
  import GeometryValidation

  /** A catalogue entry: identifier, display name, category, subcategory. */
  datatype Archetype = Archetype(id: string, name: string, category: string, subcategory: string)

  /** The frozen catalogue, in display order. */
  const PAYLOAD_LIBRARY: seq<Archetype> := [
    Archetype("rel_sac_grain", "Grain Sack", "Humanitarian / Relief", "Consumables"),
    Archetype("rel_med_kit_s", "Medical Kit", "Humanitarian / Relief", "Medical"),
    Archetype("rel_water_jerry", "Water Jerrycan", "Humanitarian / Relief", "Liquids"),
    Archetype("rel_blanket_roll", "Thermal Blankets", "Humanitarian / Relief", "Shelter"),
    Archetype("trg_cal_sphere", "Calibration Sphere", "Training / Inert", "Calibration"),
    Archetype("trg_dummy_box", "Inert Training Load", "Training / Inert", "Procedure"),
    Archetype("trg_sim_cyl", "Simulated Canister", "Training / Inert", "Procedure"),
    Archetype("exp_atm_probe", "Atmospheric Sonobuoy", "Experimental / Research", "Sensors"),
    Archetype("exp_reentry_test", "Blunt Body Test Article", "Experimental / Research", "Aerodynamics"),
    Archetype("exp_bio_cont", "Biological Sample Return", "Experimental / Research", "Biological"),
    Archetype("exp_cubesat_sim", "CubeSat Simulator", "Experimental / Research", "Space Systems"),
    Archetype("com_express_box", "Express Parcel", "Commercial / Logistics", "Delivery"),
    Archetype("com_parts_bin", "Spare Parts Bin", "Commercial / Logistics", "Industrial"),
    Archetype("com_doc_tube", "Map/Document Tube", "Commercial / Logistics", "Documents"),
    Archetype("com_cooler", "Insulated Cooler", "Commercial / Logistics", "Perishables"),
    Archetype("mil_smoke_can", "Smoke Marker", "Military / Tactical", "Signaling"),
    Archetype("mil_sensor_node", "Remote Sensor Node", "Military / Tactical", "ISR"),
    Archetype("mil_ammo_box", "Generic Ammo Can", "Military / Tactical", "Resupply"),
    Archetype("mil_comms_droplink", "Comms Relay Droplink", "Military / Tactical", "Comms")
  ]

  /** `_get_archetype`: the entry at `index`, or None outside the catalogue. */
  function GetArchetype(index: int): (r: Option<Archetype>)
    ensures r.Some? <==> 0 <= index < |PAYLOAD_LIBRARY|
    ensures r.Some? ==> r.value == PAYLOAD_LIBRARY[index]
  {
    if 0 <= index < |PAYLOAD_LIBRARY| then Some(PAYLOAD_LIBRARY[index]) else None
  }

  /** The entries of `lib` from index `from` on whose category starts with
      `key`, with their indices, in catalogue order. */
  function Matching(lib: seq<Archetype>, key: string, from: nat): (r: seq<(nat, Archetype)>)
    ensures forall e :: e in r ==> from <= e.0 < |lib| && lib[e.0] == e.1 && StartsWith(e.1.category, key)
    ensures forall i :: from <= i < |lib| && StartsWith(lib[i].category, key) ==> (i, lib[i]) in r
    ensures forall a, b :: 0 <= a < b < |r| ==> r[a].0 < r[b].0
    decreases |lib| - from
  {
    if from >= |lib| then []
    else
      var rest := Matching(lib, key, from + 1);
      if StartsWith(lib[from].category, key) then [(from, lib[from])] + rest else rest
  }

  /** `_payloads_for_category`: the (index, entry) pairs whose category
      starts with the part of `cat` before the first " / ", in order. */
  function PayloadsForCategory(cat: string): (r: seq<(nat, Archetype)>)
    ensures forall e :: e in r <==>
      e.0 < |PAYLOAD_LIBRARY| && PAYLOAD_LIBRARY[e.0] == e.1 && StartsWith(e.1.category, BeforeFirst(cat, " / "))
    ensures forall a, b :: 0 <= a < b < |r| ==> r[a].0 < r[b].0
  {
    Matching(PAYLOAD_LIBRARY, BeforeFirst(cat, " / "), 0)
  }

  /** The builder's `_state` dictionary. */
  datatype BuilderState = BuilderState(
    selectedIndex: int,
    mass: Option<real>,
    geometryType: Option<string>,
    dims: map<string, real>,
    dragCoefficient: Option<real>,
    calculatedArea: Option<real>,
    calculatedVolume: Option<real>,
    calculatedDensity: Option<real>,
    cdUncertainty: Option<real>,
    cdIsManual: bool,
    cdSource: string,
    maxSafeImpactSpeed: Option<real>)

  /** The state `__init__` sets up: nothing selected, nothing entered. */
  const INITIAL: BuilderState :=
    BuilderState(-1, None, None, map[], None, None, None, None, None, false, "Literature", None)

  /** The value of pi the builder uses. */
  const PI_APPROX: real := 3.14159

  /** The geometry types the builder derives values for, with their
      suggested drag coefficients. */
  const DEFAULT_CD: map<string, real> :=
    map["sphere" := 0.47, "cylinder" := 0.90, "box" := 1.15, "capsule" := 0.50, "blunt_cone" := 0.70]

  /** The drag-coefficient uncertainty per geometry type (0.10 otherwise). */
  const CD_UNCERTAINTY: map<string, real> :=
    map["sphere" := 0.05, "capsule" := 0.10, "cylinder" := 0.15, "blunt_cone" := 0.15, "box" := 0.20]

  /** A truthy float: set and non-zero. */
  predicate Given(x: Option<real>) {
    x.Some? && x.value != 0.0
  }

  /** A truthy geometry type: set and non-empty. */
  predicate ShapeChosen(g: Option<string>) {
    g.Some? && g.value != ""
  }

  /** Dimension `k` after falsy entries are dropped: present and non-zero. */
  function Dim(dims: map<string, real>, k: string): (r: Option<real>)
    ensures r.Some? <==> k in dims && dims[k] != 0.0
    ensures r.Some? ==> r.value == dims[k]
  {
    if k in dims && dims[k] != 0.0 then Some(dims[k]) else None
  }

  /** The builder's dimension names each geometry type needs. */
  function UiDims(g: string): (r: seq<string>)
    ensures g !in DEFAULT_CD ==> r == []
  {
    if g == "sphere" then ["radius"]
    else if g == "cylinder" || g == "capsule" || g == "blunt_cone" then ["radius", "length"]
    else if g == "box" then ["length", "width", "height"]
    else []
  }

  /** The reference area and volume of a geometry (`_calculate_derived_physics`
      once the dimensions are read); both or neither are set. */
  function AreaAndVolume(g: string, dims: map<string, real>): (r: (Option<real>, Option<real>))
    ensures r.0.Some? <==> r.1.Some?
  {
    if g == "sphere" then
      match Dim(dims, "radius")
      case Some(r) => (Some(PI_APPROX * r * r), Some((4.0 / 3.0) * PI_APPROX * (r * r * r)))
      case None => (None, None)
    else if g == "cylinder" then
      if Dim(dims, "radius").Some? && Dim(dims, "length").Some? then
        var (r, l) := (Dim(dims, "radius").value, Dim(dims, "length").value);
        (Some(2.0 * r * l), Some(PI_APPROX * (r * r) * l))
      else (None, None)
    else if g == "box" then
      if Dim(dims, "length").Some? && Dim(dims, "width").Some? && Dim(dims, "height").Some? then
        var (l, w, h) := (Dim(dims, "length").value, Dim(dims, "width").value, Dim(dims, "height").value);
        (Some(Max(Max(l * w, w * h), l * h)), Some(l * w * h))
      else (None, None)
    else if g == "capsule" then
      if Dim(dims, "radius").Some? && Dim(dims, "length").Some? then
        var (r, l) := (Dim(dims, "radius").value, Dim(dims, "length").value);
        (Some(2.0 * r * l + PI_APPROX * (r * r)), Some(PI_APPROX * (r * r) * l + (4.0 / 3.0) * PI_APPROX * (r * r * r)))
      else (None, None)
    else if g == "blunt_cone" then
      if Dim(dims, "radius").Some? && Dim(dims, "length").Some? then
        var (r, l) := (Dim(dims, "radius").value, Dim(dims, "length").value);
        (Some(PI_APPROX * (r * r)), Some((1.0 / 3.0) * PI_APPROX * (r * r) * l))
      else (None, None)
    else (None, None)
  }

  /** Area and volume are derived exactly when the geometry type is known
      and every dimension it needs is present and non-zero. */
  lemma DerivedIffDimsGiven(g: string, dims: map<string, real>)
    ensures AreaAndVolume(g, dims).0.Some? <==> g in DEFAULT_CD && forall k :: k in UiDims(g) ==> Dim(dims, k).Some?
  {
    if g == "box" {
      assert UiDims(g) == ["length", "width", "height"];
    } else if g == "sphere" {
      assert UiDims(g) == ["radius"];
    } else if g in DEFAULT_CD {
      assert UiDims(g) == ["radius", "length"];
    }
  }

  /** A sphere's reference area is its cross-section, pi r^2. */
  lemma SphereAreaIsCrossSection(dims: map<string, real>, r: real)
    requires "radius" in dims && dims["radius"] == r && r != 0.0
    ensures AreaAndVolume("sphere", dims).0 == Some(PI_APPROX * r * r)
  {
    assert Dim(dims, "radius") == Some(r);
    var area := AreaAndVolume("sphere", dims).0;
    assert area.Some? && area.value == PI_APPROX * r * r;
  }

  /** A box's reference area is its largest face. */
  lemma BoxAreaIsLargestFace(dims: map<string, real>)
    requires AreaAndVolume("box", dims).0.Some?
    ensures "length" in dims && "width" in dims && "height" in dims
    ensures var (l, w, h, a) := (dims["length"], dims["width"], dims["height"], AreaAndVolume("box", dims).0.value);
      a >= l * w && a >= w * h && a >= l * h && (a == l * w || a == w * h || a == l * h)
    ensures AreaAndVolume("box", dims).1 == Some(dims["length"] * dims["width"] * dims["height"])
  {
    assert Dim(dims, "length") == Some(dims["length"]) && Dim(dims, "width") == Some(dims["width"]);
    assert Dim(dims, "height") == Some(dims["height"]);
    var volume := AreaAndVolume("box", dims).1;
    assert volume.Some? && volume.value == dims["length"] * dims["width"] * dims["height"];
  }

  /** A 1 x 0.5 x 0.5 box has reference area 0.5, the area of its largest
      faces. */
  lemma HalfMetreBox()
    ensures AreaAndVolume("box", map["length" := 1.0, "width" := 0.5, "height" := 0.5]).0 == Some(0.5)
  {
    var dims := map["length" := 1.0, "width" := 0.5, "height" := 0.5];
    assert Dim(dims, "length") == Some(1.0) && Dim(dims, "width") == Some(0.5) && Dim(dims, "height") == Some(0.5);
    var area := AreaAndVolume("box", dims).0;
    assert area.Some? && area.value == 0.5;
  }

  /** Area, volume and density derived from a state. */
  datatype Derived = Derived(area: Option<real>, volume: Option<real>, density: Option<real>)

  /** `_calculate_derived_physics`: area and volume when a geometry type and
      dimensions are set; density when mass and volume are both non-zero. */
  function DerivedPhysics(s: BuilderState): (d: Derived)
    ensures d.area.Some? <==> ShapeChosen(s.geometryType) && s.dims != map[] && AreaAndVolume(s.geometryType.value, s.dims).0.Some?
    ensures d.area.Some? <==> d.volume.Some?
    ensures d.density.Some? <==> Given(s.mass) && Given(d.volume)
    ensures d.density.Some? ==> d.density.value * d.volume.value == s.mass.value
  {
    var (area, vol) :=
      if ShapeChosen(s.geometryType) && s.dims != map[] then AreaAndVolume(s.geometryType.value, s.dims) else (None, None);
    if Given(s.mass) && Given(vol) then Derived(area, vol, Some(s.mass.value / vol.value))
    else Derived(area, vol, None)
  }

  /** `_sync_state_from_archetype`: select entry `index` and clear what the
      user entered for the previous one. */
  function Synced(s: BuilderState, index: int): (r: BuilderState)
    ensures r.selectedIndex == index
    ensures r.mass.None? && r.geometryType.None? && r.dims == map[] && r.dragCoefficient.None?
    ensures r.calculatedArea.None? && r.cdUncertainty.None? && r.maxSafeImpactSpeed.None?
    ensures !r.cdIsManual && r.cdSource == "Literature"
    ensures r.calculatedVolume == s.calculatedVolume && r.calculatedDensity == s.calculatedDensity
  {
    s.(selectedIndex := index, mass := None, geometryType := None, dims := map[], dragCoefficient := None,
       calculatedArea := None, cdUncertainty := None, cdIsManual := false, cdSource := "Literature",
       maxSafeImpactSpeed := None)
  }

  /** `_update_calculations`: store the derived values, suggest the default
      drag coefficient for the geometry when none is set, and set the
      uncertainty for the geometry. */
  function Updated(s: BuilderState): (r: BuilderState)
    ensures (r.calculatedArea, r.calculatedVolume, r.calculatedDensity) ==
      (DerivedPhysics(s).area, DerivedPhysics(s).volume, DerivedPhysics(s).density)
    ensures s.dragCoefficient.Some? ==> r.dragCoefficient == s.dragCoefficient
    ensures s.dragCoefficient.None? && ShapeChosen(s.geometryType) && s.geometryType.value in DEFAULT_CD ==>
      r.dragCoefficient == Some(DEFAULT_CD[s.geometryType.value])
    ensures r.dragCoefficient.Some? ==> s.dragCoefficient.Some? || (s.geometryType.Some? && s.geometryType.value in DEFAULT_CD)
    ensures r.cdUncertainty.Some? && r.cdUncertainty.value in {0.05, 0.10, 0.15, 0.20}
    ensures s.geometryType.Some? && s.geometryType.value in CD_UNCERTAINTY ==>
      r.cdUncertainty == Some(CD_UNCERTAINTY[s.geometryType.value])
    ensures s.geometryType.None? || s.geometryType.value !in CD_UNCERTAINTY ==> r.cdUncertainty == Some(0.10)
    ensures r.(calculatedArea := s.calculatedArea, calculatedVolume := s.calculatedVolume,
               calculatedDensity := s.calculatedDensity, dragCoefficient := s.dragCoefficient,
               cdUncertainty := s.cdUncertainty) == s
  {
    var d := DerivedPhysics(s);
    var cd :=
      if s.dragCoefficient.None? && ShapeChosen(s.geometryType) then
        (if s.geometryType.value in DEFAULT_CD then Some(DEFAULT_CD[s.geometryType.value]) else None)
      else s.dragCoefficient;
    var u := if s.geometryType.Some? && s.geometryType.value in CD_UNCERTAINTY then CD_UNCERTAINTY[s.geometryType.value] else 0.10;
    s.(calculatedArea := d.area, calculatedVolume := d.volume, calculatedDensity := d.density,
       dragCoefficient := cd, cdUncertainty := Some(u))
  }

  /** The geometry's dimensions in the validation schema: a radius becomes a
      diameter (`diameter_m`, or `base_diameter_m` for a blunt cone) and
      lengths gain the `_m` suffix; only entered dimensions are mapped. */
  function SchemaDims(g: Option<string>, dims: map<string, real>): (r: Obj)
    ensures forall k :: k in r ==> r[k].Num?
    ensures g == Some("sphere") && "radius" in dims ==> r == map["diameter_m" := Num(2.0 * dims["radius"])]
    ensures g.None? || g.value !in DEFAULT_CD ==> r == map[]
  {
    var m: Obj := map[];
    if g == Some("sphere") then
      if "radius" in dims then m["diameter_m" := Num(dims["radius"] * 2.0)] else m
    else if g == Some("cylinder") || g == Some("capsule") then
      var m := if "radius" in dims then m["diameter_m" := Num(dims["radius"] * 2.0)] else m;
      if "length" in dims then m["length_m" := Num(dims["length"])] else m
    else if g == Some("box") then
      var m := if "length" in dims then m["length_m" := Num(dims["length"])] else m;
      var m := if "width" in dims then m["width_m" := Num(dims["width"])] else m;
      if "height" in dims then m["height_m" := Num(dims["height"])] else m
    else if g == Some("blunt_cone") then
      var m := if "radius" in dims then m["base_diameter_m" := Num(dims["radius"] * 2.0)] else m;
      if "length" in dims then m["length_m" := Num(dims["length"])] else m
    else m
  }

  /** The ballistic coefficient m / (Cd * A), when all three are non-zero. */
  function BallisticCoefficient(mass: Option<real>, area: Option<real>, cd: Option<real>): (r: Option<real>)
    ensures r.Some? <==> Given(mass) && Given(area) && Given(cd)
    ensures r.Some? ==> r.value * (cd.value * area.value) == mass.value
  {
    if Given(mass) && Given(area) && Given(cd) then
      NonZeroProduct(cd.value, area.value);
      Some(mass.value / (cd.value * area.value))
    else None
  }

  lemma NonZeroProduct(a: real, b: real)
    requires a != 0.0 && b != 0.0
    ensures a * b != 0.0
  {
  }

  /** `get_payload_config`: the configuration the builder exports. The
      catalogue entry supplies name and category ("Custom Payload" and
      "Custom" when none is selected). */
  function PayloadConfig(s: BuilderState): (cfg: Obj)
    ensures cfg.Keys == {"name", "category", "mass", "reference_area", "drag_coefficient", "cd_source",
                         "max_safe_impact_speed", "ballistic_coefficient", "geometry"}
    ensures cfg["name"] == Text(if GetArchetype(s.selectedIndex).Some? then GetArchetype(s.selectedIndex).value.name else "Custom Payload")
    ensures cfg["category"] == Text(if GetArchetype(s.selectedIndex).Some? then GetArchetype(s.selectedIndex).value.category else "Custom")
    ensures cfg["mass"] == OptNum(s.mass) && cfg["reference_area"] == OptNum(s.calculatedArea)
    ensures cfg["drag_coefficient"] == OptNum(s.dragCoefficient) && cfg["cd_source"] == Text(s.cdSource)
    ensures cfg["ballistic_coefficient"] == OptNum(BallisticCoefficient(s.mass, s.calculatedArea, s.dragCoefficient))
    ensures cfg["geometry"] == Dict(map["type" := (if s.geometryType.Some? then Text(s.geometryType.value) else Null),
                                        "dimensions" := Dict(SchemaDims(s.geometryType, s.dims))])
  {
    var p := GetArchetype(s.selectedIndex);
    map[
      "name" := Text(if p.Some? then p.value.name else "Custom Payload"),
      "category" := Text(if p.Some? then p.value.category else "Custom"),
      "mass" := OptNum(s.mass),
      "reference_area" := OptNum(s.calculatedArea),
      "drag_coefficient" := OptNum(s.dragCoefficient),
      "cd_source" := Text(s.cdSource),
      "max_safe_impact_speed" := OptNum(s.maxSafeImpactSpeed),
      "ballistic_coefficient" := OptNum(BallisticCoefficient(s.mass, s.calculatedArea, s.dragCoefficient)),
      "geometry" := Dict(map["type" := (if s.geometryType.Some? then Text(s.geometryType.value) else Null),
                             "dimensions" := Dict(SchemaDims(s.geometryType, s.dims))])]
  }

  /** The index of the first saved configuration named `name`. */
  function FirstNamed(data: seq<Obj>, name: Value): (r: Option<nat>)
    ensures r.Some? ==> (r.value < |data| && Get(data[r.value], "name", Null) == name &&
      forall j :: 0 <= j < r.value ==> Get(data[j], "name", Null) != name)
    ensures r.None? ==> forall j :: 0 <= j < |data| ==> Get(data[j], "name", Null) != name
  {
    if data == [] then None
    else if Get(data[0], "name", Null) == name then Some(0)
    else
      match FirstNamed(data[1..], name)
      case None => None
      case Some(i) => Some(i + 1)
  }

  /** The saved list after saving `cfg`: the first configuration with the
      same name is replaced, or `cfg` is appended. */
  function Upsert(data: seq<Obj>, cfg: Obj): (r: seq<Obj>)
    requires "name" in cfg
    ensures FirstNamed(data, cfg["name"]).None? ==> r == data + [cfg]
    ensures FirstNamed(data, cfg["name"]).Some? ==>
      |r| == |data| && r[FirstNamed(data, cfg["name"]).value] == cfg &&
      forall j :: 0 <= j < |data| && j != FirstNamed(data, cfg["name"]).value ==> r[j] == data[j]
  {
    match FirstNamed(data, cfg["name"])
    case None => data + [cfg]
    case Some(i) => data[i := cfg]
  }

  /** Saving the same configuration twice leaves the list as one save did. */
  lemma {:induction false} UpsertIdempotent(data: seq<Obj>, cfg: Obj)
    requires "name" in cfg
    ensures Upsert(Upsert(data, cfg), cfg) == Upsert(data, cfg)
  {
    var once := Upsert(data, cfg);
    var i := FirstNamed(data, cfg["name"]);
    var k := if i.Some? then i.value else |data|;
    assert once[k] == cfg && Get(once[k], "name", Null) == cfg["name"];
    assert forall j :: 0 <= j < k ==> once[j] == data[j];
    assert FirstNamed(once, cfg["name"]) == Some(k);
  }

  /** Every suggested drag coefficient lies in the interval the
      aerodynamics validation allows for its geometry. */
  lemma SuggestedCdValidates(g: string)
    requires g in DEFAULT_CD
    ensures GeometryValidation.ValidateAerodynamics(g, DEFAULT_CD[g]) == Ok(true)
  {
  }

  /** Entering every dimension a geometry needs, none negative, exports
      dimensions that pass the geometry validation. */
  lemma EnteredDimsValidate(g: string, dims: map<string, real>)
    requires g in DEFAULT_CD
    requires forall k :: k in UiDims(g) ==> k in dims && dims[k] >= 0.0
    ensures GeometryValidation.ValidateGeometry(g, Dict(SchemaDims(Some(g), dims))).Ok?
  {
    RequiredKeysExported(g, dims);
    ExportedDimsNonNegative(g, dims);
  }

  /** Every key the validation requires is exported once the builder's
      dimensions for the geometry are entered. */
  lemma RequiredKeysExported(g: string, dims: map<string, real>)
    requires g in DEFAULT_CD
    requires forall k :: k in UiDims(g) ==> k in dims
    ensures GeometryValidation.RequiredKeys(g).Some?
    ensures forall k :: k in GeometryValidation.RequiredKeys(g).value ==> k in SchemaDims(Some(g), dims)
  {
    var m := SchemaDims(Some(g), dims);
    var required := GeometryValidation.RequiredKeys(g).value;
    if g == "sphere" {
      assert required == ["diameter_m"] && "diameter_m" in m;
    } else if g == "cylinder" || g == "capsule" {
      assert required == ["length_m", "diameter_m"] && "length_m" in m && "diameter_m" in m;
    } else if g == "box" {
      assert required == ["length_m", "width_m", "height_m"] && "length_m" in m && "width_m" in m && "height_m" in m;
    } else {
      assert required == ["length_m", "base_diameter_m"] && "length_m" in m && "base_diameter_m" in m;
    }
  }

  /** Non-negative entries export non-negative dimensions. */
  lemma ExportedDimsNonNegative(g: string, dims: map<string, real>)
    requires forall k :: k in UiDims(g) ==> k in dims && dims[k] >= 0.0
    ensures forall k :: k in SchemaDims(Some(g), dims) ==> SchemaDims(Some(g), dims)[k].n >= 0.0
  {
  }

  class PayloadLibraryTab {
    var state: BuilderState

    /** `__init__`: the initial builder state. */
    constructor ()
      ensures state == INITIAL
    {
      state := INITIAL;
    }

    /** `_sync_state_from_archetype`, one key at a time. */
    method SyncStateFromArchetype(index: int)
      modifies this
      ensures state == Synced(old(state), index)
    {
      state := state.(selectedIndex := index);
      state := state.(mass := None);
      state := state.(geometryType := None);
      state := state.(dims := map[]);
      state := state.(dragCoefficient := None);
      state := state.(calculatedArea := None);
      state := state.(cdUncertainty := None);
      state := state.(cdIsManual := false);
      state := state.(cdSource := "Literature");
      state := state.(maxSafeImpactSpeed := None);
    }

    /** `_update_calculations`, one key at a time; the display refresh is a
        no-op here. */
    method UpdateCalculations()
      modifies this
      ensures state == Updated(old(state))
    {
      var d := DerivedPhysics(state);
      state := state.(calculatedArea := d.area);
      state := state.(calculatedVolume := d.volume);
      state := state.(calculatedDensity := d.density);
      var g := state.geometryType;
      if state.dragCoefficient.None? && ShapeChosen(g) {
        state := state.(dragCoefficient := if g.value in DEFAULT_CD then Some(DEFAULT_CD[g.value]) else None);
      }
      var u := 0.10;
      if g.Some? && g.value in CD_UNCERTAINTY {
        u := CD_UNCERTAINTY[g.value];
      }
      state := state.(cdUncertainty := Some(u));
    }

    /** The list update of `_save_config`: nothing is written when the mass
        is falsy; otherwise the list read from the file (`data`) with the
        current configuration saved into it. */
    method SaveConfig(data: seq<Obj>) returns (written: Option<seq<Obj>>)
      ensures !Truthy(PayloadConfig(state)["mass"]) ==> written.None?
      ensures Truthy(PayloadConfig(state)["mass"]) ==> written == Some(Upsert(data, PayloadConfig(state)))
    {
      var cfg := PayloadConfig(state);
      if !Truthy(cfg["mass"]) {
        return None;
      }
      written := Some(Upsert(data, cfg));
    }
  }

  /** Choosing a catalogue entry clears the derived values: until a
      geometry is chosen again nothing is derived or suggested, the
      uncertainty is the default and no ballistic coefficient is exported. */
  lemma SyncClearsDerivedValues(s: BuilderState, index: int)
    ensures var u := Updated(Synced(s, index));
      u.calculatedArea.None? && u.calculatedVolume.None? && u.calculatedDensity.None? &&
      u.dragCoefficient.None? && u.cdUncertainty == Some(0.10) &&
      PayloadConfig(u)["ballistic_coefficient"] == Null
  {
  }

  /** The builder flow of the unit test: select the first entry, then enter
      a 10 kg sphere of radius 0.1. */
  lemma BuilderFlow()
    ensures var sphere := Updated(Synced(INITIAL, 0).(mass := Some(10.0), geometryType := Some("sphere"), dims := map["radius" := 0.1]));
      sphere.calculatedArea == Some(PI_APPROX * 0.1 * 0.1) && sphere.dragCoefficient == Some(0.47) &&
      PayloadConfig(sphere)["mass"] == Num(10.0) && PayloadConfig(sphere)["cd_source"] == Text("Literature") &&
      PayloadConfig(sphere)["geometry"] == Dict(map["type" := Text("sphere"), "dimensions" := Dict(map["diameter_m" := Num(0.2)])])
  {
    var picked := Synced(INITIAL, 0).(mass := Some(10.0), geometryType := Some("sphere"), dims := map["radius" := 0.1]);
    SphereAreaIsCrossSection(picked.dims, 0.1);
    var sphere := Updated(picked);
    assert sphere.calculatedArea == Some(PI_APPROX * 0.1 * 0.1);
    assert SchemaDims(Some("sphere"), picked.dims) == map["diameter_m" := Num(0.2)];
  }

  /** The unit test's second step, from any state: switching to a
      1 x 0.5 x 0.5 box with the drag coefficient cleared derives the 0.5
      square metre face and suggests the box's drag coefficient. */
  lemma SwitchToBox(s: BuilderState)
    ensures var box := Updated(s.(geometryType := Some("box"), dims := map["length" := 1.0, "width" := 0.5, "height" := 0.5], dragCoefficient := None));
      box.calculatedArea == Some(0.5) && box.dragCoefficient == Some(1.15)
  {
    var boxed := s.(geometryType := Some("box"), dims := map["length" := 1.0, "width" := 0.5, "height" := 0.5], dragCoefficient := None);
    HalfMetreBox();
    assert DerivedPhysics(boxed).area == Some(0.5);
  }
}
