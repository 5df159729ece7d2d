/** Flight-log replay: CSV and JSON logs turned into UAV state snapshots in
    time order. The file contents are parameters (a CSV header and rows, a
    decoded JSON value); `float()` on text is the parameter `parse`. */
module LogReplay {
  import opened Builtins
  import opened Exceptions
  import opened Strings
  import opened UavState
  import StableSort

  /** What `float(s)` makes of a string: a value, or None where it raises ValueError. */
  type TextParser = string -> Option<real>

  /** `float(v)` for a cell or a JSON value. */
  function ParseFloat(v: Value, parse: TextParser): (r: Result<real, Exception>)
    ensures v.Text? && parse(v.s).Some? ==> r == Ok(parse(v.s).value)
    ensures v.Text? && parse(v.s).None? ==> r == Err(ValueError)
    ensures !v.Text? ==> r == ToFloat(v)
    ensures r.Err? ==> r.error == ValueError || r.error == TypeError
  {
    if v.Text? then (if parse(v.s).Some? then Ok(parse(v.s).value) else Err(ValueError))
    else ToFloat(v)
  }

  /** A caught conversion: the value, or None for the errors the loaders skip. */
  function Caught<T>(r: Result<T, Exception>): (o: Option<T>)
    ensures o.Some? <==> r.Ok?
    ensures r.Ok? ==> o == Some(r.value)
  {
    if r.Ok? then Some(r.value) else None
  }

  // ---------------------------------------------------------------------
  // CSV header detection
  // ---------------------------------------------------------------------

  const TIME_CANDIDATES: seq<string> := ["time_s", "time", "t", "timestamp"]
  const XYZ: seq<string> := ["x", "y", "z"]
  const POSITION_PREFIXES: seq<string> := ["", "position_"]
  const POS_PREFIXES: seq<string> := ["", "pos_"]
  /** The velocity prefixes as the source lists them; "" makes bare x, y, z match. */
  const VELOCITY_PREFIXES_AS_WRITTEN: seq<string> := ["", "velocity_", "v"]
  /** The velocity prefixes the model uses. */
  const VELOCITY_PREFIXES: seq<string> := ["velocity_", "v"]

  /** Header field `f` names column `name`: equal after trimming, ignoring case. */
  predicate Names(f: string, name: string) {
    NormLower(f) == Lower(name)
  }

  predicate IsTimeField(f: string) {
    NormLower(f) in TIME_CANDIDATES
  }

  /** The index of the first of `fields[from..]` that satisfies `p`. */
  function FirstWhere(fields: seq<string>, p: string -> bool, from: nat): (r: Option<nat>)
    requires from <= |fields|
    ensures r.Some? ==> from <= r.value < |fields| && p(fields[r.value])
    ensures r.Some? ==> forall j :: from <= j < r.value ==> !p(fields[j])
    ensures r.None? ==> forall j :: from <= j < |fields| ==> !p(fields[j])
    decreases |fields| - from
  {
    if from == |fields| then None
    else if p(fields[from]) then Some(from)
    else FirstWhere(fields, p, from + 1)
  }

  /** `next((f for f in fields if f.strip().lower() == name), None)` */
  function FirstNamed(fields: seq<string>, name: string): (r: Option<string>)
    ensures r.Some? ==> r.value in fields && Names(r.value, name)
    ensures r.None? <==> forall j :: 0 <= j < |fields| ==> !Names(fields[j], name)
  {
    match FirstWhere(fields, f => Names(f, name), 0)
    case Some(i) => Some(fields[i])
    case None => None
  }

  /** The field at `i` is the first naming `name`. */
  lemma FirstNamedAt(fields: seq<string>, name: string, i: nat)
    requires i < |fields| && Names(fields[i], name)
    requires forall j :: 0 <= j < i ==> !Names(fields[j], name)
    ensures FirstNamed(fields, name) == Some(fields[i])
  {
    var w := FirstWhere(fields, f => Names(f, name), 0);
    assert w == Some(i);
  }

  /** For one suffix: the first field named by the first prefix (in order)
      that names any field together with that suffix. */
  function Pick(fields: seq<string>, prefixes: seq<string>, suffix: string): (r: Option<string>)
    ensures r.Some? ==> r.value in fields
  {
    if prefixes == [] then None
    else match FirstNamed(fields, prefixes[0] + suffix)
      case Some(f) => Some(f)
      case None => Pick(fields, prefixes[1..], suffix)
  }

  /** Pick finds nothing exactly when no prefix names a field with the suffix. */
  lemma {:induction false} PickNone(fields: seq<string>, prefixes: seq<string>, suffix: string)
    ensures Pick(fields, prefixes, suffix).None? <==>
      (forall k :: 0 <= k < |prefixes| ==> FirstNamed(fields, prefixes[k] + suffix).None?)
  {
    if prefixes != [] && FirstNamed(fields, prefixes[0] + suffix).None? {
      PickNone(fields, prefixes[1..], suffix);
      assert forall k :: 1 <= k < |prefixes| ==> prefixes[1..][k - 1] == prefixes[k];
    }
  }

  /** The first present result of `g` over `xs`, in order. */
  function FirstSome(xs: seq<string>, g: string -> Option<string>): (r: Option<string>)
    ensures r.Some? ==> exists k :: 0 <= k < |xs| && g(xs[k]) == r
  {
    if xs == [] then None
    else if g(xs[0]).Some? then g(xs[0])
    else FirstSome(xs[1..], g)
  }

  /** A present FirstSome comes from the first element giving a result. */
  lemma {:induction false} FirstSomeIsFirst(xs: seq<string>, g: string -> Option<string>)
    requires FirstSome(xs, g).Some?
    ensures exists k :: 0 <= k < |xs| && FirstSome(xs, g) == g(xs[k]) && forall j :: 0 <= j < k ==> g(xs[j]).None?
  {
    if g(xs[0]).None? {
      var rest := xs[1..];
      FirstSomeIsFirst(rest, g);
      var k :| 0 <= k < |rest| && FirstSome(rest, g) == g(rest[k]) && forall j :: 0 <= j < k ==> g(rest[j]).None?;
      assert xs[k + 1] == rest[k];
      forall j | 0 <= j < k + 1
        ensures g(xs[j]).None?
      {
        if j > 0 {
          assert xs[j] == rest[j - 1];
        }
      }
    }
  }

  /** Pick is FirstSome over the prefixes of the field each one names. */
  lemma {:induction false} PickIsFirstSome(fields: seq<string>, prefixes: seq<string>, suffix: string)
    ensures Pick(fields, prefixes, suffix) == FirstSome(prefixes, p => FirstNamed(fields, p + suffix))
  {
    if prefixes != [] {
      PickIsFirstSome(fields, prefixes[1..], suffix);
    }
  }

  /** A picked field is the first field named by the first prefix, in
      order, that names any field with the suffix. */
  lemma PickIsFirstMatch(fields: seq<string>, prefixes: seq<string>, suffix: string)
    requires Pick(fields, prefixes, suffix).Some?
    ensures exists k :: 0 <= k < |prefixes| && Pick(fields, prefixes, suffix) == FirstNamed(fields, prefixes[k] + suffix) && forall j :: 0 <= j < k ==> FirstNamed(fields, prefixes[j] + suffix).None?
  {
    var g := p => FirstNamed(fields, p + suffix);
    PickIsFirstSome(fields, prefixes, suffix);
    FirstSomeIsFirst(prefixes, g);
  }

  /** What one suffix appends to `out`. */
  function Piece(o: Option<string>): (r: seq<string>)
    ensures |r| <= 1
  {
    if o.Some? then [o.value] else []
  }

  /** What `out` holds after the suffixes in `suffixes`: one field per
      suffix for which some prefix matched. */
  function Picked(fields: seq<string>, prefixes: seq<string>, suffixes: seq<string>): (r: seq<string>)
    ensures |r| <= |suffixes|
  {
    if suffixes == [] then []
    else
      Picked(fields, prefixes, suffixes[..|suffixes| - 1]) + Piece(Pick(fields, prefixes, suffixes[|suffixes| - 1]))
  }

  /** `find_xyz(prefixes, suffixes)`: the picked fields when there are three. */
  function Xyz(fields: seq<string>, prefixes: seq<string>, suffixes: seq<string>): (r: Option<seq<string>>)
    ensures r.Some? ==> |r.value| == 3
  {
    var out := Picked(fields, prefixes, suffixes);
    if |out| == 3 then Some(out) else None
  }

  /** One pass of `find_xyz`'s middle loop: for suffix `s`, try the prefixes
      in order, scanning the fields for each, and stop at the first match. */
  method PickField(fields: seq<string>, prefixes: seq<string>, s: string) returns (r: Option<string>)
    ensures r == Pick(fields, prefixes, s)
  {
    var pi := 0;
    while pi < |prefixes|
      invariant 0 <= pi <= |prefixes|
      invariant Pick(fields, prefixes[pi..], s) == Pick(fields, prefixes, s)
    {
      var cand := prefixes[pi] + s;
      var fi := 0;
      while fi < |fields|
        invariant 0 <= fi <= |fields|
        invariant forall j :: 0 <= j < fi ==> !Names(fields[j], cand)
      {
        if NormLower(fields[fi]) == Lower(cand) {
          break;
        }
        fi := fi + 1;
      }
      assert prefixes[pi..][0] == prefixes[pi];
      if fi < |fields| {
        FirstNamedAt(fields, cand, fi);
        return Some(fields[fi]);
      }
      assert prefixes[pi..][1..] == prefixes[pi + 1..];
      pi := pi + 1;
    }
    return None;
  }

  /** `find_xyz`: for each suffix, the first field matched by the first
      prefix that matches any; the result only if all three suffixes matched. */
  method FindXyz(fields: seq<string>, prefixes: seq<string>, suffixes: seq<string>) returns (r: Option<seq<string>>)
    ensures r == Xyz(fields, prefixes, suffixes)
  {
    var out: seq<string> := [];
    for si := 0 to |suffixes|
      invariant out == Picked(fields, prefixes, suffixes[..si])
    {
      assert suffixes[..si + 1][..si] == suffixes[..si];
      var f := PickField(fields, prefixes, suffixes[si]);
      if f.Some? {
        out := out + [f.value];
      } else {
        assert out + [] == out;
      }
    }
    assert suffixes[..|suffixes|] == suffixes;
    r := if |out| == 3 then Some(out) else None;
  }

  /** Three column names, one per axis. */
  datatype Keys3 = Keys3(x: string, y: string, z: string)

  function AsKeys(s: seq<string>): (k: Keys3)
    requires |s| == 3
    ensures [k.x, k.y, k.z] == s
  {
    Keys3(s[0], s[1], s[2])
  }

  /** The detected columns: time, position (None when not found) and velocity. */
  datatype Columns = Columns(timeKey: string, posKeys: Option<Keys3>, velKeys: Keys3)

  /** The position search: x/y/z or position_*, then pos_*, then bare x, y,
      z, then the second to fourth columns of a header of at least six. */
  function PositionKeys(fields: seq<string>): (r: Option<Keys3>)
    ensures r.Some? ==> r.value.x in fields && r.value.y in fields && r.value.z in fields
    ensures r.None? ==> |fields| < 6
  {
    var a := Xyz(fields, POSITION_PREFIXES, XYZ);
    if a.Some? then
      PickedInFields(fields, POSITION_PREFIXES, XYZ);
      Some(AsKeys(a.value))
    else
      var b := Xyz(fields, POS_PREFIXES, XYZ);
      if b.Some? then
        PickedInFields(fields, POS_PREFIXES, XYZ);
        Some(AsKeys(b.value))
      else
        var px, py, pz := FirstNamed(fields, "x"), FirstNamed(fields, "y"), FirstNamed(fields, "z");
        if px.Some? && py.Some? && pz.Some? then Some(Keys3(px.value, py.value, pz.value))
        else if |fields| >= 6 then Some(Keys3(fields[1], fields[2], fields[3]))
        else None
  }

  /** The velocity search: `prefixes` with x, y, z; then bare vx, vy, vz;
      then the fifth to seventh columns of a header of at least seven; else
      the literal names "vx", "vy", "vz". */
  function VelocityKeys(fields: seq<string>, prefixes: seq<string>): (r: Keys3)
    ensures |fields| >= 7 ==> r.x in fields && r.y in fields && r.z in fields
    ensures r.x !in fields ==> r == Keys3("vx", "vy", "vz")
  {
    var a := Xyz(fields, prefixes, XYZ);
    if a.Some? then
      PickedInFields(fields, prefixes, XYZ);
      AsKeys(a.value)
    else
      var vx, vy, vz := FirstNamed(fields, "vx"), FirstNamed(fields, "vy"), FirstNamed(fields, "vz");
      if vx.Some? && vy.Some? && vz.Some? then Keys3(vx.value, vy.value, vz.value)
      else if |fields| >= 7 then Keys3(fields[4], fields[5], fields[6])
      else Keys3("vx", "vy", "vz")
  }

  lemma {:induction false} PickedInFields(fields: seq<string>, prefixes: seq<string>, suffixes: seq<string>)
    ensures forall i :: 0 <= i < |Picked(fields, prefixes, suffixes)| ==> Picked(fields, prefixes, suffixes)[i] in fields
  {
    if suffixes != [] {
      PickedInFields(fields, prefixes, suffixes[..|suffixes| - 1]);
    }
  }

  /** `_detect_csv_columns` with the velocity search over `velPrefixes`.
      The only caller returns before detection when the header is empty. */
  function ColumnsFor(fields: seq<string>, velPrefixes: seq<string>): (r: Result<Columns, Exception>)
    requires fields != []
    ensures r.Err? <==> forall j :: 0 <= j < |fields| ==> !IsTimeField(fields[j])
    ensures r.Err? ==> r.error == ValueError
    ensures r.Ok? ==> exists i :: 0 <= i < |fields| && r.value.timeKey == fields[i] && IsTimeField(fields[i]) && forall j :: 0 <= j < i ==> !IsTimeField(fields[j])
  {
    match FirstWhere(fields, IsTimeField, 0)
    case None => Err(ValueError)
    case Some(i) => Ok(Columns(fields[i], PositionKeys(fields), VelocityKeys(fields, velPrefixes)))
  }

  /** `_detect_csv_columns`, with the position and velocity searches run by `FindXyz`. */
  method DetectCsvColumns(fields: seq<string>) returns (r: Result<Columns, Exception>)
    requires fields != []
    ensures r == ColumnsFor(fields, VELOCITY_PREFIXES)
  {
    var t := FirstWhere(fields, IsTimeField, 0);
    if t.None? {
      return Err(ValueError);
    }
    var pos := FindXyz(fields, POSITION_PREFIXES, XYZ);
    if pos.None? {
      pos := FindXyz(fields, POS_PREFIXES, XYZ);
    }
    var posKeys: Option<Keys3>;
    if pos.Some? {
      posKeys := Some(AsKeys(pos.value));
    } else {
      var px, py, pz := FirstNamed(fields, "x"), FirstNamed(fields, "y"), FirstNamed(fields, "z");
      if px.Some? && py.Some? && pz.Some? {
        posKeys := Some(Keys3(px.value, py.value, pz.value));
      } else if |fields| >= 6 {
        posKeys := Some(Keys3(fields[1], fields[2], fields[3]));
      } else {
        posKeys := None;
      }
    }
    var vel := FindXyz(fields, VELOCITY_PREFIXES, XYZ);
    var velKeys: Keys3;
    if vel.Some? {
      velKeys := AsKeys(vel.value);
    } else {
      var vx, vy, vz := FirstNamed(fields, "vx"), FirstNamed(fields, "vy"), FirstNamed(fields, "vz");
      if vx.Some? && vy.Some? && vz.Some? {
        velKeys := Keys3(vx.value, vy.value, vz.value);
      } else if |fields| >= 7 {
        velKeys := Keys3(fields[4], fields[5], fields[6]);
      } else {
        velKeys := Keys3("vx", "vy", "vz");
      }
    }
    r := Ok(Columns(fields[t.value], posKeys, velKeys));
  }

  /** When each of three suffixes has a pick, `find_xyz` returns the three picks. */
  lemma XyzAllPicked(fields: seq<string>, prefixes: seq<string>, a: string, b: string, c: string)
    requires Pick(fields, prefixes, a).Some? && Pick(fields, prefixes, b).Some? && Pick(fields, prefixes, c).Some?
    ensures Xyz(fields, prefixes, [a, b, c]) == Some([Pick(fields, prefixes, a).value,
      Pick(fields, prefixes, b).value, Pick(fields, prefixes, c).value])
  {
    var pa, pb, pc := Pick(fields, prefixes, a).value, Pick(fields, prefixes, b).value, Pick(fields, prefixes, c).value;
    assert [a, b, c][..2] == [a, b] && [a, b][..1] == [a] && [a][..0] == [];
    assert Picked(fields, prefixes, [a]) == [pa];
    assert Picked(fields, prefixes, [a, b]) == [pa, pb];
    assert Picked(fields, prefixes, [a, b, c]) == [pa, pb, pc];
  }

  /** With "" as the first prefix, a bare-named field is picked for its axis. */
  lemma PickBare(fields: seq<string>, prefixes: seq<string>, axis: string)
    requires prefixes != [] && prefixes[0] == ""
    requires FirstNamed(fields, axis).Some?
    ensures Pick(fields, prefixes, axis) == FirstNamed(fields, axis)
  {
    assert prefixes[0] + axis == axis;
  }

  /** As written, a header with bare x, y and z columns gets those same
      columns for velocity: the "" prefix matches before "velocity_" and "v"
      are tried, so velocity is read from the position columns. */
  lemma VelocityColumnsAsWritten(fields: seq<string>)
    requires FirstNamed(fields, "x").Some? && FirstNamed(fields, "y").Some? && FirstNamed(fields, "z").Some?
    ensures VelocityKeys(fields, VELOCITY_PREFIXES_AS_WRITTEN) == PositionKeys(fields).value
    ensures PositionKeys(fields).value == Keys3(FirstNamed(fields, "x").value, FirstNamed(fields, "y").value, FirstNamed(fields, "z").value)
  {
    assert XYZ == ["x", "y", "z"];
    PickBare(fields, VELOCITY_PREFIXES_AS_WRITTEN, "x");
    PickBare(fields, VELOCITY_PREFIXES_AS_WRITTEN, "y");
    PickBare(fields, VELOCITY_PREFIXES_AS_WRITTEN, "z");
    XyzAllPicked(fields, VELOCITY_PREFIXES_AS_WRITTEN, "x", "y", "z");
    PickBare(fields, POSITION_PREFIXES, "x");
    PickBare(fields, POSITION_PREFIXES, "y");
    PickBare(fields, POSITION_PREFIXES, "z");
    XyzAllPicked(fields, POSITION_PREFIXES, "x", "y", "z");
  }

  /** The header has a velocity column for `axis`: "velocity_<axis>" or "v<axis>". */
  predicate HasVelocityColumn(fields: seq<string>, axis: string) {
    FirstNamed(fields, "velocity_" + axis).Some? || FirstNamed(fields, "v" + axis).Some?
  }

  /** Field `f` is a velocity column for `axis`. */
  predicate NamesVelocity(f: string, axis: string) {
    Names(f, "velocity_" + axis) || Names(f, "v" + axis)
  }

  /** The velocity picked for one axis by the model's prefixes is a velocity
      column for that axis, never the bare axis column. */
  lemma PickedVelocityAxis(fields: seq<string>, axis: string)
    requires |axis| == 1
    requires HasVelocityColumn(fields, axis)
    ensures Pick(fields, VELOCITY_PREFIXES, axis).Some?
    ensures NamesVelocity(Pick(fields, VELOCITY_PREFIXES, axis).value, axis)
    ensures !Names(Pick(fields, VELOCITY_PREFIXES, axis).value, axis)
  {
    var rest := VELOCITY_PREFIXES[1..];
    assert rest == ["v"] && rest[1..] == [];
    if FirstNamed(fields, "velocity_" + axis).None? {
      assert Pick(fields, rest, axis) == FirstNamed(fields, "v" + axis);
    }
  }

  /** With the model's prefixes, a header with a velocity column for every
      axis gets those columns for velocity, never a bare x, y or z. */
  lemma CorrectedVelocityColumns(fields: seq<string>)
    requires HasVelocityColumn(fields, "x") && HasVelocityColumn(fields, "y") && HasVelocityColumn(fields, "z")
    ensures var k := VelocityKeys(fields, VELOCITY_PREFIXES);
      NamesVelocity(k.x, "x") && !Names(k.x, "x")
      && NamesVelocity(k.y, "y") && !Names(k.y, "y")
      && NamesVelocity(k.z, "z") && !Names(k.z, "z")
  {
    assert XYZ == ["x", "y", "z"];
    PickedVelocityAxis(fields, "x");
    PickedVelocityAxis(fields, "y");
    PickedVelocityAxis(fields, "z");
    XyzAllPicked(fields, VELOCITY_PREFIXES, "x", "y", "z");
    var px, py, pz := Pick(fields, VELOCITY_PREFIXES, "x").value, Pick(fields, VELOCITY_PREFIXES, "y").value,
      Pick(fields, VELOCITY_PREFIXES, "z").value;
    assert VelocityKeys(fields, VELOCITY_PREFIXES) == AsKeys([px, py, pz]) == Keys3(px, py, pz);
  }

  // ---------------------------------------------------------------------
  // CSV rows
  // ---------------------------------------------------------------------

  /** A row as `csv.DictReader` yields it: header name to cell text, None
      for a cell missing from a short line. */
  type Row = map<string, Value>

  /** `float(row.get(key, 0))` */
  function CellFloat(row: Row, key: string, parse: TextParser): (r: Result<real, Exception>)
    ensures key !in row ==> r == Ok(0.0)
    ensures key in row ==> r == ParseFloat(row[key], parse)
  {
    ParseFloat(Get(row, key, Num(0.0)), parse)
  }

  /** The three cells named by `k`, as floats, converted x, y, z in order. */
  function Cells(row: Row, k: Keys3, parse: TextParser): (r: Result<Vec3, Exception>)
    ensures r.Ok? <==> CellFloat(row, k.x, parse).Ok? && CellFloat(row, k.y, parse).Ok? && CellFloat(row, k.z, parse).Ok?
    ensures r.Ok? ==> (CellFloat(row, k.x, parse) == Ok(r.value.x) && CellFloat(row, k.y, parse) == Ok(r.value.y)
      && CellFloat(row, k.z, parse) == Ok(r.value.z))
    ensures r.Err? ==> r.error == ValueError || r.error == TypeError
  {
    Vec3Of(CellFloat(row, k.x, parse), CellFloat(row, k.y, parse), CellFloat(row, k.z, parse))
  }

  /** `_parse_row_csv`: the time cell, then the position cells, then the
      velocity cells, each as a float; a missing position key set raises
      TypeError (indexing None). */
  function ParseRowCsv(row: Row, cols: Columns, parse: TextParser): (r: Result<UAVStateSnapshot, Exception>)
    ensures r.Ok? <==> (CellFloat(row, cols.timeKey, parse).Ok? && cols.posKeys.Some?
      && Cells(row, cols.posKeys.value, parse).Ok? && Cells(row, cols.velKeys, parse).Ok?)
    ensures r.Ok? ==> (CellFloat(row, cols.timeKey, parse) == Ok(r.value.timeS)
      && Cells(row, cols.posKeys.value, parse) == Ok(r.value.position)
      && Cells(row, cols.velKeys, parse) == Ok(r.value.velocity))
    ensures r.Err? ==> r.error == ValueError || r.error == TypeError
  {
    match CellFloat(row, cols.timeKey, parse)
    case Err(e) => Err(e)
    case Ok(t) =>
      if cols.posKeys.None? then Err(TypeError)
      else
        match Cells(row, cols.posKeys.value, parse)
        case Err(e) => Err(e)
        case Ok(p) =>
          match Cells(row, cols.velKeys, parse)
          case Err(e) => Err(e)
          case Ok(v) => Ok(UAVStateSnapshot(t, p, v))
  }

  /** A row that has none of the detected columns reads as time 0 at the
      origin, at rest: every missing field defaults to 0. */
  lemma MissingCellsReadZero(row: Row, cols: Columns, parse: TextParser)
    requires cols.posKeys.Some?
    requires cols.timeKey !in row
    requires cols.posKeys.value.x !in row && cols.posKeys.value.y !in row && cols.posKeys.value.z !in row
    requires cols.velKeys.x !in row && cols.velKeys.y !in row && cols.velKeys.z !in row
    ensures ParseRowCsv(row, cols, parse) == Ok(UAVStateSnapshot(0.0, Vec3(0.0, 0.0, 0.0), Vec3(0.0, 0.0, 0.0)))
  {
  }

  /** `time_from_row`: the time cell as a float, 0.0 when it does not convert. */
  function TimeFromRow(row: Row, timeKey: string, parse: TextParser): (t: real)
    ensures CellFloat(row, timeKey, parse).Ok? ==> t == CellFloat(row, timeKey, parse).value
    ensures CellFloat(row, timeKey, parse).Err? ==> t == 0.0
  {
    match CellFloat(row, timeKey, parse)
    case Ok(x) => x
    case Err(_) => 0.0
  }

  function RowTime(cols: Columns, parse: TextParser): Row -> real {
    row => TimeFromRow(row, cols.timeKey, parse)
  }

  function RowSnapshot(cols: Columns, parse: TextParser): Row -> Option<UAVStateSnapshot> {
    row => Caught(ParseRowCsv(row, cols, parse))
  }

  // ---------------------------------------------------------------------
  // Keeping the items that convert, in order
  // ---------------------------------------------------------------------

  function TimeOf(s: UAVStateSnapshot): real {
    s.timeS
  }

  /** The snapshots of the items that convert, in item order (the
      `try ... except: continue` loops of both loaders). */
  function Kept<T>(items: seq<T>, f: T -> Option<UAVStateSnapshot>): (r: seq<UAVStateSnapshot>)
    ensures |r| <= |items|
  {
    if items == [] then []
    else Kept(items[..|items| - 1], f) + (match f(items[|items| - 1]) case Some(s) => [s] case None => [])
  }

  lemma {:induction false} KeptBounded<T>(items: seq<T>, key: T -> real, f: T -> Option<UAVStateSnapshot>, b: real)
    requires forall x :: f(x).Some? ==> f(x).value.timeS == key(x)
    requires forall i :: 0 <= i < |items| ==> key(items[i]) <= b
    ensures forall i :: 0 <= i < |Kept(items, f)| ==> Kept(items, f)[i].timeS <= b
  {
    if items != [] {
      KeptBounded(items[..|items| - 1], key, f, b);
    }
  }

  /** Items sorted by a key that is each converted item's time give
      snapshots in time order. */
  lemma {:induction false} KeptSorted<T>(items: seq<T>, key: T -> real, f: T -> Option<UAVStateSnapshot>)
    requires StableSort.Sorted(items, key)
    requires forall x :: f(x).Some? ==> f(x).value.timeS == key(x)
    ensures StableSort.Sorted(Kept(items, f), TimeOf)
  {
    if items != [] {
      var init := items[..|items| - 1];
      var last := items[|items| - 1];
      KeptSorted(init, key, f);
      KeptBounded(init, key, f, key(last));
    }
  }

  /** Exactly the items that convert contribute: a snapshot is kept iff
      some item converts to it. */
  lemma {:induction false} KeptExactly<T>(items: seq<T>, f: T -> Option<UAVStateSnapshot>, s: UAVStateSnapshot)
    ensures s in Kept(items, f) <==> exists i :: 0 <= i < |items| && f(items[i]) == Some(s)
  {
    if items != [] {
      var init, last := items[..|items| - 1], items[|items| - 1];
      var piece := match f(last) case Some(x) => [x] case None => [];
      assert Kept(items, f) == Kept(init, f) + piece;
      KeptExactly(init, f, s);
      if s in Kept(items, f) && s in Kept(init, f) {
        var i :| 0 <= i < |init| && f(init[i]) == Some(s);
        assert items[i] == init[i];
      }
      if i :| 0 <= i < |items| && f(items[i]) == Some(s) {
        if i < |init| {
          assert items[i] == init[i];
        } else {
          assert s in piece;
        }
      }
    }
  }

  /** The loop both loaders run: convert each item in turn, appending the
      snapshot when the conversion succeeds and skipping it when it raises. */
  method Collect<T>(items: seq<T>, convert: T -> Option<UAVStateSnapshot>) returns (out: seq<UAVStateSnapshot>)
    ensures out == Kept(items, convert)
  {
    out := [];
    for i := 0 to |items|
      invariant out == Kept(items[..i], convert)
    {
      assert items[..i + 1][..i] == items[..i];
      var s := convert(items[i]);
      if s.Some? {
        out := out + [s.value];
      } else {
        assert out + [] == out;
      }
    }
    assert items[..|items|] == items;
  }

  // ---------------------------------------------------------------------
  // CSV loader
  // ---------------------------------------------------------------------

  /** A CSV file as `csv.DictReader` reads it: the header (empty for a file
      without one) and the rows. */
  datatype CsvTable = CsvTable(fieldnames: seq<string>, rows: seq<Row>)

  /** `load_replay_csv`: nothing for a header-less file; otherwise detect
      the columns, sort the rows stably by time and keep the rows that parse. */
  function ReplayCsv(table: CsvTable, parse: TextParser): (r: Result<seq<UAVStateSnapshot>, Exception>)
    ensures table.fieldnames == [] ==> r == Ok([])
    ensures r.Err? <==> table.fieldnames != [] && ColumnsFor(table.fieldnames, VELOCITY_PREFIXES).Err?
    ensures r.Ok? ==> |r.value| <= |table.rows|
  {
    if table.fieldnames == [] then Ok([])
    else match ColumnsFor(table.fieldnames, VELOCITY_PREFIXES)
      case Err(e) => Err(e)
      case Ok(cols) =>
        Ok(Kept(StableSort.Sort(table.rows, RowTime(cols, parse)), RowSnapshot(cols, parse)))
  }

  /** The CSV loader yields snapshots in non-decreasing time order. */
  lemma CsvReplayInTimeOrder(table: CsvTable, parse: TextParser)
    ensures ReplayCsv(table, parse).Ok? ==> StableSort.Sorted(ReplayCsv(table, parse).value, TimeOf)
  {
    if table.fieldnames != [] && ColumnsFor(table.fieldnames, VELOCITY_PREFIXES).Ok? {
      var cols := ColumnsFor(table.fieldnames, VELOCITY_PREFIXES).value;
      StableSort.SortSorted(table.rows, RowTime(cols, parse));
      KeptSorted(StableSort.Sort(table.rows, RowTime(cols, parse)), RowTime(cols, parse), RowSnapshot(cols, parse));
    }
  }

  /** Reordering the items does not change which snapshots are kept. */
  lemma KeptOfPermutation<T>(a: seq<T>, b: seq<T>, f: T -> Option<UAVStateSnapshot>, s: UAVStateSnapshot)
    requires multiset(a) == multiset(b)
    ensures s in Kept(a, f) <==> s in Kept(b, f)
  {
    KeptExactly(a, f, s);
    KeptExactly(b, f, s);
    if s in Kept(a, f) {
      var i :| 0 <= i < |a| && f(a[i]) == Some(s);
      assert a[i] in multiset(b);
      var j :| 0 <= j < |b| && b[j] == a[i];
    }
    if s in Kept(b, f) {
      var j :| 0 <= j < |b| && f(b[j]) == Some(s);
      assert b[j] in multiset(a);
      var i :| 0 <= i < |a| && a[i] == b[j];
    }
  }

  /** Sorting first does not change which snapshots are kept. */
  lemma KeptAfterSort<T>(items: seq<T>, key: T -> real, f: T -> Option<UAVStateSnapshot>, s: UAVStateSnapshot)
    ensures s in Kept(StableSort.Sort(items, key), f) <==> exists i :: 0 <= i < |items| && f(items[i]) == Some(s)
  {
    StableSort.SortPermutes(items, key);
    KeptOfPermutation(StableSort.Sort(items, key), items, f, s);
    KeptExactly(items, f, s);
  }

  /** The CSV loader skips exactly the rows that do not parse: a snapshot is
      yielded iff some row parses to it. */
  lemma CsvReplayKeepsParsedRows(table: CsvTable, parse: TextParser, cols: Columns, s: UAVStateSnapshot)
    requires table.fieldnames != [] && ColumnsFor(table.fieldnames, VELOCITY_PREFIXES) == Ok(cols)
    ensures ReplayCsv(table, parse).Ok?
    ensures s in ReplayCsv(table, parse).value <==>
      exists i :: 0 <= i < |table.rows| && ParseRowCsv(table.rows[i], cols, parse) == Ok(s)
  {
    var f := RowSnapshot(cols, parse);
    assert ReplayCsv(table, parse) == Ok(Kept(StableSort.Sort(table.rows, RowTime(cols, parse)), f));
    KeptAfterSort(table.rows, RowTime(cols, parse), f, s);
    assert forall i :: 0 <= i < |table.rows| ==> (f(table.rows[i]) == Some(s) <==> ParseRowCsv(table.rows[i], cols, parse) == Ok(s));
  }

  /** `load_replay_csv`: detect the columns, sort the rows by time, then
      convert them one by one, skipping the ones that raise. */
  method LoadReplayCsv(table: CsvTable, parse: TextParser) returns (r: Result<seq<UAVStateSnapshot>, Exception>)
    ensures r == ReplayCsv(table, parse)
  {
    if table.fieldnames == [] {
      return Ok([]);
    }
    var cols := DetectCsvColumns(table.fieldnames);
    if cols.Err? {
      return Err(cols.error);
    }
    var rows := StableSort.Sort(table.rows, RowTime(cols.value, parse));
    var out := Collect(rows, RowSnapshot(cols.value, parse));
    return Ok(out);
  }

  // ---------------------------------------------------------------------
  // JSON loader
  // ---------------------------------------------------------------------

  /** The frame list of a decoded JSON log: a list as is; for an object,
      its "frames", else its "samples", else a list holding the object
      itself; any other value has no `.get` and raises AttributeError. */
  function Frames(data: Value): (r: Result<Value, Exception>)
    ensures data.List? ==> r == Ok(data)
    ensures data.Dict? && "frames" in data.entries ==> r == Ok(data.entries["frames"])
    ensures data.Dict? && "frames" !in data.entries && "samples" in data.entries ==> r == Ok(data.entries["samples"])
    ensures data.Dict? && "frames" !in data.entries && "samples" !in data.entries ==> r == Ok(List([data]))
    ensures r.Err? <==> !data.List? && !data.Dict?
    ensures r.Err? ==> r.error == AttributeError
  {
    match data
    case List(_) => Ok(data)
    case Dict(m) => Ok(Get(m, "frames", Get(m, "samples", List([data]))))
    case _ => Err(AttributeError)
  }

  /** `for item in v` over a truthy frame value: a list gives its items, a
      string its characters and a dictionary its keys (strings, which no
      frame conversion accepts, so they are not listed); a number or a
      boolean is not iterable and raises TypeError. */
  function Elements(v: Value): (r: Result<seq<Value>, Exception>)
    ensures v.List? ==> r == Ok(v.items)
    ensures r.Ok? ==> forall i :: 0 <= i < |r.value| ==> r.value[i].Dict? ==> v.List?
    ensures r.Err? <==> v.Num? || v.Bool? || v.Null?
    ensures r.Err? ==> r.error == TypeError
  {
    match v
    case List(xs) => Ok(xs)
    case Text(s) => Ok(seq(|s|, i requires 0 <= i < |s| => Text([s[i]])))
    case Dict(_) => Ok([])
    case _ => Err(TypeError)
  }

  /** `(float(d.get(kx, dx)), float(d.get(ky, dy)), float(d.get(kz, dz)))` */
  function Floats3(d: Obj, kx: string, ky: string, kz: string, dx: Value, dy: Value, dz: Value, parse: TextParser): (r: Result<Vec3, Exception>)
    ensures r.Ok? ==> (ParseFloat(Get(d, kx, dx), parse) == Ok(r.value.x) && ParseFloat(Get(d, ky, dy), parse) == Ok(r.value.y)
      && ParseFloat(Get(d, kz, dz), parse) == Ok(r.value.z))
    ensures r.Err? ==> r.error == ValueError || r.error == TypeError
  {
    Vec3Of(ParseFloat(Get(d, kx, dx), parse), ParseFloat(Get(d, ky, dy), parse), ParseFloat(Get(d, kz, dz), parse))
  }

  /** The frame's position: from its "position" object when that is one,
      otherwise from the frame's own x, y, z; z falls back to "altitude". */
  function FramePosition(obj: Obj, parse: TextParser): (r: Result<Vec3, Exception>)
    ensures r.Err? ==> r.error == ValueError || r.error == TypeError
  {
    var p := Get(obj, "position", Dict(obj));
    var d := if p.Dict? then p.entries else obj;
    Floats3(d, "x", "y", "z", Num(0.0), Num(0.0), Get(d, "altitude", Num(0.0)), parse)
  }

  /** The frame's velocity read from `v`: from an object's vx, vy, vz (each
      falling back to x, y, z), otherwise from the frame's own vx, vy, vz. */
  function FrameVelocity(obj: Obj, v: Value, parse: TextParser): (r: Result<Vec3, Exception>)
    ensures r.Err? ==> r.error == ValueError || r.error == TypeError
  {
    if v.Dict? then
      Floats3(v.entries, "vx", "vy", "vz", Get(v.entries, "x", Num(0.0)), Get(v.entries, "y", Num(0.0)),
        Get(v.entries, "z", Num(0.0)), parse)
    else Floats3(obj, "vx", "vy", "vz", Num(0.0), Num(0.0), Num(0.0), parse)
  }

  /** A frame's snapshot, with velocity read from `v`: time ("time_s", else
      "time", else 0), then position, then velocity. */
  function FrameWith(obj: Obj, v: Value, parse: TextParser): (r: Result<UAVStateSnapshot, Exception>)
    ensures r.Ok? ==> (ParseFloat(Get(obj, "time_s", Get(obj, "time", Num(0.0))), parse) == Ok(r.value.timeS)
      && FramePosition(obj, parse) == Ok(r.value.position) && FrameVelocity(obj, v, parse) == Ok(r.value.velocity))
    ensures r.Err? ==> r.error == ValueError || r.error == TypeError
  {
    match ParseFloat(Get(obj, "time_s", Get(obj, "time", Num(0.0))), parse)
    case Err(e) => Err(e)
    case Ok(t) =>
      match FramePosition(obj, parse)
      case Err(e) => Err(e)
      case Ok(p) =>
        match FrameVelocity(obj, v, parse)
        case Err(e) => Err(e)
        case Ok(vel) => Ok(UAVStateSnapshot(t, p, vel))
  }

  /** `to_snapshot` as written: `v = obj.get("velocity", obj)`, so a frame
      without "velocity" reads its velocity from itself, falling back to x,
      y, z when vx, vy, vz are absent. */
  function ToSnapshotAsWritten(obj: Obj, parse: TextParser): (r: Result<UAVStateSnapshot, Exception>)
    ensures r.Err? ==> r.error == ValueError || r.error == TypeError
    ensures r.Ok? ==> (ParseFloat(Get(obj, "time_s", Get(obj, "time", Num(0.0))), parse) == Ok(r.value.timeS)
      && FramePosition(obj, parse) == Ok(r.value.position))
    ensures r.Ok? && "velocity" !in obj ==>
      Floats3(obj, "vx", "vy", "vz", Get(obj, "x", Num(0.0)), Get(obj, "y", Num(0.0)), Get(obj, "z", Num(0.0)), parse)
        == Ok(r.value.velocity)
    ensures r.Ok? && "velocity" in obj && obj["velocity"].Dict? ==>
      var v := obj["velocity"].entries;
      Floats3(v, "vx", "vy", "vz", Get(v, "x", Num(0.0)), Get(v, "y", Num(0.0)), Get(v, "z", Num(0.0)), parse)
        == Ok(r.value.velocity)
  {
    FrameWith(obj, Get(obj, "velocity", Dict(obj)), parse)
  }

  /** `to_snapshot` as the model reads it: `v = obj.get("velocity")`, so a
      frame without "velocity" reads vx, vy, vz from itself, 0 when absent. */
  function ToSnapshot(obj: Obj, parse: TextParser): (r: Result<UAVStateSnapshot, Exception>)
    ensures r.Err? ==> r.error == ValueError || r.error == TypeError
    ensures r.Ok? ==> (ParseFloat(Get(obj, "time_s", Get(obj, "time", Num(0.0))), parse) == Ok(r.value.timeS)
      && FramePosition(obj, parse) == Ok(r.value.position))
    ensures r.Ok? && ("velocity" !in obj || !obj["velocity"].Dict?) ==>
      Floats3(obj, "vx", "vy", "vz", Num(0.0), Num(0.0), Num(0.0), parse) == Ok(r.value.velocity)
    ensures r.Ok? && "velocity" in obj && obj["velocity"].Dict? ==>
      var v := obj["velocity"].entries;
      Floats3(v, "vx", "vy", "vz", Get(v, "x", Num(0.0)), Get(v, "y", Num(0.0)), Get(v, "z", Num(0.0)), parse)
        == Ok(r.value.velocity)
  {
    FrameWith(obj, Get(obj, "velocity", Null), parse)
  }

  /** The two readings differ only for a frame without "velocity": with one,
      or with all of vx, vy, vz present, they give the same snapshot. */
  lemma ReadingsAgree(obj: Obj, parse: TextParser)
    requires "velocity" in obj || ("vx" in obj && "vy" in obj && "vz" in obj)
    ensures ToSnapshotAsWritten(obj, parse) == ToSnapshot(obj, parse)
  {
    if "velocity" !in obj {
      assert FrameVelocity(obj, Dict(obj), parse) == FrameVelocity(obj, Null, parse);
    }
  }

  /** As written, a flat frame with no velocity and no vx, vy, vz keys (and no
      "position" or "altitude") replays with its velocity equal to its
      position. */
  lemma FlatFrameVelocityAsWritten(obj: Obj, parse: TextParser)
    requires "velocity" !in obj && "position" !in obj && "altitude" !in obj
    requires "vx" !in obj && "vy" !in obj && "vz" !in obj
    ensures ToSnapshotAsWritten(obj, parse).Ok? ==>
      ToSnapshotAsWritten(obj, parse).value.velocity == ToSnapshotAsWritten(obj, parse).value.position
  {
  }

  /** The frame {"time_s": 1, "x": 5} replays, as written, moving at 5 m/s
      along x; the model gives it zero velocity. */
  lemma FlatFrameExample(parse: TextParser)
    ensures ToSnapshotAsWritten(map["time_s" := Num(1.0), "x" := Num(5.0)], parse)
      == Ok(UAVStateSnapshot(1.0, Vec3(5.0, 0.0, 0.0), Vec3(5.0, 0.0, 0.0)))
    ensures ToSnapshot(map["time_s" := Num(1.0), "x" := Num(5.0)], parse)
      == Ok(UAVStateSnapshot(1.0, Vec3(5.0, 0.0, 0.0), Vec3(0.0, 0.0, 0.0)))
  {
    var obj := map["time_s" := Num(1.0), "x" := Num(5.0)];
    assert "velocity" !in obj && "position" !in obj && "altitude" !in obj && "time" !in obj;
    assert "vx" !in obj && "vy" !in obj && "vz" !in obj && "y" !in obj && "z" !in obj;
  }

  /** In the model a frame without "velocity" reads its velocity from vx,
      vy, vz, each 0 when absent; never from x, y, z. */
  lemma FlatFrameVelocity(obj: Obj, parse: TextParser)
    requires "velocity" !in obj
    ensures ToSnapshot(obj, parse).Ok? ==> (
      var vel := ToSnapshot(obj, parse).value.velocity;
      CellFloat(obj, "vx", parse) == Ok(vel.x) && CellFloat(obj, "vy", parse) == Ok(vel.y)
      && CellFloat(obj, "vz", parse) == Ok(vel.z))
  {
  }

  /** Where a frame has a "velocity" entry, the model and the code as
      written agree. */
  lemma NestedVelocityUnchanged(obj: Obj, parse: TextParser)
    requires "velocity" in obj
    ensures ToSnapshot(obj, parse) == ToSnapshotAsWritten(obj, parse)
  {
  }

  /** One JSON item's snapshot: objects convert (None when that raises),
      anything else is dropped. */
  function FrameSnapshot(parse: TextParser): (f: Value -> Option<UAVStateSnapshot>)
    ensures forall item :: f(item).Some? <==> item.Dict? && ToSnapshot(item.entries, parse).Ok?
    ensures forall item :: f(item).Some? ==> ToSnapshot(item.entries, parse) == Ok(f(item).value)
  {
    (item: Value) => if item.Dict? then Caught(ToSnapshot(item.entries, parse)) else None
  }

  /** The `snapshots` list before sorting: the converted frames in file order. */
  function JsonFrames(data: Value, parse: TextParser): (r: Result<seq<UAVStateSnapshot>, Exception>)
    ensures Frames(data).Err? ==> r == Err(AttributeError)
    ensures Frames(data).Ok? && !Truthy(Frames(data).value) ==> r == Ok([])
  {
    match Frames(data)
    case Err(e) => Err(e)
    case Ok(items) =>
      if !Truthy(items) then Ok([])
      else match Elements(items)
        case Err(e) => Err(e)
        case Ok(xs) => Ok(Kept(xs, FrameSnapshot(parse)))
  }

  /** `load_replay_json`: the converted frames, stably sorted by time. */
  function ReplayJson(data: Value, parse: TextParser): (r: Result<seq<UAVStateSnapshot>, Exception>)
    ensures r.Ok? <==> JsonFrames(data, parse).Ok?
    ensures r.Ok? ==> multiset(r.value) == multiset(JsonFrames(data, parse).value)
  {
    match JsonFrames(data, parse)
    case Err(e) => Err(e)
    case Ok(frames) =>
      StableSort.SortPermutes(frames, TimeOf);
      Ok(StableSort.Sort(frames, TimeOf))
  }

  /** The JSON loader yields its frames in time order, and frames with the
      same time in file order. */
  lemma JsonReplayInTimeOrder(data: Value, parse: TextParser, t: real)
    requires ReplayJson(data, parse).Ok?
    ensures StableSort.Sorted(ReplayJson(data, parse).value, TimeOf)
    ensures StableSort.WithKey(ReplayJson(data, parse).value, TimeOf, t)
      == StableSort.WithKey(JsonFrames(data, parse).value, TimeOf, t)
  {
    StableSort.SortSorted(JsonFrames(data, parse).value, TimeOf);
    StableSort.SortStable(JsonFrames(data, parse).value, TimeOf, t);
  }

  /** Only object items yield snapshots: a list of non-objects replays as nothing. */
  lemma NonObjectItemsDropped(items: seq<Value>, parse: TextParser)
    requires forall i :: 0 <= i < |items| ==> !items[i].Dict?
    ensures ReplayJson(List(items), parse) == Ok([])
  {
    KeptNone(items, FrameSnapshot(parse));
  }

  lemma {:induction false} KeptNone<T>(items: seq<T>, f: T -> Option<UAVStateSnapshot>)
    requires forall i :: 0 <= i < |items| ==> f(items[i]).None?
    ensures Kept(items, f) == []
  {
    if items != [] {
      KeptNone(items[..|items| - 1], f);
    }
  }

  /** `load_replay_json`: pick the frame list, convert the items one by one
      skipping those that raise, then sort the snapshots by time. */
  method LoadReplayJson(data: Value, parse: TextParser) returns (r: Result<seq<UAVStateSnapshot>, Exception>)
    ensures r == ReplayJson(data, parse)
  {
    var frames := Frames(data);
    if frames.Err? {
      return Err(frames.error);
    }
    if !Truthy(frames.value) {
      return Ok([]);
    }
    var items := Elements(frames.value);
    if items.Err? {
      return Err(items.error);
    }
    var snapshots := Collect(items.value, FrameSnapshot(parse));
    snapshots := StableSort.Sort(snapshots, TimeOf);
    return Ok(snapshots);
  }

  // ---------------------------------------------------------------------
  // Dispatch
  // ---------------------------------------------------------------------

  /** The index of the last `c` in `s`, -1 when there is none. */
  function LastIndexOf(s: string, c: char): (r: int)
    ensures -1 <= r < |s|
    ensures r >= 0 ==> s[r] == c
    ensures forall i :: r < i < |s| ==> s[i] != c
  {
    if s == [] then -1
    else if s[|s| - 1] == c then |s| - 1
    else LastIndexOf(s[..|s| - 1], c)
  }

  /** `os.path.splitext(p)[1]` on a POSIX path: from the last dot of the
      last path component, provided the component has a character other
      than a dot before it; otherwise "". */
  function Extension(p: string): (r: string)
    ensures r == [] || (r[0] == '.' && |r| <= |p| && r == p[|p| - |r|..])
    ensures forall i :: 0 <= i < |r| ==> r[i] != '/'
    ensures forall i :: 1 <= i < |r| ==> r[i] != '.'
  {
    var sep := LastIndexOf(p, '/');
    var dot := LastIndexOf(p, '.');
    if dot > sep && exists i :: sep + 1 <= i < dot && p[i] != '.' then p[dot..] else ""
  }

  /** A file whose name is a stem and ".json" (the stem not ending in a dot
      or a slash) has the extension ".json". */
  lemma JsonExtension(stem: string)
    requires stem != [] && stem[|stem| - 1] != '.' && stem[|stem| - 1] != '/'
    ensures Extension(stem + ".json") == ".json"
  {
    var p := stem + ".json";
    var sep := LastIndexOf(p, '/');
    var dot := LastIndexOf(p, '.');
    assert p[|stem|] == '.' && p[|stem| - 1] == stem[|stem| - 1];
    assert dot == |stem|;
    assert sep < |stem| - 1;
    assert p[dot..] == ".json";
  }

  /** A hidden file named ".json" has no extension, so it is read as CSV. */
  lemma HiddenJsonHasNoExtension()
    ensures Extension("logs/.json") == ""
  {
    var p := "logs/.json";
    assert p[4] == '/' && p[5] == '.';
    assert LastIndexOf(p, '/') == 4;
    assert LastIndexOf(p, '.') == 5;
  }

  /** `load_replay`: FileNotFoundError when there is no such file; a ".json"
      extension (in any case) goes to the JSON loader, anything else to the
      CSV loader. The file's contents as each loader would read them are
      parameters. */
  method LoadReplay(path: string, isFile: bool, csv: CsvTable, json: Value, parse: TextParser)
    returns (r: Result<seq<UAVStateSnapshot>, Exception>)
    ensures !isFile ==> r == Err(FileNotFoundError)
    ensures isFile && Lower(Extension(path)) == ".json" ==> r == ReplayJson(json, parse)
    ensures isFile && Lower(Extension(path)) != ".json" ==> r == ReplayCsv(csv, parse)
  {
    if !isFile {
      return Err(FileNotFoundError);
    }
    var ext := Lower(Extension(path));
    if ext == ".json" {
      r := LoadReplayJson(json, parse);
    } else {
      r := LoadReplayCsv(csv, parse);
    }
  }
}
