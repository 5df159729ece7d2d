/** Live telemetry ingest: raw updates (dictionaries, or snapshots already
    parsed) become UAV state snapshots; a stream of them is filtered of the
    updates that fail to parse. */
module TelemetryIngest {
  import opened Builtins
  import opened Exceptions
  import opened UavState

  /** A raw update: a snapshot passed through, or any Python value. */
  datatype Raw = Parsed(snapshot: UAVStateSnapshot) | Data(value: Value)

  /** `float(d.get(k, default))` */
  function FloatGet(d: Obj, k: string, default: Value): (r: Result<real, Exception>)
    ensures k in d ==> r == ToFloat(d[k])
    ensures k !in d ==> r == ToFloat(default)
  {
    ToFloat(Get(d, k, default))
  }

  /** The time of an update: `time_s` when present and not None, else
      `time_boot_ms` / 1000 when present and not None, else 0. */
  function ParseTime(raw: Obj): (r: Result<real, Exception>)
    ensures Get(raw, "time_s", Null) != Null ==> r == ToFloat(raw["time_s"])
    ensures Get(raw, "time_s", Null) == Null && Get(raw, "time_boot_ms", Null) != Null ==>
      (r.Ok? <==> ToFloat(raw["time_boot_ms"]).Ok?) && (r.Ok? ==> r.value * 1000.0 == ToFloat(raw["time_boot_ms"]).value)
    ensures Get(raw, "time_s", Null) == Null && Get(raw, "time_boot_ms", Null) == Null ==> r == Ok(0.0)
  {
    var t := Get(raw, "time_s", Null);
    if t == Null then
      var ms := Get(raw, "time_boot_ms", Null);
      if ms == Null then Ok(0.0)
      else
        match ToFloat(ms)
        case Err(e) => Err(e)
        case Ok(x) => Ok(x / 1000.0)
    else ToFloat(t)
  }

  /** A vector read from keys `kx`, `ky`, `kz` of `d`, each defaulting to
      0; a missing `kz` falls back to key `zAlt` when one is given. */
  function FromKeys(d: Obj, kx: string, ky: string, kz: string, zAlt: Option<string>): (r: Result<Vec3, Exception>)
    ensures r.Ok? ==> kx !in d ==> r.value.x == 0.0
    ensures r.Ok? && kz !in d && zAlt.Some? && zAlt.value in d ==> ToFloat(d[zAlt.value]) == Ok(r.value.z)
  {
    var zDefault := if zAlt.Some? then Get(d, zAlt.value, Num(0.0)) else Num(0.0);
    Vec3Of(FloatGet(d, kx, Num(0.0)), FloatGet(d, ky, Num(0.0)), FloatGet(d, kz, zDefault))
  }

  /** The three-way rule for a vector: a list of at least three under
      `key`; else a dictionary under `key`; else flat keys of the update. */
  function ReadVector(raw: Obj, key: string, kx: string, ky: string, kz: string, zAlt: Option<string>): (r: Result<Vec3, Exception>)
    ensures var p := Get(raw, key, Null);
      p.List? && |p.items| >= 3 ==> r == ElementsOf(p)
    ensures var p := Get(raw, key, Null);
      p.Dict? ==> r == FromKeys(p.entries, kx, ky, kz, zAlt)
    ensures var p := Get(raw, key, Null);
      !(p.List? && |p.items| >= 3) && !p.Dict? ==> r == FromKeys(raw, kx, ky, kz, zAlt)
  {
    var p := Get(raw, key, Null);
    if p.List? && |p.items| >= 3 then ElementsOf(p)
    else if p.Dict? then FromKeys(p.entries, kx, ky, kz, zAlt)
    else FromKeys(raw, kx, ky, kz, zAlt)
  }

  /** `parse_uav_state`: a snapshot is returned unchanged, anything other
      than a dictionary raises TypeError, and a dictionary yields time,
      position (z falling back to altitude) and velocity. The range
      warnings only print and do not change the result. */
  function ParseUavState(raw: Raw): (r: Result<UAVStateSnapshot, Exception>)
    ensures raw.Parsed? ==> r == Ok(raw.snapshot)
    ensures raw.Data? && !raw.value.Dict? ==> r == Err(TypeError)
    ensures r.Err? ==> r.error == TypeError || r.error == ValueError
    ensures raw.Data? && raw.value.Dict? && r.Ok? ==>
      ParseTime(raw.value.entries) == Ok(r.value.timeS) &&
      ReadVector(raw.value.entries, "position", "x", "y", "z", Some("altitude")) == Ok(r.value.position) &&
      ReadVector(raw.value.entries, "velocity", "vx", "vy", "vz", None) == Ok(r.value.velocity)
  {
    match raw
    case Parsed(s) => Ok(s)
    case Data(v) =>
      if !v.Dict? then Err(TypeError)
      else
        match ParseTime(v.entries)
        case Err(e) => Err(e)
        case Ok(t) =>
          match ReadVector(v.entries, "position", "x", "y", "z", Some("altitude"))
          case Err(e) => Err(e)
          case Ok(pos) =>
            match ReadVector(v.entries, "velocity", "vx", "vy", "vz", None)
            case Err(e) => Err(e)
            case Ok(vel) => Ok(UAVStateSnapshot(t, pos, vel))
  }

  /** A snapshot written out as the dictionary the ingest expects. */
  function AsDict(s: UAVStateSnapshot): Obj {
    map["time_s" := Num(s.timeS),
        "position" := List([Num(s.position.x), Num(s.position.y), Num(s.position.z)]),
        "velocity" := List([Num(s.velocity.x), Num(s.velocity.y), Num(s.velocity.z)])]
  }

  /** Parsing the dictionary form of a snapshot gives the snapshot back. */
  lemma ParseAsDictRoundTrip(s: UAVStateSnapshot)
    ensures ParseUavState(Data(Dict(AsDict(s)))) == Ok(s)
  {
    var d := AsDict(s);
    assert ParseTime(d) == Ok(s.timeS);
    assert ElementsOf(d["position"]) == Ok(s.position);
    assert ElementsOf(d["velocity"]) == Ok(s.velocity);
  }

  /** A flat update with boot time in milliseconds and an altitude instead
      of z: time in seconds, z from the altitude, missing fields 0. */
  lemma FlatUpdateWithAltitude(ms: real, x: real, alt: real, vz: real)
    ensures ParseUavState(Data(Dict(map["time_boot_ms" := Num(ms), "x" := Num(x), "altitude" := Num(alt), "vz" := Num(vz)]))) ==
      Ok(UAVStateSnapshot(ms / 1000.0, Vec3(x, 0.0, alt), Vec3(0.0, 0.0, vz)))
  {
    var d := map["time_boot_ms" := Num(ms), "x" := Num(x), "altitude" := Num(alt), "vz" := Num(vz)];
    assert ParseTime(d) == Ok(ms / 1000.0);
    assert ReadVector(d, "position", "x", "y", "z", Some("altitude")) == Ok(Vec3(x, 0.0, alt));
    assert ReadVector(d, "velocity", "vx", "vy", "vz", None) == Ok(Vec3(0.0, 0.0, vz));
  }

  /** The exceptions `ingest_stream` skips an update for. */
  predicate Caught(e: Exception) {
    e == TypeError || e == ValueError || e == KeyError
  }

  /** A parser as `ingest_stream` calls it: a snapshot, None, or an exception. */
  type Parser = Raw -> Result<Option<UAVStateSnapshot>, Exception>

  /** `parse_uav_state` in the shape of a parser (it never returns None). */
  function DefaultParse(raw: Raw): (r: Result<Option<UAVStateSnapshot>, Exception>)
    ensures r.Ok? <==> ParseUavState(raw).Ok?
    ensures r.Ok? ==> r.value == Some(ParseUavState(raw).value)
    ensures r.Err? ==> Caught(r.error)
  {
    match ParseUavState(raw)
    case Ok(s) => Ok(Some(s))
    case Err(e) => Err(e)
  }

  /** `ingest_stream`: what the generator yields, in input order, and the
      exception that ends it early if a parse raises one it does not catch.
      Updates whose parse raises TypeError, ValueError or KeyError, or
      returns None, are skipped. */
  function IngestStream(raws: seq<Raw>, parse: Parser): (r: (seq<UAVStateSnapshot>, Option<Exception>))
    ensures |r.0| <= |raws|
  {
    if raws == [] then ([], None)
    else
      var rest := IngestStream(raws[1..], parse);
      match parse(raws[0])
      case Err(e) => if Caught(e) then rest else ([], Some(e))
      case Ok(None) => rest
      case Ok(Some(s)) => ([s] + rest.0, rest.1)
  }

  /** Everything the stream yields is the parse of one of its updates. */
  lemma {:induction false} IngestYieldsParsedUpdates(raws: seq<Raw>, parse: Parser)
    ensures forall s :: s in IngestStream(raws, parse).0 ==> exists i :: 0 <= i < |raws| && parse(raws[i]) == Ok(Some(s))
  {
    if raws != [] {
      IngestYieldsParsedUpdates(raws[1..], parse);
      forall s | s in IngestStream(raws, parse).0
        ensures exists i :: 0 <= i < |raws| && parse(raws[i]) == Ok(Some(s))
      {
        if s !in IngestStream(raws[1..], parse).0 {
          assert parse(raws[0]) == Ok(Some(s));
        } else {
          var i :| 0 <= i < |raws[1..]| && parse(raws[1..][i]) == Ok(Some(s));
          assert raws[i + 1] == raws[1..][i];
        }
      }
    }
  }

  /** The stream ends early exactly when some parse raises an exception
      other than TypeError, ValueError or KeyError. */
  lemma {:induction false} IngestRaisesOnlyUncaught(raws: seq<Raw>, parse: Parser)
    ensures IngestStream(raws, parse).1.None? <==>
      forall i :: 0 <= i < |raws| ==> parse(raws[i]).Ok? || Caught(parse(raws[i]).error)
  {
    if raws != [] {
      IngestRaisesOnlyUncaught(raws[1..], parse);
      assert forall i :: 1 <= i < |raws| ==> raws[i] == raws[1..][i - 1];
    }
  }

  /** When every update parses to a snapshot, all of them are yielded, in order. */
  lemma {:induction false} IngestKeepsEveryParsedUpdate(raws: seq<Raw>, parse: Parser)
    requires forall i :: 0 <= i < |raws| ==> parse(raws[i]).Ok? && parse(raws[i]).value.Some?
    ensures IngestStream(raws, parse).1.None? && |IngestStream(raws, parse).0| == |raws|
    ensures forall i :: 0 <= i < |raws| ==> parse(raws[i]) == Ok(Some(IngestStream(raws, parse).0[i]))
  {
    if raws != [] {
      assert forall i :: 1 <= i < |raws| ==> raws[i] == raws[1..][i - 1];
      IngestKeepsEveryParsedUpdate(raws[1..], parse);
      var r := IngestStream(raws, parse);
      var rest := IngestStream(raws[1..], parse);
      assert r.0 == [parse(raws[0]).value.value] + rest.0;
      forall i | 1 <= i < |raws|
        ensures parse(raws[i]) == Ok(Some(r.0[i]))
      {
        assert r.0[i] == rest.0[i - 1];
      }
    }
  }

  /** The stream is processed item by item: ingesting `a + b` yields what
      ingesting `a` yields followed by what ingesting `b` yields. */
  lemma {:induction false} IngestConcat(a: seq<Raw>, b: seq<Raw>, parse: Parser)
    requires IngestStream(a, parse).1.None?
    ensures IngestStream(a + b, parse) == (IngestStream(a, parse).0 + IngestStream(b, parse).0, IngestStream(b, parse).1)
  {
    if a == [] {
      assert a + b == b;
      assert IngestStream(a, parse).0 == [];
      assert [] + IngestStream(b, parse).0 == IngestStream(b, parse).0;
    } else {
      var ab := a + b;
      assert ab[1..] == a[1..] + b;
      assert ab[0] == a[0];
      var tail := IngestStream(a[1..], parse);
      var whole := IngestStream(ab, parse);
      var rest := IngestStream(ab[1..], parse);
      match parse(a[0])
      case Err(e) =>
        assert Caught(e) && whole == rest && IngestStream(a, parse) == tail;
        IngestConcat(a[1..], b, parse);
      case Ok(None) =>
        assert whole == rest && IngestStream(a, parse) == tail;
        IngestConcat(a[1..], b, parse);
      case Ok(Some(x)) =>
        assert whole == ([x] + rest.0, rest.1);
        assert IngestStream(a, parse) == ([x] + tail.0, tail.1);
        IngestConcat(a[1..], b, parse);
        assert [x] + (tail.0 + IngestStream(b, parse).0) == ([x] + tail.0) + IngestStream(b, parse).0;
    }
  }

  /** With the default parser the stream never ends early, and passes
      parsed snapshots through unchanged. */
  lemma DefaultIngestNeverRaises(raws: seq<Raw>)
    ensures IngestStream(raws, DefaultParse).1.None?
    ensures (forall i :: 0 <= i < |raws| ==> raws[i].Parsed?) ==>
      |IngestStream(raws, DefaultParse).0| == |raws| &&
      forall i :: 0 <= i < |raws| ==> IngestStream(raws, DefaultParse).0[i] == raws[i].snapshot
  {
    IngestRaisesOnlyUncaught(raws, DefaultParse);
    if forall i :: 0 <= i < |raws| ==> raws[i].Parsed? {
      IngestKeepsEveryParsedUpdate(raws, DefaultParse);
    }
  }
}
