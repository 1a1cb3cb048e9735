/**
  Point records: how `get_points` turns query rows into a batch
  (uploader/uploader.py:92-107) and how `upload_data` marks a batch after a
  successful remote write (uploader/uploader.py:53-56).
 */
module Points {
  import opened Wrappers
  import opened Dicts
  import opened Values
  import opened Config

  /** One query row: a dict from column name (`time` and the selected fields) to value. */
  type Row = Dict<Value>

  /** The JSON body `influxdb-python` writes: measurement, tags, time and fields. */
  datatype Point = Point(measurement: string, tags: Dict<string>, time: Value, fields: Dict<Value>)

  const TIME := "time"
  const STATUS := "status"
  const MARKED := Float(1.0)

  // ----- batch construction -----

  /**
    One row as a point: the source's measurement and tag map, the row's
    `time`, and the row without its `time` column as fields. A row with no
    `time` column raises KeyError at `point['time']`.
   */
  function ToPoint(src: Source, row: Row): (r: Result<Point, Error>)
    ensures r.Err? <==> !HasKey(row, TIME)
    ensures r.Err? ==> r.error == KeyError(TIME)
    ensures r.Ok? ==> r.value.measurement == src.measurement && r.value.tags == src.tags
    ensures r.Ok? ==> Get(row, TIME) == Some(r.value.time)
    ensures r.Ok? ==> !HasKey(r.value.fields, TIME)
    ensures r.Ok? ==> forall k :: k != TIME ==> Get(r.value.fields, k) == Get(row, k)
    ensures r.Ok? ==> forall e :: e in r.value.fields ==> e in row
  {
    match Get(row, TIME)
    case None => Err(KeyError(TIME))
    case Some(t) => Ok(Point(src.measurement, src.tags, t, Remove(row, TIME)))
  }

  /** The batch of a series: one point per row, in row order, or the first row's KeyError. */
  function ToBatch(src: Source, rows: seq<Row>): (r: Result<seq<Point>, Error>)
    ensures r.Ok? <==> forall i :: 0 <= i < |rows| ==> HasKey(rows[i], TIME)
    ensures r.Ok? ==> |r.value| == |rows|
    ensures r.Ok? ==> forall i :: 0 <= i < |rows| ==> ToPoint(src, rows[i]) == Ok(r.value[i])
    ensures r.Err? ==> r.error == KeyError(TIME)
  {
    if |rows| == 0 then Ok([])
    else
      match ToPoint(src, rows[0])
      case Err(e) => Err(e)
      case Ok(p) =>
        match ToBatch(src, rows[1..])
        case Err(e) => Err(e)
        case Ok(ps) => Ok([p] + ps)
  }

  /** The append loop of uploader/uploader.py:92-107. */
  method BuildBatch(src: Source, rows: seq<Row>) returns (r: Result<seq<Point>, Error>)
    ensures r == ToBatch(src, rows)
  {
    var batch: seq<Point> := [];
    for i := 0 to |rows|
      invariant |batch| == i
      invariant forall j :: 0 <= j < i ==> ToPoint(src, rows[j]) == Ok(batch[j])
    {
      var point := ToPoint(src, rows[i]);
      if point.Err? {
        return Err(point.error);
      }
      batch := batch + [point.value];
    }
    assert ToBatch(src, rows).Ok?;
    assert ToBatch(src, rows).value == batch;
    return Ok(batch);
  }

  // ----- marking -----

  /** A field value after `float(...)`: present keys read as their float conversion. */
  function AsFloat(v: Option<Value>, parse: string -> Option<real>): Option<Value>
  {
    match v
    case None => None
    case Some(x) => if ToFloat(x, parse).Ok? then Some(Float(ToFloat(x, parse).value)) else None
  }

  /**
    The loop `for field in fields: fields[field] = float(fields[field])`:
    each value in turn replaced by its float conversion. It stops at the
    first value float() rejects, raising that error, with the values before
    it already converted and the rest untouched.
   */
  function Coerce(fields: Dict<Value>, parse: string -> Option<real>): (r: (Dict<Value>, Option<Error>))
    ensures |r.0| == |fields|
  {
    if |fields| == 0 then ([], None)
    else
      match ToFloat(fields[0].1, parse)
      case Err(e) => (fields, Some(e))
      case Ok(x) =>
        var rest := Coerce(fields[1..], parse);
        ([(fields[0].0, Float(x))] + rest.0, rest.1)
  }

  /**
    Coercion keeps the keys in their order. It completes exactly when every
    value converts, leaving each value as its float, and otherwise raises
    the error of a value float() rejects.
   */
  lemma {:induction false} CoerceSpec(fields: Dict<Value>, parse: string -> Option<real>)
    ensures forall i :: 0 <= i < |fields| ==> Coerce(fields, parse).0[i].0 == fields[i].0
    ensures Coerce(fields, parse).1.None? <==> forall i :: 0 <= i < |fields| ==> ToFloat(fields[i].1, parse).Ok?
    ensures Coerce(fields, parse).1.None? ==> forall i :: 0 <= i < |fields| ==>
      Coerce(fields, parse).0[i].1 == Float(ToFloat(fields[i].1, parse).value)
    ensures Coerce(fields, parse).1.Some? ==>
      exists i :: 0 <= i < |fields| && ToFloat(fields[i].1, parse) == Err(Coerce(fields, parse).1.value)
    decreases |fields|
  {
    if |fields| > 0 && ToFloat(fields[0].1, parse).Ok? {
      var tail := fields[1..];
      CoerceSpec(tail, parse);
      var c := Coerce(fields, parse);
      var rest := Coerce(tail, parse);
      assert c.0 == [(fields[0].0, Float(ToFloat(fields[0].1, parse).value))] + rest.0;
      assert c.1 == rest.1;
      assert forall i :: 1 <= i < |fields| ==> fields[i] == tail[i - 1] && c.0[i] == rest.0[i - 1];
      if c.1.Some? {
        var k :| 0 <= k < |tail| && ToFloat(tail[k].1, parse) == Err(rest.1.value);
        assert fields[k + 1] == tail[k];
      }
    }
  }

  /**
    One point of the marking loop: every field coerced to float, then
    `fields['status'] = 1.0`. On a conversion error the point keeps its
    partly converted fields and gets no status.
   */
  function MarkPoint(p: Point, parse: string -> Option<real>): (r: (Point, Option<Error>))
  {
    var c := Coerce(p.fields, parse);
    if c.1.Some? then (p.(fields := c.0), c.1)
    else (p.(fields := Put(c.0, STATUS, MARKED)), None)
  }

  /**
    The marking loop of uploader/uploader.py:53-56 over a whole batch, point
    by point: the batch it leaves behind and the error that stopped it, if any.
   */
  function MarkAll(batch: seq<Point>, parse: string -> Option<real>): (r: (seq<Point>, Option<Error>))
    ensures |r.0| == |batch|
  {
    if |batch| == 0 then ([], None)
    else
      var m := MarkPoint(batch[0], parse);
      if m.1.Some? then ([m.0] + batch[1..], m.1)
      else
        var rest := MarkAll(batch[1..], parse);
        ([m.0] + rest.0, rest.1)
  }

  /**
    Marking a batch succeeds exactly when every point converts, and then the
    batch holds each point's marked copy at its own position.
   */
  lemma {:induction false} MarkAllComplete(batch: seq<Point>, parse: string -> Option<real>)
    ensures MarkAll(batch, parse).1.None? <==>
      forall i :: 0 <= i < |batch| ==> MarkPoint(batch[i], parse).1.None?
    ensures MarkAll(batch, parse).1.None? ==>
      forall i :: 0 <= i < |batch| ==> MarkAll(batch, parse).0[i] == MarkPoint(batch[i], parse).0
    decreases |batch|
  {
    if |batch| > 0 {
      var tail := batch[1..];
      MarkAllComplete(tail, parse);
      var m := MarkPoint(batch[0], parse);
      if m.1.None? {
        var rest := MarkAll(tail, parse);
        assert MarkAll(batch, parse) == ([m.0] + rest.0, rest.1);
        forall i | 1 <= i < |batch| ensures batch[i] == tail[i - 1] { }
      }
    }
  }

  /** A dict lookup after coercion reads the float conversion of the original value. */
  lemma {:induction false} GetCoerced(fields: Dict<Value>, parse: string -> Option<real>, k: string)
    requires Coerce(fields, parse).1.None?
    ensures Get(Coerce(fields, parse).0, k) == AsFloat(Get(fields, k), parse)
    decreases |fields|
  {
    if |fields| > 0 {
      var c := Coerce(fields, parse).0;
      assert ToFloat(fields[0].1, parse).Ok?;
      assert c[1..] == Coerce(fields[1..], parse).0;
      GetCoerced(fields[1..], parse, k);
    }
  }

  /**
    What marking does to one point that converts: measurement, tags and time
    are kept, `status` reads 1.0, every other field reads the float conversion
    of its old value, the keys are the old ones plus `status`, and every value
    is a float.
   */
  lemma MarkPointSpec(p: Point, parse: string -> Option<real>)
    ensures MarkPoint(p, parse).0.measurement == p.measurement
    ensures MarkPoint(p, parse).0.tags == p.tags
    ensures MarkPoint(p, parse).0.time == p.time
    ensures MarkPoint(p, parse).1.None? <==>
      forall i :: 0 <= i < |p.fields| ==> ToFloat(p.fields[i].1, parse).Ok?
    ensures MarkPoint(p, parse).1.None? ==>
      Get(MarkPoint(p, parse).0.fields, STATUS) == Some(MARKED)
    ensures MarkPoint(p, parse).1.None? ==> forall k :: k != STATUS ==>
      Get(MarkPoint(p, parse).0.fields, k) == AsFloat(Get(p.fields, k), parse)
    ensures MarkPoint(p, parse).1.None? ==> forall k ::
      HasKey(MarkPoint(p, parse).0.fields, k) <==> HasKey(p.fields, k) || k == STATUS
    ensures MarkPoint(p, parse).1.None? ==> forall i :: 0 <= i < |MarkPoint(p, parse).0.fields| ==>
      MarkPoint(p, parse).0.fields[i].1.Float?
  {
    CoerceSpec(p.fields, parse);
    if MarkPoint(p, parse).1.None? {
      MarkedValues(p, parse);
      MarkedKeys(p, parse);
      MarkedFloats(p, parse);
    }
  }

  lemma MarkedValues(p: Point, parse: string -> Option<real>)
    requires MarkPoint(p, parse).1.None?
    ensures Get(MarkPoint(p, parse).0.fields, STATUS) == Some(MARKED)
    ensures forall k :: k != STATUS ==> Get(MarkPoint(p, parse).0.fields, k) == AsFloat(Get(p.fields, k), parse)
  {
    var c := Coerce(p.fields, parse).0;
    var q := MarkPoint(p, parse).0;
    assert q.fields == Put(c, STATUS, MARKED);
    forall k ensures Get(q.fields, k) == if k == STATUS then Some(MARKED) else AsFloat(Get(p.fields, k), parse) {
      GetPut(c, STATUS, MARKED, k);
      GetCoerced(p.fields, parse, k);
    }
  }

  lemma MarkedKeys(p: Point, parse: string -> Option<real>)
    requires MarkPoint(p, parse).1.None?
    ensures forall k :: HasKey(MarkPoint(p, parse).0.fields, k) <==> HasKey(p.fields, k) || k == STATUS
  {
    CoerceSpec(p.fields, parse);
    MarkedValues(p, parse);
    forall k | HasKey(p.fields, k) ensures AsFloat(Get(p.fields, k), parse).Some? {
      var i :| 0 <= i < |p.fields| && p.fields[i] == (k, Get(p.fields, k).value);
    }
  }

  lemma MarkedFloats(p: Point, parse: string -> Option<real>)
    requires MarkPoint(p, parse).1.None?
    ensures forall i :: 0 <= i < |MarkPoint(p, parse).0.fields| ==> MarkPoint(p, parse).0.fields[i].1.Float?
  {
    var c := Coerce(p.fields, parse).0;
    CoerceSpec(p.fields, parse);
    var q := MarkPoint(p, parse).0;
    assert q.fields == Put(c, STATUS, MARKED);
    PutEntries(c, STATUS, MARKED);
    forall i | 0 <= i < |q.fields| ensures q.fields[i].1.Float? {
      if q.fields[i].1 != MARKED {
        var j :| 0 <= j < |c| && c[j] == q.fields[i];
      }
    }
  }

  lemma {:induction false} CoerceFloats(fields: Dict<Value>, parse: string -> Option<real>)
    requires forall i :: 0 <= i < |fields| ==> fields[i].1.Float?
    ensures Coerce(fields, parse) == (fields, None)
    decreases |fields|
  {
    if |fields| > 0 {
      CoerceFloats(fields[1..], parse);
      assert [(fields[0].0, Float(fields[0].1.x))] + fields[1..] == fields;
    }
  }

  /** Marking an already marked point changes nothing, so a re-sent point is marked the same way. */
  lemma MarkIdempotent(p: Point, parse: string -> Option<real>)
    requires MarkPoint(p, parse).1.None?
    ensures MarkPoint(MarkPoint(p, parse).0, parse) == MarkPoint(p, parse)
  {
    var q := MarkPoint(p, parse).0;
    MarkPointSpec(p, parse);
    CoerceFloats(q.fields, parse);
    assert HasKey(q.fields, STATUS);
    var c := Coerce(p.fields, parse).0;
    PutIdempotent(c, STATUS, MARKED);
  }

  /** A batch that marks without error keeps its length and order, point by point. */
  lemma MarkAllSpec(batch: seq<Point>, parse: string -> Option<real>, i: nat)
    requires i < |batch| && MarkAll(batch, parse).1.None?
    ensures MarkAll(batch, parse).0[i].measurement == batch[i].measurement
    ensures MarkAll(batch, parse).0[i].tags == batch[i].tags
    ensures MarkAll(batch, parse).0[i].time == batch[i].time
    ensures Get(MarkAll(batch, parse).0[i].fields, STATUS) == Some(MARKED)
    ensures forall k :: k != STATUS ==>
      Get(MarkAll(batch, parse).0[i].fields, k) == AsFloat(Get(batch[i].fields, k), parse)
  {
    MarkAllComplete(batch, parse);
    MarkPointSpec(batch[i], parse);
  }

  /** Where marking stops: at the first point i that does not convert, keeping the rest as it was. */
  lemma {:induction false} MarkAllStops(batch: seq<Point>, parse: string -> Option<real>, i: nat)
    requires i < |batch|
    requires forall j :: 0 <= j < i ==> MarkPoint(batch[j], parse).1.None?
    requires MarkPoint(batch[i], parse).1.Some?
    ensures MarkAll(batch, parse).1 == MarkPoint(batch[i], parse).1
    ensures forall j :: 0 <= j <= i ==> MarkAll(batch, parse).0[j] == MarkPoint(batch[j], parse).0
    ensures forall j :: i < j < |batch| ==> MarkAll(batch, parse).0[j] == batch[j]
    decreases i
  {
    var m := MarkPoint(batch[0], parse);
    if i > 0 {
      var tail := batch[1..];
      assert m.1.None?;
      forall j | 0 <= j < |tail| ensures tail[j] == batch[j + 1] { }
      MarkAllStops(tail, parse, i - 1);
      var rest := MarkAll(tail, parse);
      var r := [m.0] + rest.0;
      assert MarkAll(batch, parse) == (r, rest.1);
      forall j | 1 <= j < |batch| ensures r[j] == rest.0[j - 1] { }
    } else {
      assert MarkAll(batch, parse) == ([m.0] + batch[1..], m.1);
    }
  }

  /** Where coercion stops: at the first value float() rejects. */
  lemma {:induction false} CoerceStops(fields: Dict<Value>, parse: string -> Option<real>, i: nat)
    requires i < |fields|
    requires forall j :: 0 <= j < i ==> ToFloat(fields[j].1, parse).Ok?
    requires ToFloat(fields[i].1, parse).Err?
    ensures Coerce(fields, parse).1 == Some(ToFloat(fields[i].1, parse).error)
    ensures forall j :: 0 <= j < i ==>
      Coerce(fields, parse).0[j] == (fields[j].0, Float(ToFloat(fields[j].1, parse).value))
    ensures forall j :: i <= j < |fields| ==> Coerce(fields, parse).0[j] == fields[j]
    decreases i
  {
    if i > 0 {
      var tail := fields[1..];
      assert forall j :: 0 <= j < |tail| ==> tail[j] == fields[j + 1];
      CoerceStops(tail, parse, i - 1);
      var r := Coerce(fields, parse).0;
      assert r[1..] == Coerce(tail, parse).0;
      forall j | 1 <= j < |fields| ensures r[j] == Coerce(tail, parse).0[j - 1] {
      }
    }
  }

  /** The inner loop of uploader/uploader.py:54-55 over one point's fields dict. */
  method CoerceFields(fields: Dict<Value>, parse: string -> Option<real>)
    returns (coerced: Dict<Value>, err: Option<Error>)
    ensures (coerced, err) == Coerce(fields, parse)
  {
    coerced := fields;
    for i := 0 to |fields|
      invariant |coerced| == |fields|
      invariant forall j :: 0 <= j < i ==> ToFloat(fields[j].1, parse).Ok?
      invariant forall j :: 0 <= j < i ==>
        coerced[j] == (fields[j].0, Float(ToFloat(fields[j].1, parse).value))
      invariant forall j :: i <= j < |fields| ==> coerced[j] == fields[j]
    {
      var converted := ToFloat(coerced[i].1, parse);
      if converted.Err? {
        CoerceStops(fields, parse, i);
        assert coerced == Coerce(fields, parse).0;
        return coerced, Some(converted.error);
      }
      coerced := coerced[i := (coerced[i].0, Float(converted.value))];
    }
    CoerceSpec(fields, parse);
    assert coerced == Coerce(fields, parse).0;
    err := None;
  }

  /** A batch state that agrees point by point with a stopped marking run is that run's result. */
  lemma MarkAllStoppedAt(original: seq<Point>, current: seq<Point>, parse: string -> Option<real>, i: nat)
    requires |current| == |original| && i < |original|
    requires forall j :: 0 <= j < i ==> MarkPoint(original[j], parse).1.None?
    requires forall j :: 0 <= j < i ==> current[j] == MarkPoint(original[j], parse).0
    requires MarkPoint(original[i], parse).1.Some? && current[i] == MarkPoint(original[i], parse).0
    requires forall j :: i < j < |original| ==> current[j] == original[j]
    ensures MarkAll(original, parse) == (current, MarkPoint(original[i], parse).1)
  {
    MarkAllStops(original, parse, i);
    SameAt(MarkAll(original, parse).0, current, original, parse, i);
  }

  /** Two batches that agree with the same stopped marking run, position by position, are equal. */
  lemma SameAt(r: seq<Point>, current: seq<Point>, original: seq<Point>, parse: string -> Option<real>, i: nat)
    requires |current| == |original| == |r| && i < |original|
    requires forall j :: 0 <= j < i ==> current[j] == MarkPoint(original[j], parse).0
    requires current[i] == MarkPoint(original[i], parse).0
    requires forall j :: 0 <= j <= i ==> r[j] == MarkPoint(original[j], parse).0
    requires forall j :: i < j < |original| ==> current[j] == original[j]
    requires forall j :: i < j < |original| ==> r[j] == original[j]
    ensures r == current
  {
    forall j | 0 <= j < |r| ensures r[j] == current[j] {
      if j < i {
      } else if j == i {
      }
    }
  }

  /** A batch state that agrees point by point with a completed marking run is that run's result. */
  lemma MarkAllCompletedAs(original: seq<Point>, current: seq<Point>, parse: string -> Option<real>)
    requires |current| == |original|
    requires forall j :: 0 <= j < |original| ==> MarkPoint(original[j], parse).1.None?
    requires forall j :: 0 <= j < |original| ==> current[j] == MarkPoint(original[j], parse).0
    ensures MarkAll(original, parse) == (current, None)
  {
    MarkAllComplete(original, parse);
    var r := MarkAll(original, parse).0;
    assert forall j :: 0 <= j < |r| ==> r[j] == current[j];
    assert r == current;
  }

  /** The marking loop of uploader/uploader.py:53-56, rewriting the batch in place. */
  method MarkInPlace(batch: array<Point>, parse: string -> Option<real>) returns (err: Option<Error>)
    modifies batch
    ensures (batch[..], err) == MarkAll(old(batch[..]), parse)
  {
    ghost var original := batch[..];
    for i := 0 to batch.Length
      invariant forall j :: 0 <= j < i ==> MarkPoint(original[j], parse).1.None?
      invariant forall j :: 0 <= j < i ==> batch[j] == MarkPoint(original[j], parse).0
      invariant forall j :: i <= j < batch.Length ==> batch[j] == original[j]
    {
      var fields, failed := CoerceFields(batch[i].fields, parse);
      if failed.Some? {
        batch[i] := batch[i].(fields := fields);
        MarkAllStoppedAt(original, batch[..], parse, i);
        return failed;
      }
      batch[i] := batch[i].(fields := Put(fields, STATUS, MARKED));
    }
    MarkAllCompletedAs(original, batch[..], parse);
    err := None;
  }
}
