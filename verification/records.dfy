/**
 * What a flush writes: the true-wind columns added to the snapshot and
 * the INSERT into `navigation_data` built from it (`send_data`), and the
 * row `send_hourly_summary` writes to `hourly_navigation_summary`.
 */
module Records {
  import opened Wrappers
  import opened Values
  import opened Nmea
  import opened Schedule

  /**
   * Why a flush raises: a `KeyError` for a missing wind input, a
   * `ValueError` from `float` on a text that is not a number, or the
   * database refusing a column the table does not have.
   */
  datatype Error = MissingKey(key: string) | NotNumeric(key: string) | UnknownColumn(column: string)

  /** The columns of `navigation_data` that a snapshot key can match (all but `id` and `timestamp`). */
  const NavigationColumns: set<string> := {
    "rate_of_turn", "heading", "AWA", "AWS", "true_track", "mag_track",
    "speed", "true_course", "mag_var", "mag_var_dir", "true_heading",
    "heading_magnetic", "water_speed", "temperature", "depth",
    "trip_distance", "lat", "lat_dir", "lon", "lon_dir", "num_sats",
    "horizontal_dil", "altitude", "geo_sep", "TWA", "TWS"
  }

  /**
   * `float(sorted_data[key])`. `toFloat` is Python's `float` on a text;
   * a number converts to itself.
   */
  function FloatOf(d: Dict, key: string, toFloat: string -> Option<real>): (r: Result<real, Error>)
    ensures r == Failure(MissingKey(key)) <==> key !in d.vals
    ensures r.Failure? && key in d.vals ==> r == Failure(NotNumeric(key)) && d.vals[key].Text?
    ensures r.Success? ==> key in d.vals
    ensures r.Success? && d.vals[key].Num? ==> r.value == d.vals[key].x
    ensures r.Success? && d.vals[key].Text? ==> toFloat(d.vals[key].s) == Some(r.value)
    ensures key in d.vals && d.vals[key].Text? ==> (r.Success? <==> toFloat(d.vals[key].s).Some?)
  {
    if key !in d.vals then Failure(MissingKey(key))
    else match d.vals[key]
      case Num(x) => Success(x)
      case Text(s) => if toFloat(s).Some? then Success(toFloat(s).value) else Failure(NotNumeric(key))
  }

  /** The three arguments of `calculate_true_wind`. */
  datatype Wind = Wind(aws: real, awa: real, speed: real)

  /**
   * The arguments of `calculate_true_wind`, converted left to right:
   * the first of AWS, AWA, speed that fails decides the error.
   */
  function WindInputs(d: Dict, toFloat: string -> Option<real>): (r: Result<Wind, Error>)
    ensures r.Success? <==>
      FloatOf(d, "AWS", toFloat).Success? && FloatOf(d, "AWA", toFloat).Success?
      && FloatOf(d, "speed", toFloat).Success?
    ensures r.Success? ==>
      r.value == Wind(FloatOf(d, "AWS", toFloat).value, FloatOf(d, "AWA", toFloat).value,
                      FloatOf(d, "speed", toFloat).value)
    ensures "AWS" !in d.vals ==> r == Failure(MissingKey("AWS"))
    ensures FloatOf(d, "AWS", toFloat).Success? && "AWA" !in d.vals ==> r == Failure(MissingKey("AWA"))
    ensures r.Failure? ==>
      r.error == if FloatOf(d, "AWS", toFloat).Failure? then FloatOf(d, "AWS", toFloat).error
                 else if FloatOf(d, "AWA", toFloat).Failure? then FloatOf(d, "AWA", toFloat).error
                 else FloatOf(d, "speed", toFloat).error
  {
    match FloatOf(d, "AWS", toFloat)
    case Failure(e) => Failure(e)
    case Success(aws) =>
      match FloatOf(d, "AWA", toFloat)
      case Failure(e) => Failure(e)
      case Success(awa) =>
        match FloatOf(d, "speed", toFloat)
        case Failure(e) => Failure(e)
        case Success(speed) => Success(Wind(aws, awa, speed))
  }

  /**
   * save_data.py lines 198-204: the snapshot with the computed true wind
   * speed stored under "TWS" and then the angle under "TWA". `trueWind`
   * is `calculate_true_wind`.
   */
  function WithTrueWind(d: Dict, toFloat: string -> Option<real>,
                        trueWind: (real, real, real) -> (real, real)): (r: Result<Dict, Error>)
    ensures r.Success? <==> WindInputs(d, toFloat).Success?
    ensures r.Failure? ==> r.error == WindInputs(d, toFloat).error
    ensures r.Success? ==>
      var w := WindInputs(d, toFloat).value;
      var tw := trueWind(w.aws, w.awa, w.speed);
      r.value.vals == d.vals["TWS" := Num(tw.0)]["TWA" := Num(tw.1)]
  {
    match WindInputs(d, toFloat)
    case Failure(e) => Failure(e)
    case Success(w) =>
      var tw := trueWind(w.aws, w.awa, w.speed);
      Success(Put(Put(d, "TWS", Num(tw.0)), "TWA", Num(tw.1)))
  }

  /**
   * The first flush appends "TWS" and "TWA" to the column order; once
   * there, later flushes keep every column in its place.
   */
  lemma TrueWindOrder(d: Dict, toFloat: string -> Option<real>,
                      trueWind: (real, real, real) -> (real, real))
    requires WellFormed(d)
    requires WithTrueWind(d, toFloat, trueWind).Success?
    ensures WellFormed(WithTrueWind(d, toFloat, trueWind).value)
    ensures d.order <= WithTrueWind(d, toFloat, trueWind).value.order
    ensures "TWS" !in d.vals && "TWA" !in d.vals ==>
      WithTrueWind(d, toFloat, trueWind).value.order == d.order + ["TWS", "TWA"]
    ensures "TWS" in d.vals && "TWA" in d.vals ==>
      WithTrueWind(d, toFloat, trueWind).value.order == d.order
  {
  }

  /** The parametrised INSERT of `send_data`: column list, placeholders and parameters. */
  datatype Insert = Insert(columns: seq<string>, placeholders: seq<string>, params: seq<Value>)

  /**
   * save_data.py lines 212-214: the columns are the snapshot's keys in
   * insertion order, one "%s" per column, and the parameters its values in
   * the same order.
   */
  function BuildInsert(d: Dict): (ins: Insert)
    requires WellFormed(d)
    ensures |ins.columns| == |ins.placeholders| == |ins.params| == |d.vals|
    ensures forall i :: 0 <= i < |ins.placeholders| ==> ins.placeholders[i] == "%s"
    ensures forall i :: 0 <= i < |ins.columns| ==>
      ins.columns[i] in d.vals && ins.params[i] == d.vals[ins.columns[i]]
    ensures forall k :: k in d.vals <==> k in ins.columns
  {
    DistinctCard(d);
    Insert(d.order, seq(|d.order|, _ => "%s"),
           seq(|d.order|, i requires 0 <= i < |d.order| => d.vals[d.order[i]]))
  }

  /** In a well-formed dict there are as many keys in the order as in the map. */
  lemma DistinctCard(d: Dict)
    requires WellFormed(d)
    ensures |d.order| == |d.vals|
  {
    assert d.vals.Keys == set k | k in d.order;
    SeqSetCard(d.order);
  }

  /** A sequence without repetitions has as many distinct elements as it is long. */
  lemma {:induction false} SeqSetCard(s: seq<string>)
    requires forall i, j :: 0 <= i < j < |s| ==> s[i] != s[j]
    ensures |set k | k in s| == |s|
    decreases |s|
  {
    if s != [] {
      var init := s[..|s| - 1];
      var last := s[|s| - 1];
      SeqSetCard(init);
      assert (set k | k in s) == (set k | k in init) + {last};
      assert last !in (set k | k in init);
    }
  }

  /** The row a list of columns and a list of parameters describe, read back as a dict. */
  function Pairs(columns: seq<string>, params: seq<Value>): map<string, Value>
    requires |columns| == |params|
  {
    if columns == [] then map[]
    else Pairs(columns[1..], params[1..])[columns[0] := params[0]]
  }

  lemma {:induction false} PairsAt(columns: seq<string>, params: seq<Value>, k: string)
    requires |columns| == |params|
    requires forall i, j :: 0 <= i < j < |columns| ==> columns[i] != columns[j]
    ensures k in Pairs(columns, params) <==> k in columns
    ensures forall i :: 0 <= i < |columns| && columns[i] == k ==> Pairs(columns, params)[k] == params[i]
    decreases |columns|
  {
    if columns != [] {
      PairsAt(columns[1..], params[1..], k);
      forall i | 0 < i < |columns| && columns[i] == k
        ensures Pairs(columns, params)[k] == params[i]
      {
        assert columns[1..][i - 1] == k;
      }
    }
  }

  /** The INSERT names every snapshot field once and with its value: it reads back as the snapshot. */
  lemma InsertRoundTrip(d: Dict)
    requires WellFormed(d)
    ensures Pairs(BuildInsert(d).columns, BuildInsert(d).params) == d.vals
  {
    var ins := BuildInsert(d);
    var p := Pairs(ins.columns, ins.params);
    forall k ensures Get(p, k) == Get(d.vals, k) {
      PairsAt(ins.columns, ins.params, k);
      if k in d.vals {
        var i :| 0 <= i < |d.order| && d.order[i] == k;
      }
    }
    MapExt(p, d.vals);
  }

  /**
   * The row `send_data` writes holds exactly the snapshot's fields plus
   * TWS and TWA computed from the AWS, AWA and speed of that snapshot.
   */
  lemma InsertedRow(d: Dict, columns: set<string>, toFloat: string -> Option<real>,
                    trueWind: (real, real, real) -> (real, real))
    requires WellFormed(d)
    requires SendData(d, columns, toFloat, trueWind).Success?
    ensures var ins := SendData(d, columns, toFloat, trueWind).value.1;
      var w := WindInputs(d, toFloat).value;
      var tw := trueWind(w.aws, w.awa, w.speed);
      Pairs(ins.columns, ins.params) == d.vals["TWS" := Num(tw.0)]["TWA" := Num(tw.1)]
  {
    var d' := WithTrueWind(d, toFloat, trueWind).value;
    TrueWindOrder(d, toFloat, trueWind);
    InsertRoundTrip(d');
  }

  /**
   * After a successful flush the snapshot keeps its earlier columns in
   * place and holds the true wind, and the INSERT names its keys in order.
   */
  lemma FlushedSnapshot(d: Dict, columns: set<string>, toFloat: string -> Option<real>,
                        trueWind: (real, real, real) -> (real, real))
    requires WellFormed(d)
    requires SendData(d, columns, toFloat, trueWind).Success?
    ensures var sent := SendData(d, columns, toFloat, trueWind).value;
      && WellFormed(sent.0)
      && d.order <= sent.0.order
      && "TWS" in sent.0.vals && "TWA" in sent.0.vals
      && sent.1.columns == sent.0.order
  {
    TrueWindOrder(d, toFloat, trueWind);
    TrueWindKeys(d, toFloat, trueWind);
  }

  /** The first column of `columns` that `known` lacks, if any. */
  function FirstUnknown(columns: seq<string>, known: set<string>): (o: Option<string>)
    ensures o.None? <==> forall i :: 0 <= i < |columns| ==> columns[i] in known
    ensures o.Some? ==> o.value in columns && o.value !in known
  {
    if columns == [] then None
    else if columns[0] !in known then Some(columns[0])
    else FirstUnknown(columns[1..], known)
  }

  /**
   * `send_data` against a table with the given `columns`: the snapshot
   * with the true wind added and the INSERT built from it, or the error
   * that aborts the flush.
   */
  function SendData(d: Dict, columns: set<string>, toFloat: string -> Option<real>,
                    trueWind: (real, real, real) -> (real, real)): (r: Result<(Dict, Insert), Error>)
    requires WellFormed(d)
    ensures WindInputs(d, toFloat).Failure? ==> r == Failure(WindInputs(d, toFloat).error)
    ensures r.Success? ==>
      && r.value.0 == WithTrueWind(d, toFloat, trueWind).value
      && r.value.1 == BuildInsert(r.value.0)
  {
    var w := WithTrueWind(d, toFloat, trueWind);
    if w.Failure? then Failure(w.error)
    else
      TrueWindOrder(d, toFloat, trueWind);
      var ins := BuildInsert(w.value);
      var unknown := FirstUnknown(ins.columns, columns);
      if unknown.Some? then Failure(UnknownColumn(unknown.value)) else Success((w.value, ins))
  }

  /** The snapshot after the true wind is added has exactly two more possible keys. */
  lemma TrueWindKeys(d: Dict, toFloat: string -> Option<real>,
                     trueWind: (real, real, real) -> (real, real))
    requires WithTrueWind(d, toFloat, trueWind).Success?
    ensures WithTrueWind(d, toFloat, trueWind).value.vals.Keys == d.vals.Keys + {"TWS", "TWA"}
  {
  }

  /** The INSERT is accepted exactly when the table has every key of the dict it is built from. */
  lemma InsertAccepted(d: Dict, columns: set<string>)
    requires WellFormed(d)
    ensures FirstUnknown(BuildInsert(d).columns, columns).None? <==> d.vals.Keys <= columns
  {
    var ins := BuildInsert(d);
    if d.vals.Keys <= columns {
      forall i | 0 <= i < |ins.columns| ensures ins.columns[i] in columns {
        assert ins.columns[i] in d.vals;
      }
    }
  }

  /**
   * Against a table that has "TWS" and "TWA", a flush succeeds exactly
   * when the wind inputs convert and every snapshot key is a column.
   */
  lemma SendDataSucceedsIff(d: Dict, columns: set<string>, toFloat: string -> Option<real>,
                            trueWind: (real, real, real) -> (real, real))
    requires WellFormed(d)
    requires "TWS" in columns && "TWA" in columns
    ensures SendData(d, columns, toFloat, trueWind).Success? <==>
      WindInputs(d, toFloat).Success? && d.vals.Keys <= columns
  {
    if WithTrueWind(d, toFloat, trueWind).Success? {
      ColumnsDecide(d, columns, toFloat, trueWind);
    }
  }

  /** Once the true wind is computed, the column check alone decides the flush. */
  lemma ColumnsDecide(d: Dict, columns: set<string>, toFloat: string -> Option<real>,
                      trueWind: (real, real, real) -> (real, real))
    requires WellFormed(d)
    requires "TWS" in columns && "TWA" in columns
    requires WithTrueWind(d, toFloat, trueWind).Success?
    ensures SendData(d, columns, toFloat, trueWind).Success? <==> d.vals.Keys <= columns
  {
    var d' := WithTrueWind(d, toFloat, trueWind).value;
    TrueWindOrder(d, toFloat, trueWind);
    TrueWindKeys(d, toFloat, trueWind);
    InsertAccepted(d', columns);
    AddedColumns(d'.vals.Keys, d.vals.Keys, columns);
  }

  lemma AddedColumns(after: set<string>, before: set<string>, columns: set<string>)
    requires after == before + {"TWS", "TWA"}
    requires "TWS" in columns && "TWA" in columns
    ensures after <= columns <==> before <= columns
  {
  }

  /** Past the wind inputs, a flush fails only by naming a column the table lacks. */
  lemma SendDataRejects(d: Dict, columns: set<string>, toFloat: string -> Option<real>,
                        trueWind: (real, real, real) -> (real, real))
    requires WellFormed(d)
    requires WindInputs(d, toFloat).Success?
    requires SendData(d, columns, toFloat, trueWind).Failure?
    ensures var e := SendData(d, columns, toFloat, trueWind).error;
      && e.UnknownColumn? && e.column !in columns
      && (e.column in d.vals || e.column == "TWS" || e.column == "TWA")
  {
    var w := WithTrueWind(d, toFloat, trueWind);
    assert w.Success?;
    TrueWindOrder(d, toFloat, trueWind);
    var unknown := FirstUnknown(BuildInsert(w.value).columns, columns);
    assert unknown.Some?;
    assert unknown.value in w.value.vals;
    TrueWindKeys(d, toFloat, trueWind);
  }

  /**
   * Every key `handle_data` writes is a column of `navigation_data`,
   * except "local_zone" from "$GPZDA".
   */
  lemma RuleKeysAreColumns(device: string)
    ensures forall i :: 0 <= i < |Rule(device)| ==>
      Rule(device)[i].key in NavigationColumns || Rule(device)[i].key == "local_zone"
  {
    var rule := Rule(device);
    forall i | 0 <= i < |rule| ensures rule[i].key in NavigationColumns || rule[i].key == "local_zone" {
      match device {
        case "$GPDPT" =>
        case "$GPGGA" =>
        case "$GPGSV" =>
        case "$GPHDG" =>
        case "$GPMTW" =>
        case "$GPMWV" =>
        case "$GPRMC" =>
        case "$GPROT" =>
        case "$GPVHW" =>
        case "$GPVLW" =>
        case "$GPVTG" =>
        case "$GPZDA" =>
        case _ =>
      }
    }
  }

  /** Once "$GPZDA" has stored a zone, no later flush into `navigation_data` can succeed. */
  lemma ZoneKeyRejected(d: Dict, toFloat: string -> Option<real>,
                        trueWind: (real, real, real) -> (real, real))
    requires WellFormed(d)
    requires "local_zone" in d.vals
    ensures SendData(d, NavigationColumns, toFloat, trueWind).Failure?
  {
    KeyRejected(d, NavigationColumns, toFloat, trueWind, "local_zone");
  }

  /** A snapshot key the table lacks makes every flush fail. */
  lemma KeyRejected(d: Dict, columns: set<string>, toFloat: string -> Option<real>,
                    trueWind: (real, real, real) -> (real, real), k: string)
    requires WellFormed(d)
    requires "TWS" in columns && "TWA" in columns
    requires k in d.vals && k !in columns
    ensures SendData(d, columns, toFloat, trueWind).Failure?
  {
    SendDataSucceedsIff(d, columns, toFloat, trueWind);
  }

  // ---- hourly summary ----

  /** A query parameter or result cell: SQL NULL, a field value, or a timestamp. */
  datatype Param = Null | Val(v: Value) | Stamp(t: int)

  /** The averages query result, in its select-list order. */
  datatype AvgRow = AvgRow(twa: Param, tws: Param, awa: Param, aws: Param, heading: Param, speed: Param)

  /** The last-row query result, in its select-list order. */
  datatype LastRow = LastRow(altitude: Param, lat: Param, latDir: Param, lon: Param,
                             lonDir: Param, depth: Param, temperature: Param)

  /** The `navigation_data` column each averaged cell is computed from. */
  function AvgOf(a: AvgRow, column: string): Param {
    match column
    case "TWA" => a.twa
    case "TWS" => a.tws
    case "AWA" => a.awa
    case "AWS" => a.aws
    case "heading_magnetic" => a.heading
    case "speed" => a.speed
    case _ => Null
  }

  /** The `navigation_data` column each cell of the last row is read from. */
  function LastOf(l: LastRow, column: string): Param {
    match column
    case "altitude" => l.altitude
    case "lat" => l.lat
    case "lat_dir" => l.latDir
    case "lon" => l.lon
    case "lon_dir" => l.lonDir
    case "depth" => l.depth
    case "temperature" => l.temperature
    case _ => Null
  }

  /** The columns of the summary INSERT, in order. */
  const SummaryColumns: seq<string> := [
    "Hour", "TWA", "TWS", "AWA", "AWS", "Heading", "Speed",
    "Altitude", "Lattitude", "LatDir", "Longitude", "LonDir", "Depth", "Temp"
  ]

  /** The `navigation_data` quantity a summary column is meant to hold. */
  function Quantity(column: string): string {
    match column
    case "Heading" => "heading_magnetic"
    case "Speed" => "speed"
    case "Altitude" => "altitude"
    case "Lattitude" => "lat"
    case "LatDir" => "lat_dir"
    case "Longitude" => "lon"
    case "LonDir" => "lon_dir"
    case "Depth" => "depth"
    case "Temp" => "temperature"
    case _ => column
  }

  /**
   * save_data.py lines 288-292: the hour start, then the six averages or six NULLs
   * when there is no result, then the seven last-row cells or seven NULLs.
   */
  function SummaryValues(from: int, avg: Option<AvgRow>, last: Option<LastRow>): (vals: seq<Param>)
    ensures |vals| == |SummaryColumns|
    ensures vals[0] == Stamp(from)
    ensures avg.None? ==> forall i :: 1 <= i < 7 ==> vals[i] == Null
    ensures last.None? ==> forall i :: 7 <= i < 14 ==> vals[i] == Null
  {
    var a := if avg.Some? then
      var r := avg.value; [r.twa, r.tws, r.awa, r.aws, r.heading, r.speed]
      else [Null, Null, Null, Null, Null, Null];
    var l := if last.Some? then
      var r := last.value; [r.altitude, r.lat, r.latDir, r.lon, r.lonDir, r.depth, r.temperature]
      else [Null, Null, Null, Null, Null, Null, Null];
    [Stamp(from)] + a + l
  }

  /**
   * Every averaged or last-row cell lands in the summary column that
   * names the quantity it was computed from.
   */
  lemma SummaryAligned(from: int, avg: Option<AvgRow>, last: Option<LastRow>)
    ensures forall i :: 1 <= i < 7 && avg.Some? ==>
      SummaryValues(from, avg, last)[i] == AvgOf(avg.value, Quantity(SummaryColumns[i]))
    ensures forall i :: 7 <= i < 14 && last.Some? ==>
      SummaryValues(from, avg, last)[i] == LastOf(last.value, Quantity(SummaryColumns[i]))
  {
  }

  /**
   * save_data.py lines 230-233: the summary covers the whole UTC hour before the one
   * the clock is in, as a half-open interval `[from, to)`.
   */
  function Window(clock: real): (w: (int, int))
    ensures w.1 - w.0 == 3600 && w.1 % 3600 == 0
    ensures w.1 as real <= clock < w.1 as real + 3600.0
  {
    var to := HourStart(clock);
    (to - 3600, to)
  }

  /** `timestamp >= from AND timestamp < to`. */
  predicate InWindow(ts: real, w: (int, int)) {
    w.0 as real <= ts < w.1 as real
  }

  /** A row is summarised exactly when it was stored in the hour before the clock's hour. */
  lemma InWindowIff(clock: real, ts: real)
    ensures InWindow(ts, Window(clock)) <==> HourStart(ts) == HourStart(clock) - 3600
  {
    var w := Window(clock);
    if InWindow(ts, w) {
      HourStartUnique(ts, w.0);
    }
  }
}
