/**
 * The `data_saver` loop: receive a chunk, feed its sentences to
 * `handle_data`, and every `save_interval` seconds flush the snapshot
 * with `send_data`, followed at the top of an hour by
 * `send_hourly_summary`. The endless loop is modelled over a finite
 * sequence of iterations; the database is modelled by the rows the loop
 * writes to it.
 */
module Saver {
  import opened Wrappers
  import opened Values
  import opened Nmea
  import opened Snapshot
  import opened Framing
  import opened Schedule
  import opened Records

  /**
   * What one loop iteration receives from the outside world: the chunk
   * read from the socket, the clock read after ingesting it, the clock
   * read inside `send_hourly_summary`, the clock read for the new start,
   * and the two query results of the summary.
   */
  datatype Tick = Tick(chunk: string, now: real, summaryClock: real, restartClock: real,
                       avg: Option<AvgRow>, last: Option<LastRow>)

  /**
   * The fixed parameters of a run: `save_interval`, the sentence parser,
   * `float` on texts, and `calculate_true_wind`.
   */
  datatype Config = Config(saveInterval: int, parse: string -> Reading,
                           toFloat: string -> Option<real>,
                           trueWind: (real, real, real) -> (real, real))

  /** The loop's variables and the rows written so far. */
  datatype State = State(snap: Dict, start: real, inserts: seq<Insert>, summaries: seq<seq<Param>>)

  /** Either the loop goes on, or an exception ended it after writing the rows it carries. */
  datatype Outcome =
    | Running(state: State)
    | Crashed(inserts: seq<Insert>, summaries: seq<seq<Param>>, error: Error)

  /** The state before the first iteration: an empty snapshot and `start` read from the clock. */
  function Initial(clock: real): State {
    State(Empty, clock, [], [])
  }

  /**
   * One iteration of `while True`. An empty chunk changes nothing and
   * reads no clock. Otherwise the loop flushes exactly when more than
   * `save_interval` seconds have passed since `start`; a flush writes one
   * navigation row, restarts the interval, adds a summary of the previous
   * hour exactly when the summary test holds, and keeps the snapshot.
   * A failed flush ends the loop with the rows written before it.
   */
  function Step(s: State, t: Tick, cfg: Config): (r: Outcome)
    requires WellFormed(s.snap)
    ensures t.chunk == [] ==> r == Running(s)
    ensures r.Running? ==> WellFormed(r.state.snap)
    ensures r.Running? ==> s.snap.order <= r.state.snap.order && s.snap.vals.Keys <= r.state.snap.vals.Keys
    ensures r.Crashed? ==> t.chunk != [] && FlushDue(t.now, s.start, cfg.saveInterval)
    ensures r.Crashed? ==> r.inserts == s.inserts && r.summaries == s.summaries
    ensures r.Running? ==>
      var flush := t.chunk != [] && FlushDue(t.now, s.start, cfg.saveInterval);
      && s.inserts <= r.state.inserts
      && |r.state.inserts| == |s.inserts| + (if flush then 1 else 0)
      && r.state.start == (if flush then Restart(t.restartClock) else s.start)
      && r.state.summaries
         == if flush && SummaryDue(t.now, cfg.saveInterval)
            then s.summaries + [SummaryValues(Window(t.summaryClock).0, t.avg, t.last)]
            else s.summaries
    ensures t.chunk != [] && !FlushDue(t.now, s.start, cfg.saveInterval) ==>
      r == Running(s.(snap := Ingest(s.snap, Framed(t.chunk), cfg.parse)))
    ensures t.chunk != [] && FlushDue(t.now, s.start, cfg.saveInterval) ==>
      (var snap := Ingest(s.snap, Framed(t.chunk), cfg.parse);
       IngestGrows(s.snap, Framed(t.chunk), cfg.parse);
       var sent := SendData(snap, NavigationColumns, cfg.toFloat, cfg.trueWind);
       && (r.Crashed? <==> sent.Failure?)
       && (sent.Failure? ==> r.error == sent.error)
       && (sent.Success? ==> r.state.snap == sent.value.0 && r.state.inserts == s.inserts + [sent.value.1]))
  {
    if t.chunk == [] then Running(s)
    else
      var snap := Ingest(s.snap, Framed(t.chunk), cfg.parse);
      IngestGrows(s.snap, Framed(t.chunk), cfg.parse);
      if !FlushDue(t.now, s.start, cfg.saveInterval) then Running(s.(snap := snap))
      else
        var sent := SendData(snap, NavigationColumns, cfg.toFloat, cfg.trueWind);
        if sent.Failure? then Crashed(s.inserts, s.summaries, sent.error)
        else
          TrueWindOrder(snap, cfg.toFloat, cfg.trueWind);
          TrueWindKeys(snap, cfg.toFloat, cfg.trueWind);
          var summaries := Summarised(s.summaries, t, cfg.saveInterval);
          Running(State(sent.value.0, Restart(t.restartClock), s.inserts + [sent.value.1], summaries))
  }

  /**
   * save_data.py lines 331-332: the summary table after a flush, with the row for the
   * previous hour appended when the flush falls early enough in the hour.
   */
  function Summarised(summaries: seq<seq<Param>>, t: Tick, interval: int): seq<seq<Param>> {
    if SummaryDue(t.now, interval)
    then summaries + [SummaryValues(Window(t.summaryClock).0, t.avg, t.last)]
    else summaries
  }

  /**
   * The loop over a sequence of iterations, up to the first exception.
   * Rows once written stay written, crash or not.
   */
  function Run(s: State, ticks: seq<Tick>, cfg: Config): (o: Outcome)
    requires WellFormed(s.snap)
    ensures s.inserts <= Rows(o).0 && s.summaries <= Rows(o).1
    decreases |ticks|
  {
    if ticks == [] then Running(s)
    else
      match Step(s, ticks[0], cfg)
      case Crashed(i, m, e) => Crashed(i, m, e)
      case Running(s') =>
        var o := Run(s', ticks[1..], cfg);
        PrefixTrans(s.inserts, s'.inserts, Rows(o).0);
        PrefixTrans(s.summaries, s'.summaries, Rows(o).1);
        o
  }

  /** save_data.py lines 317-324: the sentences of one chunk, fed to `handle_data` in order. */
  method IngestChunk(data: SortedData, chunk: string, parse: string -> Reading)
    requires data.Valid()
    modifies data
    ensures data.Valid()
    ensures data.Model() == Ingest(old(data.Model()), Framed(chunk), parse)
  {
    var sentences := Framed(chunk);
    ghost var d0 := data.Model();
    for i := 0 to |sentences|
      invariant data.Valid()
      invariant data.Model() == Ingest(d0, sentences[..i], parse)
    {
      var sentence := sentences[i];
      var device := DevicePrefix(sentence);
      if device in Devices {
        var reading := parse(sentence);
        data.HandleData(reading, device);
      }
      assert sentences[..i + 1] == sentences[..i] + [sentence];
      IngestSnoc(d0, sentences[..i], sentence, parse);
    }
    assert sentences[..|sentences|] == sentences;
  }

  /**
   * `send_data(sorted_data)`: stores the true wind in the snapshot, then
   * builds the INSERT, which the table accepts or refuses.
   */
  method SendDataTo(data: SortedData, toFloat: string -> Option<real>,
                    trueWind: (real, real, real) -> (real, real)) returns (r: Result<Insert, Error>)
    requires data.Valid()
    modifies data
    ensures data.Valid()
    ensures var expected := SendData(old(data.Model()), NavigationColumns, toFloat, trueWind);
      && (r.Success? <==> expected.Success?)
      && (expected.Success? ==> data.Model() == expected.value.0 && r.value == expected.value.1)
      && (expected.Failure? ==> r.error == expected.error)
    ensures r.Failure? ==>
      var w := WithTrueWind(old(data.Model()), toFloat, trueWind);
      data.Model() == if w.Success? then w.value else old(data.Model())
  {
    ghost var d0 := data.Model();
    var w := WindInputs(data.Model(), toFloat);
    if w.Failure? {
      return Failure(w.error);
    }
    var tw := trueWind(w.value.aws, w.value.awa, w.value.speed);
    data.Store("TWS", Num(tw.0));
    data.Store("TWA", Num(tw.1));
    TrueWindOrder(d0, toFloat, trueWind);
    var ins := BuildInsert(data.Model());
    var unknown := FirstUnknown(ins.columns, NavigationColumns);
    if unknown.Some? {
      return Failure(UnknownColumn(unknown.value));
    }
    return Success(ins);
  }

  /**
   * `data_saver` over the given iterations: the snapshot it ends with,
   * the rows it wrote, and the exception that ended it, if any.
   */
  method DataSaver(ticks: seq<Tick>, clock: real, cfg: Config)
    returns (data: SortedData, inserts: seq<Insert>, summaries: seq<seq<Param>>, error: Option<Error>)
    ensures data.Valid()
    ensures var out := Run(Initial(clock), ticks, cfg);
      && (out.Running? ==>
            && error == None && data.Model() == out.state.snap
            && inserts == out.state.inserts && summaries == out.state.summaries)
      && (out.Crashed? ==>
            error == Some(out.error) && inserts == out.inserts && summaries == out.summaries)
  {
    data := new SortedData();
    var start := clock;
    inserts, summaries := [], [];
    var i := 0;
    while i < |ticks|
      invariant 0 <= i <= |ticks|
      invariant data.Valid()
      invariant Run(State(data.Model(), start, inserts, summaries), ticks[i..], cfg)
             == Run(Initial(clock), ticks, cfg)
    {
      var t := ticks[i];
      ghost var s := State(data.Model(), start, inserts, summaries);
      assert ticks[i..][1..] == ticks[i + 1..];
      if t.chunk != [] {
        IngestChunk(data, t.chunk, cfg.parse);
        if FlushDue(t.now, start, cfg.saveInterval) {
          var r := SendDataTo(data, cfg.toFloat, cfg.trueWind);
          if r.Failure? {
            error := Some(r.error);
            return;
          }
          inserts := inserts + [r.value];
          if SummaryDue(t.now, cfg.saveInterval) {
            summaries := summaries + [SummaryValues(Window(t.summaryClock).0, t.avg, t.last)];
          }
          start := Restart(t.restartClock);
        }
      }
      assert Step(s, t, cfg) == Running(State(data.Model(), start, inserts, summaries));
      i := i + 1;
    }
    error := None;
  }

  // ---- what the rows written by a run show ----

  /** The hour a summary row reports in its first cell. */
  function HourOf(row: seq<Param>): int {
    if |row| > 0 && row[0].Stamp? then row[0].t else 0
  }

  /** The rows an outcome has written. */
  function Rows(o: Outcome): (seq<Insert>, seq<seq<Param>>) {
    match o
    case Running(s) => (s.inserts, s.summaries)
    case Crashed(i, m, _) => (i, m)
  }

  /**
   * What the tables show: every navigation row carries the true wind,
   * each navigation row repeats the columns of the rows before it, and
   * the summary hours strictly increase.
   */
  ghost predicate Logged(inserts: seq<Insert>, summaries: seq<seq<Param>>) {
    && (forall i :: 0 <= i < |inserts| ==> "TWS" in inserts[i].columns && "TWA" in inserts[i].columns)
    && (forall i, j :: 0 <= i < j < |inserts| ==> inserts[i].columns <= inserts[j].columns)
    && (forall i :: 0 <= i < |summaries| ==> |summaries[i]| == |SummaryColumns|)
    && (forall i, j :: 0 <= i < j < |summaries| ==> HourOf(summaries[i]) < HourOf(summaries[j]))
  }

  /** `Logged`, plus how the rows relate to the snapshot and to `start`. */
  ghost predicate Inv(s: State) {
    && WellFormed(s.snap)
    && 0.0 <= s.start
    && Logged(s.inserts, s.summaries)
    && (s.inserts != [] ==>
          && s.inserts[|s.inserts| - 1].columns <= s.snap.order
          && "TWS" in s.snap.vals && "TWA" in s.snap.vals)
    && (s.summaries != [] ==> HourOf(s.summaries[|s.summaries| - 1]) + 3600 <= HourStart(s.start))
  }

  /**
   * The clock never goes back: `start` is no later than the first
   * iteration's clock, each iteration reads its clocks in order, and the
   * next iteration reads no earlier than the last read of this one.
   */
  predicate Monotone(start: real, ticks: seq<Tick>)
    decreases |ticks|
  {
    ticks == [] ||
    (&& start <= ticks[0].now <= ticks[0].summaryClock <= ticks[0].restartClock
     && Monotone(ticks[0].restartClock, ticks[1..]))
  }

  lemma PrefixTrans<T>(a: seq<T>, b: seq<T>, c: seq<T>)
    requires a <= b && b <= c
    ensures a <= c
  {
    assert a == b[..|a|] && b == c[..|b|];
    assert c[..|b|][..|a|] == c[..|a|];
  }

  /** Appending a row whose columns extend every earlier row's keeps the columns chain. */
  lemma AppendInsert(inserts: seq<Insert>, ins: Insert)
    requires Logged(inserts, [])
    requires inserts != [] ==> inserts[|inserts| - 1].columns <= ins.columns
    requires "TWS" in ins.columns && "TWA" in ins.columns
    ensures Logged(inserts + [ins], [])
  {
    var all := inserts + [ins];
    forall i, j | 0 <= i < j < |all| ensures all[i].columns <= all[j].columns {
      if j == |inserts| && i < |inserts| - 1 {
        PrefixTrans(all[i].columns, inserts[|inserts| - 1].columns, ins.columns);
      }
    }
  }

  /** A summary hour later than every earlier one keeps the hours increasing. */
  lemma AppendSummary(summaries: seq<seq<Param>>, row: seq<Param>)
    requires Logged([], summaries)
    requires |row| == |SummaryColumns|
    requires summaries != [] ==> HourOf(summaries[|summaries| - 1]) < HourOf(row)
    ensures Logged([], summaries + [row])
  {
  }

  /** `Logged` is about the two tables separately. */
  lemma LoggedSplit(inserts: seq<Insert>, summaries: seq<seq<Param>>)
    ensures Logged(inserts, summaries) <==> Logged(inserts, []) && Logged([], summaries)
  {
  }

  /** An iteration without a flush keeps `Inv`: the snapshot only grows. */
  lemma NoFlushInv(s: State, snap: Dict)
    requires Inv(s)
    requires WellFormed(snap) && s.snap.order <= snap.order && s.snap.vals.Keys <= snap.vals.Keys
    ensures Inv(s.(snap := snap))
  {
    if s.inserts != [] {
      PrefixTrans(s.inserts[|s.inserts| - 1].columns, s.snap.order, snap.order);
    }
  }

  /**
   * A flush keeps the summary hours increasing, and the last summary an
   * hour before the new `start`'s hour.
   */
  lemma FlushSummaries(s: State, t: Tick, interval: int)
    requires Inv(s)
    requires s.start <= t.now <= t.summaryClock <= t.restartClock
    requires FlushDue(t.now, s.start, interval)
    ensures var summaries := Summarised(s.summaries, t, interval);
      && Logged([], summaries)
      && (summaries != [] ==> HourOf(summaries[|summaries| - 1]) + 3600 <= HourStart(Restart(t.restartClock)))
  {
    LoggedSplit(s.inserts, s.summaries);
    RestartSameHour(t.restartClock);
    HourStartMonotone(t.summaryClock, t.restartClock);
    if SummaryDue(t.now, interval) {
      var row := SummaryValues(Window(t.summaryClock).0, t.avg, t.last);
      assert HourOf(row) + 3600 == HourStart(t.summaryClock);
      FlushedSummaryIsNewHour(s.start, t.now, interval);
      HourStartMonotone(t.now, t.summaryClock);
      AppendSummary(s.summaries, row);
    } else if s.summaries != [] {
      HourStartMonotone(s.start, t.restartClock);
    }
  }

  /** What a successful flush iteration leaves behind. */
  lemma StepFlush(s: State, t: Tick, cfg: Config, snap: Dict)
    requires WellFormed(s.snap) && WellFormed(snap)
    requires t.chunk != [] && FlushDue(t.now, s.start, cfg.saveInterval)
    requires snap == Ingest(s.snap, Framed(t.chunk), cfg.parse)
    requires SendData(snap, NavigationColumns, cfg.toFloat, cfg.trueWind).Success?
    ensures var sent := SendData(snap, NavigationColumns, cfg.toFloat, cfg.trueWind).value;
      var summaries := Summarised(s.summaries, t, cfg.saveInterval);
      Step(s, t, cfg) == Running(State(sent.0, Restart(t.restartClock), s.inserts + [sent.1], summaries))
  {
  }

  /** `Inv` from its parts, the rows of each table separately. */
  lemma InvIntro(st: State)
    requires WellFormed(st.snap) && 0.0 <= st.start
    requires Logged(st.inserts, []) && Logged([], st.summaries)
    requires st.inserts != [] ==>
      && st.inserts[|st.inserts| - 1].columns <= st.snap.order
      && "TWS" in st.snap.vals && "TWA" in st.snap.vals
    requires st.summaries != [] ==>
      HourOf(st.summaries[|st.summaries| - 1]) + 3600 <= HourStart(st.start)
    ensures Inv(st)
  {
    LoggedSplit(st.inserts, st.summaries);
  }

  /**
   * A successful flush keeps `Inv`: `d` is the snapshot after the true
   * wind is added and `ins` the row written from it.
   */
  lemma FlushInv(s: State, t: Tick, interval: int, d: Dict, ins: Insert)
    requires Inv(s)
    requires s.start <= t.now <= t.summaryClock <= t.restartClock
    requires FlushDue(t.now, s.start, interval)
    requires WellFormed(d) && s.snap.order <= d.order
    requires "TWS" in d.vals && "TWA" in d.vals
    requires ins.columns == d.order
    ensures var summaries := Summarised(s.summaries, t, interval);
      Inv(State(d, Restart(t.restartClock), s.inserts + [ins], summaries))
  {
    var summaries := Summarised(s.summaries, t, interval);
    var st := State(d, Restart(t.restartClock), s.inserts + [ins], summaries);
    assert Logged(st.inserts, []) by {
      LoggedSplit(s.inserts, s.summaries);
      if s.inserts != [] {
        PrefixTrans(s.inserts[|s.inserts| - 1].columns, s.snap.order, d.order);
      }
      AppendInsert(s.inserts, ins);
    }
    assert Logged([], st.summaries)
        && (st.summaries != [] ==> HourOf(st.summaries[|st.summaries| - 1]) + 3600 <= HourStart(st.start)) by {
      LoggedSplit(s.inserts, s.summaries);
      FlushSummaries(s, t, interval);
    }
    assert st.inserts[|st.inserts| - 1] == ins;
    InvIntro(st);
  }

  /** An iteration keeps `Inv`, and leaves `start` no later than its last clock read. */
  lemma StepInv(s: State, t: Tick, cfg: Config)
    requires Inv(s)
    requires s.start <= t.now <= t.summaryClock <= t.restartClock
    ensures var o := Step(s, t, cfg);
      && (o.Running? ==> Inv(o.state) && o.state.start <= t.restartClock)
      && (o.Crashed? ==> Logged(o.inserts, o.summaries))
  {
    if t.chunk != [] {
      var snap := Ingest(s.snap, Framed(t.chunk), cfg.parse);
      IngestGrows(s.snap, Framed(t.chunk), cfg.parse);
      if !FlushDue(t.now, s.start, cfg.saveInterval) {
        NoFlushInv(s, snap);
      } else if SendData(snap, NavigationColumns, cfg.toFloat, cfg.trueWind).Success? {
        var sent := SendData(snap, NavigationColumns, cfg.toFloat, cfg.trueWind).value;
        FlushedSnapshot(snap, NavigationColumns, cfg.toFloat, cfg.trueWind);
        FlushInv(s, t, cfg.saveInterval, sent.0, sent.1);
        StepFlush(s, t, cfg, snap);
      }
    }
  }

  /** With a clock that never goes back, `Inv` holds after every iteration of a run. */
  lemma {:induction false} RunInv(s: State, ticks: seq<Tick>, cfg: Config)
    requires Inv(s)
    requires Monotone(s.start, ticks)
    ensures Run(s, ticks, cfg).Running? ==> Inv(Run(s, ticks, cfg).state)
    ensures Logged(Rows(Run(s, ticks, cfg)).0, Rows(Run(s, ticks, cfg)).1)
    decreases |ticks|
  {
    if ticks != [] {
      StepInv(s, ticks[0], cfg);
      match Step(s, ticks[0], cfg)
      case Crashed(_, _, _) =>
      case Running(s') =>
        RunInv(s', ticks[1..], cfg);
    }
  }

  /**
   * With a clock that never goes back, the summary rows a run writes have
   * strictly increasing hours: no hour is summarised twice.
   */
  lemma SummaryHoursIncrease(clock: real, ticks: seq<Tick>, cfg: Config)
    requires 0.0 <= clock
    requires Monotone(clock, ticks)
    ensures var summaries := Rows(Run(Initial(clock), ticks, cfg)).1;
      forall i, j :: 0 <= i < j < |summaries| ==> HourOf(summaries[i]) < HourOf(summaries[j])
  {
    RunInv(Initial(clock), ticks, cfg);
  }

  /**
   * Every navigation row a run writes holds TWS and TWA, and names every
   * column of the rows before it, in the same order: the snapshot is
   * never emptied between flushes.
   */
  lemma InsertColumnsGrow(clock: real, ticks: seq<Tick>, cfg: Config)
    requires 0.0 <= clock
    requires Monotone(clock, ticks)
    ensures var inserts := Rows(Run(Initial(clock), ticks, cfg)).0;
      && (forall i :: 0 <= i < |inserts| ==> "TWS" in inserts[i].columns && "TWA" in inserts[i].columns)
      && (forall i, j :: 0 <= i < j < |inserts| ==> inserts[i].columns <= inserts[j].columns)
  {
    RunInv(Initial(clock), ticks, cfg);
  }

  /** The snapshot is never cleared: a run only adds keys and keeps their order. */
  lemma {:induction false} SnapshotNeverCleared(s: State, ticks: seq<Tick>, cfg: Config)
    requires WellFormed(s.snap)
    ensures var o := Run(s, ticks, cfg);
      o.Running? ==> s.snap.order <= o.state.snap.order && s.snap.vals.Keys <= o.state.snap.vals.Keys
    decreases |ticks|
  {
    if ticks != [] {
      match Step(s, ticks[0], cfg)
      case Crashed(_, _, _) =>
      case Running(s') =>
        SnapshotNeverCleared(s', ticks[1..], cfg);
        var o := Run(s', ticks[1..], cfg);
        if o.Running? {
          PrefixTrans(s.snap.order, s'.snap.order, o.state.snap.order);
        }
    }
  }
}
