/**
 Incremental extraction over whole histories: rows arrive in a source table while runs of one
 pipeline, one at a time (max_active_runs=1), resolve their watermark, extract, and are recorded.
 */
module IncrementalRuns {
  import opened Wrappers
  import opened Watermark
  import opened PipelineRuns

  /** Where the current run is. */
  datatype Phase =
    | Idle
    | Resolved(incoming: Option<Watermark>, startedAt: int)
    | Extracted(startedAt: int, seen: nat, batch: seq<nat>, metrics: Option<MetricWatermark>)

  /**
   column: the source table so far. rows: the run records. batches: what the recorded successful
   runs extracted, first to last. covered: how many source rows existed when the last of them read
   that left nothing above the stored watermark.
   */
  datatype State = State(
    column: Column, rows: seq<RunRow>, phase: Phase, clock: int, nextId: nat,
    batches: seq<seq<nat>>, covered: nat)

  datatype Event =
    | Arrive(cell: Option<string>)
    | Begin(override: Option<string>, reachable: bool)
    | RunJob(succeeds: bool, fileAlways: bool)
    | Record(status: string, metricsRead: bool)
    | LoseRecord

  function Opening(column: Column): State {
    State(column, [], Idle, 0, 0, [], 0)
  }

  /** The type the compute job works with: the resolved watermark's, else the source object's own. */
  function JobType(p: Pipeline, incoming: Option<Watermark>): Option<WatermarkType> {
    if incoming.Some? then Some(incoming.value.type_) else p.objectType
  }

  function Started(s: State, incoming: Result<Option<Watermark>, string>): State {
    match incoming
    case Err(_) => s
    case Ok(w) => s.(phase := Resolved(w, s.clock), clock := s.clock + 1)
  }

  function Finished(e: Engine, s: State, w: Option<Watermark>, startedAt: int,
                    metrics: Result<Option<MetricWatermark>, string>, succeeds: bool): State {
    match metrics
    case Err(_) => s.(phase := Idle)
    case Ok(m) =>
      s.(phase := if succeeds then Extracted(startedAt, |s.column|, Batch(e, s.column, w), m) else Idle)
  }

  function Recorded(s: State, row: Result<RunRow, string>, seen: nat, batch: seq<nat>): State {
    match row
    case Err(_) => s.(phase := Idle)
    case Ok(r) =>
      var t := s.(rows := Saved(s.rows, r), phase := Idle, nextId := s.nextId + 1);
      if !Successful(r.status) then t
      else t.(batches := s.batches + [batch], covered := if r.watermark.Some? || batch == [] then seen else s.covered)
  }

  /** The metrics file is read softly: if it is missing or broken, the run is recorded without metrics. */
  function Delivered(metrics: Option<MetricWatermark>, metricsRead: bool): Option<MetricWatermark> {
    if metricsRead then metrics else None
  }

  function Step(e: Engine, p: Pipeline, s: State, ev: Event): State {
    match (ev, s.phase)
    case (Arrive(cell), _) => s.(column := s.column + [cell])
    case (Begin(override, reachable), Idle) =>
      Started(s, ResolveWatermarkContext(e, p, override, s.rows, reachable))
    case (RunJob(succeeds, fileAlways), Resolved(w, startedAt)) =>
      Finished(e, s, w, startedAt, CalculateMetrics(e, s.column, JobType(p, w), w, fileAlways), succeeds)
    case (Record(status, metricsRead), Extracted(startedAt, seen, batch, metrics)) =>
      Recorded(s, RowFor(e, RecordRequest(s.nextId, status, startedAt, Delivered(metrics, metricsRead))), seen, batch)
    case (LoseRecord, _) => s.(phase := Idle)
    case _ => s
  }

  function Run(e: Engine, p: Pipeline, s: State, events: seq<Event>): State {
    if events == [] then s else Step(e, p, Run(e, p, s, events[..|events| - 1]), events[|events| - 1])
  }

  function Stored(s: State): Option<Watermark> {
    FindLatestWatermark(s.rows)
  }

  function Flat(batches: seq<seq<nat>>): seq<nat> {
    if batches == [] then [] else Flat(batches[..|batches| - 1]) + batches[|batches| - 1]
  }

  // ---------- What the source must keep to ----------

  /** Stripping does not move the cell in the column's order. */
  ghost predicate Clean(e: Engine, cell: Option<string>) {
    cell.Some? ==> Same(e, Strip(cell.value), cell.value)
  }

  /** Rows read by a run that has been, or may still be, recorded as successful. */
  function Frontier(s: State): nat {
    if s.phase.Extracted? && s.phase.seen > s.covered then s.phase.seen else s.covered
  }

  /** The new row is above every row that a run has already read. */
  ghost predicate ArrivesAbove(e: Engine, s: State, cell: Option<string>) {
    cell.Some? && forall j :: 0 <= j < Frontier(s) && j < |s.column| && s.column[j].Some? ==> e.less(s.column[j].value, cell.value)
  }

  ghost predicate Orderly(e: Engine, s: State, ev: Event) {
    match ev
    case Arrive(cell) => Clean(e, cell) && ArrivesAbove(e, s, cell)
    case Begin(override, _) => !Given(override)
    case _ => true
  }

  /** Every event of the history is orderly in the state it meets. */
  ghost predicate OrderlyRun(e: Engine, p: Pipeline, s: State, events: seq<Event>) {
    events == [] || (
      && OrderlyRun(e, p, s, events[..|events| - 1])
      && Orderly(e, Run(e, p, s, events[..|events| - 1]), events[|events| - 1]))
  }

  ghost predicate AllClean(e: Engine, column: Column) {
    forall i :: 0 <= i < |column| ==> Clean(e, column[i])
  }

  // ---------- The invariant ----------

  /** The initial value as the watermark it parses to, None when the pipeline declares none. */
  function Floor(e: Engine, p: Pipeline): Option<Watermark> {
    if Given(p.initialValue) then
      match Parse(e, p.initialValue, p.declaredType)
      case Ok(w) => Some(w)
      case Err(_) => None
    else None
  }

  predicate Above(e: Engine, p: Pipeline, cell: Option<string>) {
    Selected(e, Floor(e, p), cell)
  }

  /** The row numbers in front of n that lie above the initial value. */
  function Due(e: Engine, p: Pipeline, column: Column, n: nat): seq<nat>
    requires n <= |column|
  {
    Batch(e, column[..n], Floor(e, p))
  }

  /** w is as good as the initial value, or as a row in front of n that lies above it. */
  ghost predicate Anchored(e: Engine, p: Pipeline, column: Column, n: nat, w: Option<Watermark>) {
    || w == Floor(e, p)
    || (w.Some? && Floor(e, p).Some? && Same(e, w.value.value, Floor(e, p).value.value))
    || (w.Some? && exists j :: AnchorRow(e, p, column, n, w.value.value, j))
  }

  ghost predicate AnchorRow(e: Engine, p: Pipeline, column: Column, n: nat, v: string, j: int) {
    0 <= j < n && j < |column| && column[j].Some? && Same(e, v, column[j].value) && Above(e, p, column[j])
  }

  /** w splits the table at n: nothing in front of n lies above w. */
  ghost predicate CutsAt(e: Engine, p: Pipeline, column: Column, n: nat, w: Option<Watermark>) {
    && n <= |column|
    && Anchored(e, p, column, n, w)
    && forall i :: 0 <= i < n ==> !Selected(e, w, column[i])
  }

  /** Rows from n on are above every row in front of n. */
  ghost predicate Staggered(e: Engine, column: Column, n: nat) {
    forall j, i :: 0 <= j < n <= i < |column| ==> Behind(e, column[j], column[i])
  }

  predicate Behind(e: Engine, earlier: Option<string>, later: Option<string>) {
    later.Some? && (earlier.Some? ==> e.less(earlier.value, later.value))
  }

  /** Behind a cut, being above w and being above the initial value are the same. */
  lemma BehindTheCut(e: Engine, p: Pipeline, column: Column, n: nat, w: Option<Watermark>, i: nat)
    requires Ordered(e) && CutsAt(e, p, column, n, w) && Staggered(e, column, n)
    requires n <= i < |column|
    ensures Selected(e, w, column[i]) <==> Above(e, p, column[i])
  {
    if w != Floor(e, p) && !(Floor(e, p).Some? && Same(e, w.value.value, Floor(e, p).value.value)) {
      var j :| AnchorRow(e, p, column, n, w.value.value, j);
      assert Behind(e, column[j], column[i]);
    }
  }

  /** What the next run would start from: the stored watermark, else the initial value. */
  function Effective(e: Engine, p: Pipeline, s: State): Option<Watermark> {
    if Stored(s).Some? then Stored(s) else Floor(e, p)
  }

  /** What recording the finished job as successful would leave as the next starting point. */
  function Upcoming(e: Engine, p: Pipeline, s: State): Option<Watermark>
    requires s.phase.Extracted?
  {
    var m := s.phase.metrics;
    if m.Some? && m.value.value.Some? then Some(Watermark(Strip(m.value.value.value), m.value.type_))
    else Effective(e, p, s)
  }

  ghost predicate RowsInOrder(e: Engine, s: State) {
    && (forall i :: 0 <= i < |s.rows| ==> s.rows[i].id < s.nextId)
    && (forall i :: 0 <= i < |s.rows| ==> s.rows[i].startedAt < (if s.phase.Idle? then s.clock else s.phase.startedAt))
    && (!s.phase.Idle? ==> s.phase.startedAt < s.clock)
    && (forall i :: 0 <= i < |s.rows| && s.rows[i].watermark.Some? ==> IsParsed(s.rows[i].watermark.value))
  }

  predicate IsParsed(w: Watermark) {
    w.value != "" && Strip(w.value) == w.value
  }

  ghost predicate PhaseInv(e: Engine, p: Pipeline, s: State) {
    match s.phase
    case Idle => true
    case Resolved(incoming, _) => incoming == Effective(e, p, s)
    case Extracted(_, seen, batch, metrics) =>
      && s.covered <= seen <= |s.column|
      && Staggered(e, s.column, seen)
      && Due(e, p, s.column, seen) == Due(e, p, s.column, s.covered) + batch
      && (Reports(metrics) ==> CutsAt(e, p, s.column, seen, Upcoming(e, p, s)))
      && (batch == [] ==> CutsAt(e, p, s.column, seen, Effective(e, p, s)))
      && (batch != [] ==> (Reports(metrics) <==> HasValue(s.column, batch)))
  }

  /** The metrics carry a watermark value. */
  predicate Reports(metrics: Option<MetricWatermark>) {
    metrics.Some? && metrics.value.value.Some?
  }

  /** Some row of the batch is not NULL in the watermark column. */
  ghost predicate HasValue(column: Column, batch: seq<nat>) {
    exists i :: i in batch && i < |column| && column[i].Some?
  }

  ghost predicate Inv(e: Engine, p: Pipeline, s: State) {
    && AllClean(e, s.column)
    && s.covered <= |s.column|
    && Staggered(e, s.column, s.covered)
    && CutsAt(e, p, s.column, s.covered, Effective(e, p, s))
    && RowsInOrder(e, s)
    && PhaseInv(e, p, s)
  }

  lemma OpeningInv(e: Engine, p: Pipeline, column: Column)
    requires AllClean(e, column)
    ensures Inv(e, p, Opening(column))
  {
  }

  // ---------- Rows arrive ----------

  lemma CutsAtLonger(e: Engine, p: Pipeline, column: Column, n: nat, w: Option<Watermark>, cell: Option<string>)
    requires CutsAt(e, p, column, n, w)
    ensures CutsAt(e, p, column + [cell], n, w)
  {
    if exists j :: w.Some? && AnchorRow(e, p, column, n, w.value.value, j) {
      var j :| w.Some? && AnchorRow(e, p, column, n, w.value.value, j);
      assert AnchorRow(e, p, column + [cell], n, w.value.value, j);
    }
  }

  /** A job's batch lies in the rows it has seen. */
  lemma BatchWithin(e: Engine, p: Pipeline, s: State)
    requires s.phase.Extracted? && PhaseInv(e, p, s)
    ensures forall i :: i in s.phase.batch ==> i < s.phase.seen && Above(e, p, s.column[i])
  {
    hide Batch, CutsAt, Staggered;
    BatchIs(e, s.column[..s.phase.seen], Floor(e, p));
    forall i | i in s.phase.batch
      ensures i in Due(e, p, s.column, s.phase.seen)
    {
    }
  }

  lemma ArriveKeepsInv(e: Engine, p: Pipeline, s: State, cell: Option<string>)
    requires Inv(e, p, s) && Orderly(e, s, Arrive(cell))
    ensures Inv(e, p, Step(e, p, s, Arrive(cell)))
  {
    hide CutsAt, Batch, Floor, FindLatestWatermark, Strip, HasValue, Staggered;
    var t := Step(e, p, s, Arrive(cell));
    CutsAtLonger(e, p, s.column, s.covered, Effective(e, p, s), cell);
    assert t.column[..s.covered] == s.column[..s.covered];
    if s.phase.Extracted? {
      assert t.column[..s.phase.seen] == s.column[..s.phase.seen];
      if Reports(s.phase.metrics) {
        CutsAtLonger(e, p, s.column, s.phase.seen, Upcoming(e, p, s), cell);
      }
      if s.phase.batch == [] {
        CutsAtLonger(e, p, s.column, s.phase.seen, Effective(e, p, s), cell);
      }
      BatchWithin(e, p, s);
      HasValueLonger(s.column, s.phase.batch, cell);
      StaggeredLonger(e, s.column, s.phase.seen, cell);
    }
    StaggeredLonger(e, s.column, s.covered, cell);
  }

  lemma StaggeredLonger(e: Engine, column: Column, n: nat, cell: Option<string>)
    requires Staggered(e, column, n) && n <= |column| && cell.Some?
    requires forall j :: 0 <= j < n && column[j].Some? ==> e.less(column[j].value, cell.value)
    ensures Staggered(e, column + [cell], n)
  {
    var longer := column + [cell];
    forall j, i | 0 <= j < n <= i < |longer|
      ensures Behind(e, longer[j], longer[i])
    {
      assert longer[j] == column[j];
      if i < |column| {
        assert longer[i] == column[i];
      }
    }
  }

  lemma HasValueLonger(column: Column, batch: seq<nat>, cell: Option<string>)
    requires forall i :: i in batch ==> i < |column|
    ensures HasValue(column + [cell], batch) <==> HasValue(column, batch)
  {
    if HasValue(column, batch) {
      var i :| i in batch && i < |column| && column[i].Some?;
      assert (column + [cell])[i].Some?;
    }
  }

  // ---------- A run resolves its watermark ----------

  lemma StoredIsParsed(e: Engine, s: State)
    requires RowsInOrder(e, s)
    ensures Stored(s).Some? ==> IsParsed(Stored(s).value)
  {
    LatestRowIs(s.rows);
  }

  lemma BeginKeepsInv(e: Engine, p: Pipeline, s: State, override: Option<string>, reachable: bool)
    requires Inv(e, p, s) && !Given(override)
    ensures Inv(e, p, Step(e, p, s, Begin(override, reachable)))
  {
    hide CutsAt, Staggered, AllClean;
    StoredIsParsed(e, s);
  }

  // ---------- A job extracts ----------

  lemma NothingSelected(e: Engine, column: Column, w: Option<Watermark>)
    requires forall i :: 0 <= i < |column| ==> !Selected(e, w, column[i])
    ensures Batch(e, column, w) == []
  {
  }

  /** Behind a cut a job reads exactly what is due and has not been read. */
  lemma {:induction false} BatchIsTheRestOfDue(e: Engine, p: Pipeline, column: Column, n: nat, w: Option<Watermark>, m: nat)
    requires Ordered(e) && CutsAt(e, p, column, n, w) && Staggered(e, column, n)
    requires n <= m <= |column|
    ensures Batch(e, column[..m], Floor(e, p)) == Batch(e, column[..n], Floor(e, p)) + Batch(e, column[..m], w)
  {
    if m == n {
      NothingSelected(e, column[..n], w);
    } else {
      BatchIsTheRestOfDue(e, p, column, n, w, m - 1);
      assert column[..m][..m - 1] == column[..m - 1];
      BehindTheCut(e, p, column, n, w, m - 1);
    }
  }

  /** The maximum of a non-empty batch, stripped, cuts the whole table. */
  lemma MaximumCuts(e: Engine, p: Pipeline, column: Column, n: nat, w: Option<Watermark>, v: string, t: WatermarkType)
    requires Ordered(e) && CutsAt(e, p, column, n, w) && Staggered(e, column, n) && AllClean(e, column)
    requires MaxCell(e, column, w) == Some(v)
    ensures CutsAt(e, p, column, |column|, Some(Watermark(Strip(v), t)))
    ensures CutsAt(e, p, column, |column|, Some(Watermark(Strip(Strip(v)), t)))
  {
    StripTwice(v);
    MaxCellIs(e, column, w);
    var k :| 0 <= k < |column| && column[k] == Some(v) && Selected(e, w, column[k]);
    assert Clean(e, column[k]);
    BehindTheCut(e, p, column, n, w, k);
    assert AnchorRow(e, p, column, |column|, Strip(v), k);
    forall i | 0 <= i < |column| && column[i].Some?
      ensures !e.less(Strip(v), column[i].value)
    {
      assert Clean(e, column[i]);
      if e.less(Strip(v), column[i].value) {
        assert e.less(v, column[i].value);
        assert Selected(e, w, column[i]);
      }
    }
  }

  lemma EmptyBatchCuts(e: Engine, p: Pipeline, column: Column, n: nat, w: Option<Watermark>)
    requires CutsAt(e, p, column, n, w) && Batch(e, column, w) == []
    ensures CutsAt(e, p, column, |column|, w)
  {
    BatchIs(e, column, w);
    if exists j :: w.Some? && AnchorRow(e, p, column, n, w.value.value, j) {
      var j :| w.Some? && AnchorRow(e, p, column, n, w.value.value, j);
      assert AnchorRow(e, p, column, |column|, w.value.value, j);
    }
  }

  /** Cutting depends on the value of a watermark, not on its type. */
  lemma CutsByValue(e: Engine, p: Pipeline, column: Column, n: nat, w: Watermark, t: WatermarkType)
    requires Ordered(e) && CutsAt(e, p, column, n, Some(w))
    ensures CutsAt(e, p, column, n, Some(Watermark(w.value, t)))
  {
    if Some(w) == Floor(e, p) {
      assert Same(e, w.value, w.value);
    }
  }

  lemma EffectiveIsParsed(e: Engine, p: Pipeline, s: State)
    requires RowsInOrder(e, s)
    ensures Effective(e, p, s).Some? ==> IsParsed(Effective(e, p, s).value)
  {
    StoredIsParsed(e, s);
    if Given(p.initialValue) {
      StripTwice(p.initialValue.value);
    }
  }

  /**
   Recording what a job reports leaves a cut of the whole table. A job that read something reports
   a watermark unless all it read was NULL; then, and only then, the rows it read stay due.
   */
  lemma MetricsCut(e: Engine, p: Pipeline, column: Column, n: nat, w: Option<Watermark>, type_: Option<WatermarkType>, fileAlways: bool)
    requires Ordered(e) && CutsAt(e, p, column, n, w) && Staggered(e, column, n) && AllClean(e, column)
    requires CalculateMetrics(e, column, type_, w, fileAlways).Ok?
    requires w.Some? ==> IsParsed(w.value)
    ensures var m := CalculateMetrics(e, column, type_, w, fileAlways).value;
      && (Reports(m) ==> CutsAt(e, p, column, |column|, Some(Watermark(Strip(m.value.value.value), m.value.type_))))
      && (Batch(e, column, w) == [] ==> CutsAt(e, p, column, |column|, w))
      && (Batch(e, column, w) != [] ==> (Reports(m) <==> HasValue(column, Batch(e, column, w))))
  {
    hide CutsAt, Staggered, AllClean, Batch, MaxCell, HasValue, Strip;
    var m := CalculateMetrics(e, column, type_, w, fileAlways).value;
    if Batch(e, column, w) == [] {
      EmptyBatchCuts(e, p, column, n, w);
      if w.Some? && m.Some? {
        CutsByValue(e, p, column, |column|, w.value, m.value.type_);
      }
    } else {
      MaximumIff(e, column, w);
      if MaxCell(e, column, w).Some? {
        MaximumCuts(e, p, column, n, w, MaxCell(e, column, w).value, m.value.type_);
      }
    }
  }

  /** A non-empty batch has a maximum iff it has a value, and under a watermark it always has one. */
  lemma MaximumIff(e: Engine, column: Column, w: Option<Watermark>)
    requires Ordered(e) && Batch(e, column, w) != []
    ensures MaxCell(e, column, w).Some? <==> HasValue(column, Batch(e, column, w))
    ensures w.Some? ==> MaxCell(e, column, w).Some?
  {
    BatchIs(e, column, w);
    MaxCellIs(e, column, w);
    var i := Batch(e, column, w)[0];
    assert i in Batch(e, column, w);
  }

  lemma RunJobKeepsInv(e: Engine, p: Pipeline, s: State, succeeds: bool, fileAlways: bool)
    requires Ordered(e) && Inv(e, p, s)
    ensures Inv(e, p, Step(e, p, s, RunJob(succeeds, fileAlways)))
  {
    hide CutsAt, Batch, CalculateMetrics, AllClean, HasValue;
    if s.phase.Resolved? {
      var w := s.phase.incoming;
      var t := Step(e, p, s, RunJob(succeeds, fileAlways));
      if t.phase.Extracted? {
        EffectiveIsParsed(e, p, s);
        MetricsCut(e, p, s.column, s.covered, w, JobType(p, w), fileAlways);
        BatchIsTheRestOfDue(e, p, s.column, s.covered, w, |s.column|);
        assert s.column[..|s.column|] == s.column;
        assert Effective(e, p, t) == Effective(e, p, s);
      }
    }
  }

  // ---------- A run is recorded ----------

  /** A record that counts becomes the stored watermark; any other leaves it alone. */
  lemma StoredAfterRecord(e: Engine, s: State, status: string, startedAt: int, metrics: Option<MetricWatermark>)
    requires RowsInOrder(e, s) && !s.phase.Idle? && startedAt == s.phase.startedAt
    requires RowFor(e, RecordRequest(s.nextId, status, startedAt, metrics)).Ok?
    ensures var row := RowFor(e, RecordRequest(s.nextId, status, startedAt, metrics)).value;
      && FindLatestWatermark(Saved(s.rows, row)) == (if Counts(row) then row.watermark else Stored(s))
      && Saved(s.rows, row) == s.rows + [row]
      && (row.watermark.Some? ==> IsParsed(row.watermark.value))
  {
    var row := RowFor(e, RecordRequest(s.nextId, status, startedAt, metrics)).value;
    assert Find(s.rows, row.id).None?;
    LatestAfterSave(s.rows, row);
    if metrics.Some? && metrics.value.value.Some? {
      StripTwice(metrics.value.value.value);
    }
  }

  lemma RecordKeepsInv(e: Engine, p: Pipeline, s: State, status: string, metricsRead: bool)
    requires Inv(e, p, s)
    ensures Inv(e, p, Step(e, p, s, Record(status, metricsRead)))
  {
    hide CutsAt, Staggered, AllClean, Due, Saved, HasValue, RowFor, FindLatestWatermark, RowsInOrder;
    if s.phase.Extracted? {
      var metrics := Delivered(s.phase.metrics, metricsRead);
      var q := RecordRequest(s.nextId, status, s.phase.startedAt, metrics);
      if RowFor(e, q).Ok? {
        RecordedRow(e, p, s, status, metricsRead);
      } else {
        AbandonedRun(e, s);
      }
    } else {
      assert Step(e, p, s, Record(status, metricsRead)) == s;
    }
  }

  lemma AbandonedRun(e: Engine, s: State)
    requires RowsInOrder(e, s)
    ensures RowsInOrder(e, s.(phase := Idle))
  {
  }

  lemma RecordedRow(e: Engine, p: Pipeline, s: State, status: string, metricsRead: bool)
    requires RowsInOrder(e, s) && s.phase.Extracted?
    requires RowFor(e, RecordRequest(s.nextId, status, s.phase.startedAt, Delivered(s.phase.metrics, metricsRead))).Ok?
    ensures var t := Step(e, p, s, Record(status, metricsRead));
      var row := RowFor(e, RecordRequest(s.nextId, status, s.phase.startedAt, Delivered(s.phase.metrics, metricsRead))).value;
      && t.phase.Idle? && RowsInOrder(e, t)
      && (row.watermark.Some? ==>
            Successful(row.status) && Reports(s.phase.metrics) && Effective(e, p, t) == Upcoming(e, p, s))
      && (row.watermark.None? ==> Effective(e, p, t) == Effective(e, p, s))
  {
    hide Saved;
    StoredAfterRecord(e, s, status, s.phase.startedAt, Delivered(s.phase.metrics, metricsRead));
  }

  lemma StepKeepsInv(e: Engine, p: Pipeline, s: State, ev: Event)
    requires Ordered(e) && Inv(e, p, s) && Orderly(e, s, ev)
    ensures Inv(e, p, Step(e, p, s, ev))
  {
    hide Step;
    match ev
    case Arrive(cell) => ArriveKeepsInv(e, p, s, cell);
    case Begin(override, reachable) => BeginKeepsInv(e, p, s, override, reachable);
    case RunJob(succeeds, fileAlways) => RunJobKeepsInv(e, p, s, succeeds, fileAlways);
    case Record(status, metricsRead) => RecordKeepsInv(e, p, s, status, metricsRead);
    case LoseRecord => LoseKeepsInv(e, p, s);
  }

  lemma LoseKeepsInv(e: Engine, p: Pipeline, s: State)
    requires Inv(e, p, s)
    ensures Inv(e, p, Step(e, p, s, LoseRecord))
  {
    hide CutsAt, Staggered, AllClean, Due;
    assert Effective(e, p, Step(e, p, s, LoseRecord)) == Effective(e, p, s);
  }

  lemma {:induction false} RunKeepsInv(e: Engine, p: Pipeline, s: State, events: seq<Event>)
    requires Ordered(e) && Inv(e, p, s) && OrderlyRun(e, p, s, events)
    ensures Inv(e, p, Run(e, p, s, events))
  {
    hide Inv, Step;
    if events != [] {
      RunKeepsInv(e, p, s, events[..|events| - 1]);
      StepKeepsInv(e, p, Run(e, p, s, events[..|events| - 1]), events[|events| - 1]);
    }
  }

  // ---------- The stored watermark never goes back ----------

  /** Two cuts of one table, the second further on: the second watermark is not below the first. */
  lemma CutsDoNotGoBack(e: Engine, p: Pipeline, column: Column, n: nat, v: Watermark, m: nat, w: Watermark)
    requires Ordered(e) && n <= m
    requires CutsAt(e, p, column, n, Some(v)) && CutsAt(e, p, column, m, Some(w))
    ensures !e.less(w.value, v.value)
  {
    if exists j :: AnchorRow(e, p, column, n, v.value, j) {
      var j :| AnchorRow(e, p, column, n, v.value, j);
      assert !Selected(e, Some(w), column[j]);
    } else if exists j :: AnchorRow(e, p, column, m, w.value, j) {
      var j :| AnchorRow(e, p, column, m, w.value, j);
      assert e.less(Floor(e, p).value.value, column[j].value);
    }
  }

  lemma StoredNeverGoesBack(e: Engine, p: Pipeline, s: State, ev: Event)
    requires Ordered(e) && Inv(e, p, s) && Orderly(e, s, ev) && Stored(s).Some?
    ensures var t := Step(e, p, s, ev);
      Stored(t).Some? && !e.less(Stored(t).value.value, Stored(s).value.value)
  {
    hide Staggered, AllClean, Due, CutsAt;
    StepKeepsInv(e, p, s, ev);
    var t := Step(e, p, s, ev);
    if s.phase.Extracted? && ev.Record? && t.rows != s.rows {
      StoredAfterRecord(e, s, ev.status, s.phase.startedAt, Delivered(s.phase.metrics, ev.metricsRead));
      CutsDoNotGoBack(e, p, s.column, s.covered, Stored(s).value, t.covered, Stored(t).value);
    }
  }

  /** Over any orderly history the stored watermark only rises. */
  lemma {:induction false} StoredOnlyRises(e: Engine, p: Pipeline, s: State, events: seq<Event>)
    requires Ordered(e) && Inv(e, p, s) && OrderlyRun(e, p, s, events) && Stored(s).Some?
    ensures var t := Run(e, p, s, events);
      Stored(t).Some? && !e.less(Stored(t).value.value, Stored(s).value.value)
  {
    hide Inv, Step, Stored, Orderly;
    if events != [] {
      var front := events[..|events| - 1];
      StoredOnlyRises(e, p, s, front);
      RunKeepsInv(e, p, s, front);
      StoredNeverGoesBack(e, p, Run(e, p, s, front), events[|events| - 1]);
    }
  }

  /** Only a record with status success or partial touches the stored watermark and the batches. */
  lemma FailedRunsLeaveNoTrace(e: Engine, p: Pipeline, s: State, ev: Event)
    requires RowsInOrder(e, s)
    requires ev.Record? ==> ev.status !in {"success", "partial"}
    ensures var t := Step(e, p, s, ev);
      Stored(t) == Stored(s) && t.batches == s.batches && t.covered == s.covered
  {
    hide Saved;
    if ev.Record? && s.phase.Extracted? {
      var f := s.phase;
      var metrics := Delivered(f.metrics, ev.metricsRead);
      RowForIs(e, RecordRequest(s.nextId, ev.status, f.startedAt, metrics));
      if RowFor(e, RecordRequest(s.nextId, ev.status, f.startedAt, metrics)).Ok? {
        StoredAfterRecord(e, s, ev.status, f.startedAt, metrics);
      }
    }
  }

  /** And such a record adds the batch, and stores the maximum its metrics report if they are read and it parses. */
  lemma CountedRunsAreStored(e: Engine, p: Pipeline, s: State, status: string, metricsRead: bool)
    requires RowsInOrder(e, s) && s.phase.Extracted? && status in {"success", "partial"}
    ensures var t := Step(e, p, s, Record(status, metricsRead));
      var reported := if metricsRead && s.phase.metrics.Some? then s.phase.metrics.value.value else None;
      && (reported.None? ==> t.batches == s.batches + [s.phase.batch] && Stored(t) == Stored(s))
      && (reported.Some? && Parse(e, reported, s.phase.metrics.value.type_).Ok? ==>
            && t.batches == s.batches + [s.phase.batch]
            && Stored(t) == Some(Watermark(Strip(reported.value), s.phase.metrics.value.type_)))
      && (reported.Some? && Parse(e, reported, s.phase.metrics.value.type_).Err? ==>
            t.batches == s.batches && Stored(t) == Stored(s))
  {
    hide Saved, Strip, LatestRow;
    var metrics := Delivered(s.phase.metrics, metricsRead);
    RowForIs(e, RecordRequest(s.nextId, status, s.phase.startedAt, metrics));
    if RowFor(e, RecordRequest(s.nextId, status, s.phase.startedAt, metrics)).Ok? {
      StoredAfterRecord(e, s, status, s.phase.startedAt, metrics);
    }
  }

  // ---------- Rows that arrive too late ----------

  /** Row i is at or below the stored watermark and no run under way has read it. */
  ghost predicate Bypassed(e: Engine, p: Pipeline, s: State, i: nat) {
    && RowsInOrder(e, s)
    && i < |s.column| && Stored(s).Some? && !Selected(e, Stored(s), s.column[i])
    && match s.phase
       case Idle => true
       case Resolved(incoming, _) => incoming == Stored(s)
       case Extracted(_, _, batch, _) => i !in batch && !Selected(e, Upcoming(e, p, s), s.column[i])
  }

  lemma BypassedMetrics(e: Engine, column: Column, w: Watermark, type_: Option<WatermarkType>, fileAlways: bool, i: nat)
    requires Ordered(e) && AllClean(e, column) && IsParsed(w) && i < |column| && !Selected(e, Some(w), column[i])
    requires CalculateMetrics(e, column, type_, Some(w), fileAlways).Ok?
    ensures var m := CalculateMetrics(e, column, type_, Some(w), fileAlways).value;
      m.Some? && m.value.value.Some? ==> !Selected(e, Some(Watermark(Strip(m.value.value.value), m.value.type_)), column[i])
  {
    if Batch(e, column, Some(w)) != [] {
      MaximumIff(e, column, Some(w));
      MaxCellIs(e, column, Some(w));
      var v := MaxCell(e, column, Some(w)).value;
      StripTwice(v);
      var k :| 0 <= k < |column| && column[k] == Some(v) && Selected(e, Some(w), column[k]);
      assert Clean(e, column[k]) && Clean(e, column[i]);
    }
  }

  lemma BypassedStep(e: Engine, p: Pipeline, s: State, ev: Event, i: nat)
    requires Ordered(e) && AllClean(e, s.column) && Bypassed(e, p, s, i)
    requires ev.Begin? ==> !Given(ev.override)
    ensures var t := Step(e, p, s, ev);
      && Bypassed(e, p, t, i)
      && (t.batches == s.batches || (t.batches != [] && t.batches[..|t.batches| - 1] == s.batches && i !in t.batches[|t.batches| - 1]))
  {
    if ev.RunJob? {
      BypassedJob(e, p, s, ev, i);
    } else if ev.Record? {
      BypassedRecord(e, p, s, ev, i);
    } else {
      hide CalculateMetrics, Saved, LatestRow, Strip, Batch, Floor;
      StoredIsParsed(e, s);
    }
  }

  lemma BypassedJob(e: Engine, p: Pipeline, s: State, ev: Event, i: nat)
    requires Ordered(e) && AllClean(e, s.column) && Bypassed(e, p, s, i) && ev.RunJob?
    ensures Bypassed(e, p, Step(e, p, s, ev), i) && Step(e, p, s, ev).batches == s.batches
  {
    hide CalculateMetrics, LatestRow, Strip, Batch, Floor, AllClean;
    StoredIsParsed(e, s);
    if s.phase.Resolved? && CalculateMetrics(e, s.column, JobType(p, s.phase.incoming), s.phase.incoming, ev.fileAlways).Ok? {
      BypassedMetrics(e, s.column, Stored(s).value, JobType(p, s.phase.incoming), ev.fileAlways, i);
      BatchIs(e, s.column, s.phase.incoming);
    }
  }

  lemma BypassedRecord(e: Engine, p: Pipeline, s: State, ev: Event, i: nat)
    requires Bypassed(e, p, s, i) && ev.Record?
    ensures var t := Step(e, p, s, ev);
      && Bypassed(e, p, t, i)
      && (t.batches == s.batches || (t.batches != [] && t.batches[..|t.batches| - 1] == s.batches && i !in t.batches[|t.batches| - 1]))
  {
    hide Saved, LatestRow, Strip, Floor;
    if s.phase.Extracted? {
      var f := s.phase;
      var metrics := Delivered(f.metrics, ev.metricsRead);
      if RowFor(e, RecordRequest(s.nextId, ev.status, f.startedAt, metrics)).Ok? {
        StoredAfterRecord(e, s, ev.status, f.startedAt, metrics);
        assert (s.batches + [f.batch])[..|s.batches|] == s.batches;
      }
    }
  }

  /** Every row that arrives is clean; nothing is asked about when it arrives. */
  ghost predicate CleanArrivals(e: Engine, events: seq<Event>) {
    forall k :: 0 <= k < |events| ==>
      match events[k]
      case Arrive(cell) => Clean(e, cell)
      case Begin(override, _) => !Given(override)
      case _ => true
  }

  lemma StepKeepsClean(e: Engine, p: Pipeline, s: State, ev: Event)
    requires AllClean(e, s.column) && (ev.Arrive? ==> Clean(e, ev.cell))
    ensures AllClean(e, Step(e, p, s, ev).column)
    ensures |s.column| <= |Step(e, p, s, ev).column|
    ensures forall i :: 0 <= i < |s.column| ==> Step(e, p, s, ev).column[i] == s.column[i]
  {
  }

  /**
   The converse of exactly once: a row at or below the stored watermark that no recorded run has
   read - one that committed late, or that ties with the maximum - is never extracted, whatever
   happens next.
   */
  lemma {:induction false} LateRowIsNeverExtracted(e: Engine, p: Pipeline, s: State, events: seq<Event>, i: nat)
    requires Ordered(e) && AllClean(e, s.column) && RowsInOrder(e, s) && s.phase.Idle?
    requires CleanArrivals(e, events)
    requires i < |s.column| && i !in Flat(s.batches)
    requires Stored(s).Some? && !Selected(e, Stored(s), s.column[i])
    ensures var t := Run(e, p, s, events);
      AllClean(e, t.column) && Bypassed(e, p, t, i) && i !in Flat(t.batches)
  {
    hide Step, Bypassed, AllClean;
    if events == [] {
      BypassedNow(e, p, s, i);
    } else {
      var front, ev := events[..|events| - 1], events[|events| - 1];
      assert CleanArrivals(e, front) && (ev.Arrive? ==> Clean(e, ev.cell)) && (ev.Begin? ==> !Given(ev.override)) by {
        assert events[|events| - 1] == ev;
        assert forall k :: 0 <= k < |front| ==> front[k] == events[k];
      }
      LateRowIsNeverExtracted(e, p, s, front, i);
      var t := Run(e, p, s, front);
      StepKeepsClean(e, p, t, ev);
      BypassedStep(e, p, t, ev, i);
    }
  }

  lemma BypassedNow(e: Engine, p: Pipeline, s: State, i: nat)
    requires RowsInOrder(e, s) && s.phase.Idle?
    requires i < |s.column| && Stored(s).Some? && !Selected(e, Stored(s), s.column[i])
    ensures Bypassed(e, p, s, i)
  {
  }

  /** One successful run from an idle state: it extracts row i iff the row is above the starting point. */
  lemma NextRunExtractsIff(e: Engine, p: Pipeline, s: State, fileAlways: bool, metricsRead: bool, i: nat)
    requires s.phase.Idle? && i < |s.column|
    requires var t := Run3(e, p, s, fileAlways, metricsRead);
      |t.batches| == |s.batches| + 1
    ensures var t := Run3(e, p, s, fileAlways, metricsRead);
      && t.batches[..|s.batches|] == s.batches
      && ResolveWatermarkContext(e, p, None, s.rows, true).Ok?
      && (i in t.batches[|s.batches|] <==> Selected(e, ResolveWatermarkContext(e, p, None, s.rows, true).value, s.column[i]))
  {
    hide CalculateMetrics, RowFor, Saved, ResolveWatermarkContext;
    var s1 := Step(e, p, s, Begin(None, true));
    if s1.phase.Resolved? {
      BatchIs(e, s.column, s1.phase.incoming);
    }
  }

  /** A run with an override reads exactly the rows above it, whatever is stored and whether or not the platform answers. */
  lemma OverrideRunExtractsIff(e: Engine, p: Pipeline, s: State, override: string, reachable: bool, i: nat)
    requires s.phase.Idle? && i < |s.column| && Parse(e, Some(override), p.declaredType).Ok?
    requires Step(e, p, Step(e, p, s, Begin(Some(override), reachable)), RunJob(true, true)).phase.Extracted?
    ensures var t := Step(e, p, Step(e, p, s, Begin(Some(override), reachable)), RunJob(true, true));
      i in t.phase.batch <==> s.column[i].Some? && e.less(Strip(override), s.column[i].value)
  {
    hide CalculateMetrics, Strip;
    OverrideWins(e, p, override, s.rows, reachable);
    BatchIs(e, s.column, Some(Watermark(Strip(override), p.declaredType)));
  }

  function Run3(e: Engine, p: Pipeline, s: State, fileAlways: bool, metricsRead: bool): State {
    Step(e, p, Step(e, p, Step(e, p, s, Begin(None, true)), RunJob(true, fileAlways)), Record("success", metricsRead))
  }

  // ---------- The type of the stored watermark ----------

  /** The type every recorded watermark has when no run is given an override. */
  function WrittenType(p: Pipeline): WatermarkType {
    if Given(p.initialValue) then p.declaredType else if p.objectType.Some? then p.objectType.value else STRING
  }

  ghost predicate TypesInv(e: Engine, p: Pipeline, s: State) {
    && (forall i :: 0 <= i < |s.rows| && s.rows[i].watermark.Some? ==>
          && s.rows[i].watermark.value.type_ == WrittenType(p)
          && Readable(e, s.rows[i].watermark.value))
    && match s.phase
       case Idle => true
       case Resolved(incoming, _) =>
         if incoming.Some? then incoming.value.type_ == WrittenType(p) else !Given(p.initialValue)
       case Extracted(_, _, _, metrics) => metrics.Some? ==> metrics.value.type_ == WrittenType(p)
  }

  /** The stored text still parses to the watermark it came from. */
  predicate Readable(e: Engine, w: Watermark) {
    w.value != "" && Parse(e, Some(w.value), w.type_) == Ok(w)
  }

  ghost predicate NoOverrides(events: seq<Event>) {
    forall k :: 0 <= k < |events| && events[k].Begin? ==> !Given(events[k].override)
  }

  lemma SavedKeepsTypes(e: Engine, p: Pipeline, rows: seq<RunRow>, row: RunRow)
    requires forall i :: 0 <= i < |rows| && rows[i].watermark.Some? ==>
      rows[i].watermark.value.type_ == WrittenType(p) && Readable(e, rows[i].watermark.value)
    requires row.watermark.Some? ==> row.watermark.value.type_ == WrittenType(p) && Readable(e, row.watermark.value)
    ensures var after := Saved(rows, row);
      forall i :: 0 <= i < |after| && after[i].watermark.Some? ==>
        after[i].watermark.value.type_ == WrittenType(p) && Readable(e, after[i].watermark.value)
  {
    hide Readable, WrittenType;
  }

  lemma StepKeepsTypes(e: Engine, p: Pipeline, s: State, ev: Event)
    requires TypesInv(e, p, s) && (ev.Begin? ==> !Given(ev.override))
    ensures TypesInv(e, p, Step(e, p, s, ev))
  {
    hide Batch, MaxCell, Saved, LatestRow, Strip, Readable;
    match ev
    case Arrive(_) =>
    case LoseRecord =>
    case RunJob(_, _) =>
    case Begin(_, _) => LatestRowIs(s.rows);
    case Record(status, metricsRead) =>
      if s.phase.Extracted? {
        var q := RecordRequest(s.nextId, status, s.phase.startedAt, Delivered(s.phase.metrics, metricsRead));
        if RowFor(e, q).Ok? {
          RecordedIsReadable(e, q);
          SavedKeepsTypes(e, p, s.rows, RowFor(e, q).value);
        }
      }
  }

  lemma RecordedIsReadable(e: Engine, q: RecordRequest)
    requires RowFor(e, q).Ok?
    ensures RowFor(e, q).value.watermark.Some? ==>
      && Readable(e, RowFor(e, q).value.watermark.value)
      && q.metrics.Some? && RowFor(e, q).value.watermark.value.type_ == q.metrics.value.type_
  {
    if RowFor(e, q).value.watermark.Some? {
      ParseTwice(e, q.metrics.value.value, q.metrics.value.type_);
    }
  }

  lemma {:induction false} RunKeepsTypes(e: Engine, p: Pipeline, column: Column, events: seq<Event>)
    requires NoOverrides(events)
    ensures TypesInv(e, p, Run(e, p, Opening(column), events))
  {
    hide TypesInv, Step;
    if events == [] {
      OpeningTypes(e, p, column);
    } else {
      RunKeepsTypes(e, p, column, events[..|events| - 1]);
      assert events[|events| - 1].Begin? ==> !Given(events[|events| - 1].override);
      StepKeepsTypes(e, p, Run(e, p, Opening(column), events[..|events| - 1]), events[|events| - 1]);
    }
  }

  lemma OpeningTypes(e: Engine, p: Pipeline, column: Column)
    ensures TypesInv(e, p, Opening(column))
  {
  }

  /**
   Over every history without overrides, a stored watermark has the declared type iff there is an
   initial value, or the source object is given the declared type, or it is given none and the
   declared type is STRING.
   */
  lemma StoredTypeIff(e: Engine, p: Pipeline, column: Column, events: seq<Event>)
    requires NoOverrides(events) && Stored(Run(e, p, Opening(column), events)).Some?
    ensures Stored(Run(e, p, Opening(column), events)).value.type_ == p.declaredType
       <==> Given(p.initialValue) || p.objectType == Some(p.declaredType) || (p.objectType.None? && p.declaredType == STRING)
  {
    var s := Run(e, p, Opening(column), events);
    RunKeepsTypes(e, p, column, events);
    LatestRowIs(s.rows);
  }

  /**
   After any such history a reachable platform lets the next run start iff, once a watermark is
   stored, those types agree, and before that, the initial value is readable if there is one.
   */
  lemma NextRunStartsIff(e: Engine, p: Pipeline, column: Column, events: seq<Event>)
    requires NoOverrides(events) && Run(e, p, Opening(column), events).phase.Idle?
    ensures var s := Run(e, p, Opening(column), events);
      Step(e, p, s, Begin(None, true)).phase.Resolved?
      <==> if Stored(s).Some? then WrittenType(p) == p.declaredType
           else Given(p.initialValue) ==> Parse(e, p.initialValue, p.declaredType).Ok?
  {
    hide Run, LatestRow;
    var s := Run(e, p, Opening(column), events);
    RunKeepsTypes(e, p, column, events);
    LatestRowIs(s.rows);
  }

  /** The declared type and the object's type are one field of the pipeline; without it the former is TIMESTAMP. */
  predicate FromOneField(p: Pipeline) {
    p.objectType == Some(p.declaredType) || (p.objectType.None? && p.declaredType == TIMESTAMP)
  }

  /** So a pipeline blocks itself iff it has neither the field nor an initial value. */
  lemma OneFieldBlocksIff(p: Pipeline)
    requires FromOneField(p)
    ensures WrittenType(p) != p.declaredType <==> p.objectType.None? && !Given(p.initialValue)
  {
  }

  /**
   Once the stored watermark has another type than the pipeline declares, no run without override
   ever starts again: the run table and the batches stay as they are for ever.
   */
  lemma {:induction false} TypeMismatchBlocksForEver(e: Engine, p: Pipeline, s: State, events: seq<Event>)
    requires s.phase.Idle? && Stored(s).Some? && Stored(s).value.type_ != p.declaredType
    requires forall k :: 0 <= k < |events| && events[k].Begin? ==> !Given(events[k].override)
    ensures var t := Run(e, p, s, events);
      t.phase.Idle? && t.rows == s.rows && t.batches == s.batches
  {
    if events != [] {
      TypeMismatchBlocksForEver(e, p, s, events[..|events| - 1]);
    }
  }

  /** The way there: a first run with neither initial value nor object type reports its maximum as a string. */
  lemma UntypedFirstRunStoresString(e: Engine, p: Pipeline, column: Column, v: string, fileAlways: bool)
    requires p.objectType.None? && !Given(p.initialValue)
    requires MaxCell(e, column, None) == Some(v) && Strip(v) != ""
    ensures var s := Run3(e, p, Opening(column), fileAlways, true);
      s.phase.Idle? && Stored(s) == Some(Watermark(Strip(v), STRING))
  {
    hide MaxCell, Batch, Strip, Step, Recorded;
    var s1 := Opening(column).(phase := Resolved(None, 0), clock := 1);
    assert Step(e, p, Opening(column), Begin(None, true)) == s1 by {
      FirstBegin(e, p, column);
    }
    FirstJob(e, p, s1, v, fileAlways);
    FirstRecord(e, p, Step(e, p, s1, RunJob(true, fileAlways)), v);
  }

  lemma FirstBegin(e: Engine, p: Pipeline, column: Column)
    requires !Given(p.initialValue)
    ensures Step(e, p, Opening(column), Begin(None, true)) == Opening(column).(phase := Resolved(None, 0), clock := 1)
  {
  }

  lemma FirstJob(e: Engine, p: Pipeline, s: State, v: string, fileAlways: bool)
    requires p.objectType.None? && s.phase == Resolved(None, 0) && MaxCell(e, s.column, None) == Some(v)
    ensures Step(e, p, s, RunJob(true, fileAlways))
         == s.(phase := Extracted(0, |s.column|, Batch(e, s.column, None), Some(MetricWatermark(STRING, Some(v)))))
  {
    hide MaxCell, Batch;
    MaximumMeansRows(e, s.column);
  }

  lemma FirstRecord(e: Engine, p: Pipeline, s: State, v: string)
    requires s.phase.Extracted? && s.phase.startedAt == 0 && s.nextId == 0 && s.rows == [] && Strip(v) != ""
    requires s.phase.metrics == Some(MetricWatermark(STRING, Some(v)))
    ensures var t := Step(e, p, s, Record("success", true));
      t.phase.Idle? && Stored(t) == Some(Watermark(Strip(v), STRING))
  {
    hide Strip;
    var row := RunRow(0, 0, SUCCESS, Some(Watermark(Strip(v), STRING)));
    assert RowFor(e, RecordRequest(0, "success", 0, s.phase.metrics)) == Ok(row);
    LatestAfterSave([], row);
  }

  lemma MaximumMeansRows(e: Engine, column: Column)
    requires MaxCell(e, column, None).Some?
    ensures Batch(e, column, None) != []
  {
  }
}
