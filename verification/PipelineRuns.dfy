/**
 Pipeline run records: the repository that keeps them
 (app/infrastructure/persistence/repositories/sql_pipeline_run_repository.py), the use case that
 writes them (app/application/pipelines/record_pipeline_run_use_case.py) and the read that starts
 the next run (app/infrastructure/airflow_callbacks/ingestion_callbacks.py).
 */
module PipelineRuns {
  import opened Wrappers
  import opened Watermark

  datatype PipelineRunStatus = RUNNING | SUCCESS | FAILED | QUALITY_FAILED | PARTIAL

  function StatusOf(s: string): Option<PipelineRunStatus> {
    if s == "running" then Some(RUNNING)
    else if s == "success" then Some(SUCCESS)
    else if s == "failed" then Some(FAILED)
    else if s == "quality_failed" then Some(QUALITY_FAILED)
    else if s == "partial" then Some(PARTIAL)
    else None
  }

  predicate Successful(s: PipelineRunStatus) {
    s.SUCCESS? || s.PARTIAL?
  }

  datatype RunRow = RunRow(id: nat, startedAt: int, status: PipelineRunStatus, watermark: Option<Watermark>)

  // ---------- The run table ----------

  function Find(rows: seq<RunRow>, id: nat): (r: Option<nat>)
    ensures match r
            case Some(i) => i < |rows| && rows[i].id == id && forall j :: 0 <= j < i ==> rows[j].id != id
            case None => forall j :: 0 <= j < |rows| ==> rows[j].id != id
  {
    if rows == [] then None
    else
      match Find(rows[..|rows| - 1], id)
      case Some(i) => Some(i)
      case None => if rows[|rows| - 1].id == id then Some(|rows| - 1) else None
  }

  /** save: a new id is appended; a known one is overwritten but keeps its watermark if the new record has none. */
  function Saved(rows: seq<RunRow>, run: RunRow): seq<RunRow> {
    match Find(rows, run.id)
    case None => rows + [run]
    case Some(i) => rows[i := if run.watermark.None? then run.(watermark := rows[i].watermark) else run]
  }

  predicate Counts(r: RunRow) {
    Successful(r.status) && r.watermark.Some?
  }

  /** The first row of `... WHERE status IN (success, partial) AND watermark IS NOT NULL ORDER BY started_at DESC`. */
  function LatestRow(rows: seq<RunRow>): Option<RunRow> {
    if rows == [] then None
    else
      var best := LatestRow(rows[..|rows| - 1]);
      var r := rows[|rows| - 1];
      if Counts(r) && (best.None? || r.startedAt > best.value.startedAt) then Some(r) else best
  }

  lemma LatestRowIs(rows: seq<RunRow>)
    ensures LatestRow(rows).None? <==> forall i :: 0 <= i < |rows| ==> !Counts(rows[i])
    ensures LatestRow(rows).Some? ==>
      && LatestRow(rows).value in rows && Counts(LatestRow(rows).value)
      && forall i :: 0 <= i < |rows| && Counts(rows[i]) ==> rows[i].startedAt <= LatestRow(rows).value.startedAt
    ensures forall r :: Counts(r) <==> r.status in {SUCCESS, PARTIAL} && r.watermark.Some?
  {
    if rows != [] {
      LatestRowIs(rows[..|rows| - 1]);
    }
  }

  function FindLatestWatermark(rows: seq<RunRow>): Option<Watermark> {
    match LatestRow(rows)
    case None => None
    case Some(r) => if r.watermark.None? || r.watermark.value.value == "" then None else r.watermark
  }

  /** The watermark found is that of a counted run that started last, unless its text is empty. */
  lemma FindLatestWatermarkIs(rows: seq<RunRow>)
    ensures match FindLatestWatermark(rows)
      case Some(w) =>
        && w.value != ""
        && exists r :: && r in rows && r.status in {SUCCESS, PARTIAL} && r.watermark == Some(w)
                       && forall q :: q in rows && q.status in {SUCCESS, PARTIAL} && q.watermark.Some? ==> q.startedAt <= r.startedAt
      case None =>
        || (forall q :: q in rows ==> q.status !in {SUCCESS, PARTIAL} || q.watermark.None?)
        || exists r :: && r in rows && r.status in {SUCCESS, PARTIAL} && r.watermark.Some? && r.watermark.value.value == ""
                       && forall q :: q in rows && q.status in {SUCCESS, PARTIAL} && q.watermark.Some? ==> q.startedAt <= r.startedAt
  {
    LatestRowIs(rows);
    assert forall q :: q in rows ==> exists i :: 0 <= i < |rows| && rows[i] == q;
  }

  /** A run that starts after all others and has no watermark leaves the stored one alone; otherwise it replaces it. */
  lemma LatestAfterSave(rows: seq<RunRow>, run: RunRow)
    requires Find(rows, run.id).None?
    requires forall i :: 0 <= i < |rows| ==> rows[i].startedAt < run.startedAt
    ensures LatestRow(Saved(rows, run)) == if Counts(run) then Some(run) else LatestRow(rows)
  {
    LatestRowIs(rows);
    assert (rows + [run])[..|rows|] == rows;
  }

  /** Reporting a recorded run again without its watermark does not lose the watermark. */
  lemma ResaveWithoutWatermark(rows: seq<RunRow>, i: nat)
    requires i < |rows| && forall j :: 0 <= j < i ==> rows[j].id != rows[i].id
    ensures Saved(rows, rows[i].(watermark := None)) == rows
  {
    assert Find(rows, rows[i].id) == Some(i);
  }

  // ---------- Recording a run ----------

  datatype RecordRequest = RecordRequest(
    runId: nat, status: string, startedAt: int, metrics: Option<MetricWatermark>)

  /** The watermark a finished run reports, if its status lets it report one. */
  function DeriveWatermark(e: Engine, status: PipelineRunStatus, metrics: Option<MetricWatermark>)
    : Result<Option<Watermark>, string>
  {
    if Successful(status) && metrics.Some? && metrics.value.value.Some? then
      match Parse(e, metrics.value.value, metrics.value.type_)
      case Ok(w) => Ok(Some(w))
      case Err(error) => Err(error)
    else Ok(None)
  }

  function RowFor(e: Engine, q: RecordRequest): Result<RunRow, string> {
    match StatusOf(q.status)
    case None => Err("invalid status")
    case Some(status) =>
      match DeriveWatermark(e, status, q.metrics)
      case Err(error) => Err(error)
      case Ok(w) => Ok(RunRow(q.runId, q.startedAt, status, w))
  }

  /** The texts a run can report; only two of them let it keep a watermark, and those keep the one reported. */
  lemma RowForIs(e: Engine, q: RecordRequest)
    ensures var reported := if q.metrics.Some? then q.metrics.value.value else None;
      var row := RowFor(e, q);
      if q.status == "success" || q.status == "partial" then
        && (row.Ok? <==> reported.Some? ==> Parse(e, reported, q.metrics.value.type_).Ok?)
        && (row.Ok? ==> row.value == RunRow(q.runId, q.startedAt, if q.status == "success" then SUCCESS else PARTIAL,
              if reported.None? then None else Some(Watermark(Strip(reported.value), q.metrics.value.type_))))
      else if q.status == "running" then row == Ok(RunRow(q.runId, q.startedAt, RUNNING, None))
      else if q.status == "failed" then row == Ok(RunRow(q.runId, q.startedAt, FAILED, None))
      else if q.status == "quality_failed" then row == Ok(RunRow(q.runId, q.startedAt, QUALITY_FAILED, None))
      else row.Err?
  {
  }

  class PipelineRunRepository {
    var rows: seq<RunRow>

    constructor ()
      ensures rows == []
    {
      rows := [];
    }

    method Save(run: RunRow) returns (saved: RunRow)
      modifies this
      ensures rows == Saved(old(rows), run)
      ensures saved in rows && saved == run.(watermark := saved.watermark)
      ensures (forall i :: 0 <= i < |old(rows)| ==> old(rows)[i].id != run.id) ==> rows == old(rows) + [run] && saved == run
      ensures forall i :: 0 <= i < |old(rows)| && old(rows)[i].id == run.id && (forall j :: 0 <= j < i ==> old(rows)[j].id != run.id) ==>
        && rows == old(rows)[i := saved]
        && saved.watermark == (if run.watermark.Some? then run.watermark else old(rows)[i].watermark)
    {
      var existing := Find(rows, run.id);
      match existing {
        case None =>
          saved := run;
          rows := rows + [run];
        case Some(i) =>
          saved := if run.watermark.None? then run.(watermark := rows[i].watermark) else run;
          rows := rows[i := saved];
          assert rows[i] == saved;
      }
    }
  }

  class PipelineRunFile {
    var pipelineRunId: Option<nat>

    constructor ()
      ensures pipelineRunId == None
    {
      pipelineRunId := None;
    }
  }

  class RecordPipelineRunUseCase {
    const repo: PipelineRunRepository

    constructor (repo: PipelineRunRepository)
      ensures this.repo == repo
    {
      this.repo := repo;
    }

    /** Writes one record and claims the run's files, or raises and changes nothing. */
    method Execute(e: Engine, q: RecordRequest, files: seq<PipelineRunFile>) returns (r: Result<RunRow, string>)
      modifies repo, set f | f in files
      ensures r.Ok? <==> RowFor(e, q).Ok?
      ensures q.status !in {"success", "partial", "running", "failed", "quality_failed"} ==> r.Err?
      ensures q.status == "running" ==> r.Ok? && repo.rows == Saved(old(repo.rows), RunRow(q.runId, q.startedAt, RUNNING, None))
      ensures q.status == "failed" ==> r.Ok? && repo.rows == Saved(old(repo.rows), RunRow(q.runId, q.startedAt, FAILED, None))
      ensures q.status == "quality_failed" ==>
        r.Ok? && repo.rows == Saved(old(repo.rows), RunRow(q.runId, q.startedAt, QUALITY_FAILED, None))
      ensures r.Err? ==> repo.rows == old(repo.rows) && forall f :: f in files ==> f.pipelineRunId == old(f.pipelineRunId)
      ensures r.Ok? ==>
        && repo.rows == Saved(old(repo.rows), RowFor(e, q).value)
        && r.value in repo.rows && r.value.id == q.runId
        && forall f :: f in files ==> f.pipelineRunId == Some(q.runId)
    {
      var status := StatusOf(q.status);
      if status.None? {
        return Err("invalid status");
      }
      var watermark := None;
      if Successful(status.value) && q.metrics.Some? && q.metrics.value.value.Some? {
        var parsed := Parse(e, q.metrics.value.value, q.metrics.value.type_);
        if parsed.Err? {
          return Err(parsed.error);
        }
        watermark := Some(parsed.value);
      }
      var run := RunRow(q.runId, q.startedAt, status.value, watermark);
      var saved := repo.Save(run);
      for i := 0 to |files|
        invariant repo.rows == Saved(old(repo.rows), run) && saved in repo.rows
        invariant forall j :: 0 <= j < i ==> files[j].pipelineRunId == Some(q.runId)
      {
        files[i].pipelineRunId := Some(saved.id);
      }
      r := Ok(saved);
    }
  }

  // ---------- Starting the next run ----------

  predicate Given(s: Option<string>) {
    s.Some? && Strip(s.value) != ""
  }

  /** GET .../watermark: the stored row read back, or a failure of the request itself. */
  function GetLastWatermark(e: Engine, rows: seq<RunRow>, reachable: bool): Result<Option<Watermark>, string> {
    if !reachable then Err("platform API unreachable")
    else match FindLatestWatermark(rows)
      case None => Ok(None)
      case Some(w) =>
        match Parse(e, Some(w.value), w.type_)
        case Ok(v) => Ok(Some(v))
        case Err(error) => Err(error)
  }

  datatype Pipeline = Pipeline(
    declaredType: WatermarkType, initialValue: Option<string>, objectType: Option<WatermarkType>)

  /** Override first, then the stored value, then the initial value, then none. */
  function ResolveWatermarkContext(
    e: Engine, p: Pipeline, override: Option<string>, rows: seq<RunRow>, reachable: bool)
    : Result<Option<Watermark>, string>
  {
    if Given(override) then
      match Parse(e, override, p.declaredType)
      case Ok(w) => Ok(Some(w))
      case Err(error) => Err(error)
    else
      match GetLastWatermark(e, rows, reachable)
      case Err(error) => Err(error)
      case Ok(Some(stored)) => if stored.type_ != p.declaredType then Err("type mismatch") else Ok(Some(stored))
      case Ok(None) =>
        if Given(p.initialValue) then
          match Parse(e, p.initialValue, p.declaredType)
          case Ok(w) => Ok(Some(w))
          case Err(error) => Err(error)
        else Ok(None)
  }

  /** An override that is not blank settles the start: no run record, no request and no initial value is looked at. */
  lemma OverrideWins(e: Engine, p: Pipeline, override: string, rows: seq<RunRow>, reachable: bool)
    ensures var r := ResolveWatermarkContext(e, p, Some(override), rows, reachable);
      if exists k :: 0 <= k < |override| && override[k] !in {' ', '\t', '\n', '\r'} then
        if p.declaredType.STRING? || e.accepts(p.declaredType, Strip(override))
        then r == Ok(Some(Watermark(Strip(override), p.declaredType))) else r.Err?
      else r == ResolveWatermarkContext(e, p, None, rows, reachable)
  {
    ParseIff(e, Some(override), p.declaredType);
    StripIs(override);
  }

  /** Without an override: an unreachable platform raises, a stored watermark comes before the initial value. */
  lemma ResolvesWithoutOverride(e: Engine, p: Pipeline, rows: seq<RunRow>)
    ensures ResolveWatermarkContext(e, p, None, rows, false).Err?
    ensures var r := ResolveWatermarkContext(e, p, None, rows, true);
      match FindLatestWatermark(rows)
      case Some(w) =>
        (r.Ok? <==> w.type_ == p.declaredType && Parse(e, Some(w.value), w.type_).Ok?)
        && (r.Ok? ==> r.value == Some(Watermark(Strip(w.value), p.declaredType)))
      case None =>
        if p.initialValue.Some? && (exists k :: 0 <= k < |p.initialValue.value| && p.initialValue.value[k] !in {' ', '\t', '\n', '\r'})
        then
          (r.Ok? <==> Parse(e, p.initialValue, p.declaredType).Ok?)
          && (r.Ok? ==> r.value == Some(Watermark(Strip(p.initialValue.value), p.declaredType)))
        else r == Ok(None)
  {
    hide LatestRow;
    if p.initialValue.Some? {
      StripIs(p.initialValue.value);
    }
  }
}
