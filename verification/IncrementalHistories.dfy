/**
 Concrete histories of incremental runs in which rows come twice, or never, and pipelines stop.
 The order of their column is one the theorems admit.
 */
module IncrementalHistories {
  import opened Wrappers
  import opened Watermark
  import opened PipelineRuns
  import opened IncrementalRuns

  /** Texts ordered by their length. */
  const BY_LENGTH := Engine((t, s) => true, (a, b) => |a| < |b|)

  /** A column of texts, no initial value. */
  const PLAIN := Pipeline(STRING, None, Some(STRING))

  lemma ByLengthIsOrdered()
    ensures Ordered(BY_LENGTH)
  {
  }

  function RunEvents(metricsRead: bool): seq<Event> {
    [Begin(None, true), RunJob(true, true), Record("success", metricsRead)]
  }

  lemma Snoc(e: Engine, p: Pipeline, s: State, front: seq<Event>, ev: Event)
    ensures Run(e, p, s, front + [ev]) == Step(e, p, Run(e, p, s, front), ev)
    ensures OrderlyRun(e, p, s, front + [ev]) <==> OrderlyRun(e, p, s, front) && Orderly(e, Run(e, p, s, front), ev)
  {
    assert (front + [ev])[..|front|] == front;
  }

  /** The three events of a run. */
  lemma OneMoreRun(p: Pipeline, s: State, front: seq<Event>, metricsRead: bool)
    ensures Run(BY_LENGTH, p, s, front + RunEvents(metricsRead)) == Run3(BY_LENGTH, p, Run(BY_LENGTH, p, s, front), true, metricsRead)
    ensures OrderlyRun(BY_LENGTH, p, s, front) ==> OrderlyRun(BY_LENGTH, p, s, front + RunEvents(metricsRead))
  {
    hide Step, Run, OrderlyRun;
    var one, two := front + [Begin(None, true)], front + [Begin(None, true)] + [RunJob(true, true)];
    Snoc(BY_LENGTH, p, s, front, Begin(None, true));
    Snoc(BY_LENGTH, p, s, one, RunJob(true, true));
    Snoc(BY_LENGTH, p, s, two, Record("success", metricsRead));
    assert front + RunEvents(metricsRead) == two + [Record("success", metricsRead)];
  }

  /** What one successful run does, from any idle state. */
  lemma RunDoes(p: Pipeline, s: State, w: Option<Watermark>, m: Option<MetricWatermark>, metricsRead: bool)
    requires s.phase.Idle? && RowsInOrder(BY_LENGTH, s)
    requires ResolveWatermarkContext(BY_LENGTH, p, None, s.rows, true) == Ok(w)
    requires CalculateMetrics(BY_LENGTH, s.column, JobType(p, w), w, true) == Ok(m)
    requires Reports(m) ==> Strip(m.value.value.value) != ""
    ensures var t := Run3(BY_LENGTH, p, s, true, metricsRead);
      && t.phase.Idle? && RowsInOrder(BY_LENGTH, t) && t.column == s.column
      && t.batches == s.batches + [Batch(BY_LENGTH, s.column, w)]
      && Stored(t) == if metricsRead && Reports(m) then Some(Watermark(Strip(m.value.value.value), m.value.type_)) else Stored(s)
  {
    hide Batch, CalculateMetrics, Strip, Saved, LatestRow, ResolveWatermarkContext;
    var s1 := Step(BY_LENGTH, p, s, Begin(None, true));
    var s2 := Step(BY_LENGTH, p, s1, RunJob(true, true));
    StoredAfterRecord(BY_LENGTH, s2, "success", s.clock, Delivered(m, metricsRead));
  }

  /** A run of PLAIN starts from what is stored. */
  lemma PlainResolves(s: State)
    requires Stored(s).Some? ==> Stored(s).value.type_ == STRING && IsParsed(Stored(s).value)
    ensures ResolveWatermarkContext(BY_LENGTH, PLAIN, None, s.rows, true) == Ok(Stored(s))
  {
    hide Strip, LatestRow;
  }

  /** One row and no watermark: it is read, and its text reported. */
  lemma OneRowReported(cell: Option<string>, type_: Option<WatermarkType>)
    requires type_ == None || type_ == Some(STRING)
    requires cell.Some? ==> Strip(cell.value) != ""
    ensures Batch(BY_LENGTH, [cell], None) == [0]
    ensures CalculateMetrics(BY_LENGTH, [cell], type_, None, true)
         == Ok(Some(MetricWatermark(STRING,
                                    if cell.None? then None else if type_.None? then cell else Some(Strip(cell.value)))))
  {
    hide Strip;
    assert [cell][..0] == [];
    assert Batch(BY_LENGTH, [], None) == [] && MaxCell(BY_LENGTH, [], None) == None;
  }

  lemma StrippedTexts()
    ensures Strip("bb") == "bb" && Strip("b ") == "b" && Strip("b") == "b"
  {
    assert "bb"[..2] == "bb" && "b "[..1] == "b";
    assert StripRight("b ") == StripRight("b");
  }

  // ---------- Rows that come twice ----------

  /** A success recorded without its metrics: the next run reads the row again. */
  lemma LostMetricsReadTwice()
    ensures var events := [] + RunEvents(false) + RunEvents(true);
      && Ordered(BY_LENGTH) && AllClean(BY_LENGTH, [Some("bb")]) && OrderlyRun(BY_LENGTH, PLAIN, Opening([Some("bb")]), events)
      && Flat(Run(BY_LENGTH, PLAIN, Opening([Some("bb")]), events).batches) == [0, 0]
  {
    hide Strip, Batch, CalculateMetrics, ResolveWatermarkContext, Run, OrderlyRun, Run3, Stored;
    ByLengthIsOrdered();
    StrippedTexts();
    TwoRunsFromNothing(Some("bb"), false);
  }

  /** Two runs over one row that both start without a watermark. */
  lemma TwoRunsFromNothing(cell: Option<string>, metricsRead: bool)
    requires cell.Some? ==> Strip(cell.value) != "" && !metricsRead
    ensures var events := [] + RunEvents(metricsRead) + RunEvents(true);
      && OrderlyRun(BY_LENGTH, PLAIN, Opening([cell]), events)
      && Flat(Run(BY_LENGTH, PLAIN, Opening([cell]), events).batches) == [0, 0]
  {
    var o := Opening([cell]);
    assert Run(BY_LENGTH, PLAIN, o, []) == o && Stored(o) == None;
    hide Strip, Batch, CalculateMetrics, ResolveWatermarkContext, Run, OrderlyRun, Run3, Stored;
    OneRowReported(cell, Some(STRING));
    var m := CalculateMetrics(BY_LENGTH, [cell], Some(STRING), None, true).value;
    PlainResolves(o);
    StrippedAgain(cell);
    RunDoes(PLAIN, o, None, m, metricsRead);
    OneMoreRun(PLAIN, o, [], metricsRead);
    var s1 := Run(BY_LENGTH, PLAIN, o, [] + RunEvents(metricsRead));
    PlainResolves(s1);
    RunDoes(PLAIN, s1, None, m, true);
    OneMoreRun(PLAIN, o, [] + RunEvents(metricsRead), true);
    TwoBatches();
  }

  lemma StrippedAgain(cell: Option<string>)
    requires cell.Some? ==> Strip(cell.value) != ""
    ensures cell.Some? ==> Strip(Strip(cell.value)) != ""
  {
    if cell.Some? {
      StripTwice(cell.value);
    }
  }

  lemma TwoBatches()
    ensures Flat([] + [[0]] + [[0]]) == [0, 0]
  {
    assert ([] + [[0]] + [[0]])[..1] == [[0]] && [[0]][..0] == [];
  }

  function Runs(n: nat): seq<Event> {
    if n == 0 then [] else Runs(n - 1) + RunEvents(true)
  }

  /** A table that holds only a NULL is read again by every run. */
  lemma {:induction false} NullsComeForEver(n: nat)
    ensures var s := Run(BY_LENGTH, PLAIN, Opening([None]), Runs(n));
      && Ordered(BY_LENGTH) && OrderlyRun(BY_LENGTH, PLAIN, Opening([None]), Runs(n))
      && s.phase.Idle? && RowsInOrder(BY_LENGTH, s) && s.column == [None] && Stored(s) == None
      && s.batches == seq(n, _ => [0])
  {
    ByLengthIsOrdered();
    var o := Opening([None]);
    if n == 0 {
      assert Run(BY_LENGTH, PLAIN, o, []) == o;
    } else {
      NullsComeForEver(n - 1);
      hide Strip, Batch, CalculateMetrics, ResolveWatermarkContext, Run, OrderlyRun, Run3, Stored, RowsInOrder;
      var s := Run(BY_LENGTH, PLAIN, o, Runs(n - 1));
      OneRowReported(None, Some(STRING));
      PlainResolves(s);
      RunDoes(PLAIN, s, None, Some(MetricWatermark(STRING, None)), true);
      OneMoreRun(PLAIN, o, Runs(n - 1), true);
      assert seq(n, _ => [0]) == seq(n - 1, _ => [0]) + [[0]];
    }
  }

  /** Rows whose text loses its last blank: the maximum moves down, and the row comes again. */
  lemma BlankReadTwice()
    ensures var events := [] + RunEvents(true) + RunEvents(true);
      && Ordered(BY_LENGTH) && !AllClean(BY_LENGTH, [Some("b ")])
      && Flat(Run(BY_LENGTH, PLAIN, Opening([Some("b ")]), events).batches) == [0, 0]
    ensures var m := MaxCell(BY_LENGTH, [Some("b ")], None);
      && m == Some("b ") && BY_LENGTH.less(Strip("b "), "b ")
      && Batch(BY_LENGTH, [Some("b ")], Some(Watermark(Strip("b "), STRING))) == [0]
  {
    var column := [Some("b ")];
    ByLengthIsOrdered();
    StrippedTexts();
    assert column[..0] == [];
    assert Clean(BY_LENGTH, column[0]) ==> Same(BY_LENGTH, "b", "b ");
    var o := Opening(column);
    var b := Some(Watermark("b", STRING));
    BatchAgain(column, b);
    assert Run(BY_LENGTH, PLAIN, o, []) == o && Stored(o) == None;
    hide Strip, Batch, CalculateMetrics, ResolveWatermarkContext, Run, OrderlyRun, Run3, Stored;
    OneRowReported(column[0], Some(STRING));
    var m := Some(MetricWatermark(STRING, Some("b")));
    PlainResolves(o);
    RunDoes(PLAIN, o, None, m, true);
    OneMoreRun(PLAIN, o, [], true);
    var s1 := Run(BY_LENGTH, PLAIN, o, [] + RunEvents(true));
    PlainResolves(s1);
    RunDoes(PLAIN, s1, b, m, true);
    OneMoreRun(PLAIN, o, [] + RunEvents(true), true);
    TwoBatches();
  }

  lemma BatchAgain(column: Column, w: Option<Watermark>)
    requires column == [Some("b ")] && w == Some(Watermark("b", STRING))
    ensures Batch(BY_LENGTH, column, w) == [0]
    ensures CalculateMetrics(BY_LENGTH, column, Some(STRING), w, true) == Ok(Some(MetricWatermark(STRING, Some("b"))))
  {
    StrippedTexts();
    hide Strip;
    assert column[..0] == [];
    assert Batch(BY_LENGTH, [], w) == [] && MaxCell(BY_LENGTH, [], w) == None;
  }

  // ---------- Rows that never come ----------

  lemma ArrivalKeepsRecords(s: State, late: string)
    requires RowsInOrder(BY_LENGTH, s)
    ensures var t := Step(BY_LENGTH, PLAIN, s, Arrive(Some(late)));
      && t == s.(column := s.column + [Some(late)]) && Stored(t) == Stored(s) && RowsInOrder(BY_LENGTH, t)
  {
  }

  lemma NothingAboveTwoLetters(column: Column, w: Option<Watermark>)
    requires |column| == 2 && w == Some(Watermark("bb", STRING))
    requires forall i :: 0 <= i < 2 ==> column[i].Some? && |column[i].value| <= 2
    ensures Batch(BY_LENGTH, column, w) == []
    ensures CalculateMetrics(BY_LENGTH, column, Some(STRING), w, true) == Ok(Some(MetricWatermark(STRING, Some("bb"))))
  {
    NothingSelected(BY_LENGTH, column, w);
  }

  lemma AfterTheFirstRun()
    ensures var s := Run(BY_LENGTH, PLAIN, Opening([Some("bb")]), [] + RunEvents(true));
      && s.phase.Idle? && RowsInOrder(BY_LENGTH, s) && s.column == [Some("bb")] && s.batches == [[0]]
      && Stored(s) == Some(Watermark("bb", STRING))
  {
    var o := Opening([Some("bb")]);
    StrippedTexts();
    assert Run(BY_LENGTH, PLAIN, o, []) == o && Stored(o) == None;
    hide Strip, Batch, CalculateMetrics, ResolveWatermarkContext, Run, OrderlyRun, Run3, Stored;
    OneRowReported(Some("bb"), Some(STRING));
    PlainResolves(o);
    RunDoes(PLAIN, o, None, Some(MetricWatermark(STRING, Some("bb"))), true);
    OneMoreRun(PLAIN, o, [], true);
  }

  lemma SecondRunFindsNothing(s: State, late: string)
    requires s.phase.Idle? && RowsInOrder(BY_LENGTH, s) && s.column == [Some("bb"), Some(late)] && |late| <= 2
    requires s.batches == [[0]] && Stored(s) == Some(Watermark("bb", STRING))
    ensures Flat(Run3(BY_LENGTH, PLAIN, s, true, true).batches) == [0]
  {
    StrippedTexts();
    NothingAboveTwoLetters(s.column, Stored(s));
    PlainResolves(s);
    hide Strip, Batch, CalculateMetrics, ResolveWatermarkContext, Run3, Stored, RowsInOrder;
    RunDoes(PLAIN, s, Stored(s), Some(MetricWatermark(STRING, Some("bb"))), true);
    assert [[0], []][..1] == [[0]] && [[0]][..0] == [];
    assert Flat([[0], []]) == [0];
  }

  /** A row that commits late, or ties with the maximum, is passed over. */
  lemma LateAndTiedRowsAreMissed(late: string)
    requires late == "b" || late == "cc"
    ensures var events := [] + RunEvents(true) + [Arrive(Some(late))] + RunEvents(true);
      var s := Run(BY_LENGTH, PLAIN, Opening([Some("bb")]), events);
      Ordered(BY_LENGTH) && s.column == [Some("bb"), Some(late)] && Above(BY_LENGTH, PLAIN, s.column[1]) && Flat(s.batches) == [0]
  {
    var o, front := Opening([Some("bb")]), [] + RunEvents(true);
    ByLengthIsOrdered();
    AfterTheFirstRun();
    ArrivalKeepsRecords(Run(BY_LENGTH, PLAIN, o, front), late);
    hide Run, Run3, Step, Stored, RowsInOrder, Flat, OrderlyRun;
    Snoc(BY_LENGTH, PLAIN, o, front, Arrive(Some(late)));
    var s := Run(BY_LENGTH, PLAIN, o, front + [Arrive(Some(late))]);
    assert s.column == [Some("bb"), Some(late)];
    SecondRunFindsNothing(s, late);
    OneMoreRun(PLAIN, o, front + [Arrive(Some(late))], true);
    RunsKeepTheColumn(s);
  }

  lemma RunsKeepTheColumn(s: State)
    ensures Run3(BY_LENGTH, PLAIN, s, true, true).column == s.column
  {
    hide CalculateMetrics, ResolveWatermarkContext, RowFor;
  }

  // ---------- Pipelines that stop ----------

  /** Without a type and an initial value the template declares TIMESTAMP, but the job records a string. */
  lemma UntypedPipelineStops()
    ensures var p := Pipeline(TIMESTAMP, None, None);
      var s := Run(BY_LENGTH, p, Opening([Some("bb")]), [] + RunEvents(true));
      && Ordered(BY_LENGTH) && FromOneField(p) && s.phase.Idle? && Stored(s) == Some(Watermark("bb", STRING))
      && Step(BY_LENGTH, p, s, Begin(None, true)) == s
  {
    ByLengthIsOrdered();
    var p := Pipeline(TIMESTAMP, None, None);
    var o := Opening([Some("bb")]);
    StrippedTexts();
    assert Run(BY_LENGTH, p, o, []) == o && Stored(o) == None;
    assert ResolveWatermarkContext(BY_LENGTH, p, None, o.rows, true) == Ok(None);
    OneRowReported(Some("bb"), None);
    hide Strip, Batch, CalculateMetrics, Run, OrderlyRun, Run3;
    RunDoes(p, o, None, Some(MetricWatermark(STRING, Some("bb"))), true);
    OneMoreRun(p, o, [], true);
  }
}
