/** What the batches of an incremental pipeline hold, over any history of its runs. */
module ExactlyOnce {
  import opened Wrappers
  import opened Watermark
  import opened PipelineRuns
  import opened IncrementalRuns

  // ---------- The promise ----------

  /** Row numbers rise, so each occurs once and in table order. */
  ghost predicate Rising(xs: seq<nat>) {
    forall i, j :: 0 <= i < j < |xs| ==> xs[i] < xs[j]
  }

  /** The row lies above the initial value and not above the stored watermark. */
  ghost predicate WithinStored(e: Engine, p: Pipeline, s: State, i: nat) {
    && i < |s.column| && Above(e, p, s.column[i])
    && Stored(s).Some? && !Selected(e, Stored(s), s.column[i])
  }

  /** The batches, one after the other, hold in table order and once each exactly the rows within the stored watermark. */
  ghost predicate OnceEach(e: Engine, p: Pipeline, s: State) {
    && Rising(Flat(s.batches))
    && forall i: nat :: i in Flat(s.batches) <==> WithinStored(e, p, s, i)
  }

  // ---------- What breaks it ----------

  predicate Counted(s: State, ev: Event) {
    ev.Record? && s.phase.Extracted? && ev.status in {"success", "partial"}
  }

  /** A batch is counted as extracted without a watermark for it: the metrics were not read, or all its rows were NULL. */
  ghost predicate Overlooks(s: State, ev: Event) {
    Counted(s, ev) && s.phase.batch != [] && (!ev.metricsRead || !HasValue(s.column, s.phase.batch))
  }

  /** The request a record event makes. */
  function RequestOf(s: State, ev: Event): RecordRequest
    requires ev.Record? && s.phase.Extracted?
  {
    RecordRequest(s.nextId, ev.status, s.phase.startedAt, Delivered(s.phase.metrics, ev.metricsRead))
  }

  /** The event stores the reported watermark. */
  predicate Stores(e: Engine, s: State, ev: Event) {
    && Counted(s, ev) && ev.metricsRead && Reports(s.phase.metrics)
    && RowFor(e, RequestOf(s, ev)).Ok?
  }

  /** The maximum over the rows the finished job read. */
  function Maximum(e: Engine, p: Pipeline, s: State): Option<string>
    requires s.phase.Extracted? && s.phase.seen <= |s.column|
  {
    MaxCell(e, s.column[..s.phase.seen], Effective(e, p, s))
  }

  /** A due row that came after the job does not lie above the watermark the job reports. */
  ghost predicate LeftBehind(e: Engine, p: Pipeline, s: State, i: nat)
    requires s.phase.Extracted?
  {
    && s.phase.seen <= i < |s.column|
    && Selected(e, Effective(e, p, s), s.column[i]) && !Selected(e, Upcoming(e, p, s), s.column[i])
  }

  /** The record stores a maximum that stripping moved down, or one that leaves a later row behind. */
  ghost predicate Strays(e: Engine, p: Pipeline, s: State, ev: Event) {
    && Stores(e, s, ev) && s.phase.seen <= |s.column|
    && var m := Maximum(e, p, s);
       || (m.Some? && e.less(Strip(m.value), m.value))
       || exists i: nat :: LeftBehind(e, p, s, i)
  }

  /** A row above the initial value arrives at or below the stored watermark. */
  ghost predicate ArrivesLate(e: Engine, p: Pipeline, s: State, ev: Event) {
    ev.Arrive? && Above(e, p, ev.cell) && Stored(s).Some? && !Selected(e, Stored(s), ev.cell)
  }

  ghost predicate Misses(e: Engine, p: Pipeline, s: State, ev: Event) {
    Overlooks(s, ev) || Strays(e, p, s, ev) || ArrivesLate(e, p, s, ev)
  }

  ghost predicate NeverMisses(e: Engine, p: Pipeline, s: State, events: seq<Event>) {
    events == [] || (
      && NeverMisses(e, p, s, events[..|events| - 1])
      && !Misses(e, p, Run(e, p, s, events[..|events| - 1]), events[|events| - 1]))
  }

  // ---------- What holds over every history without overrides ----------

  lemma BatchRises(e: Engine, column: Column, w: Option<Watermark>)
    ensures Rising(Batch(e, column, w))
    ensures forall i :: 0 <= i < |Batch(e, column, w)| ==> Batch(e, column, w)[i] < |column|
  {
    if column != [] {
      BatchRises(e, column[..|column| - 1], w);
    }
  }

  lemma BatchMember(e: Engine, column: Column, seen: nat, w: Option<Watermark>)
    requires seen <= |column|
    ensures Rising(Batch(e, column[..seen], w))
    ensures forall i: nat :: i in Batch(e, column[..seen], w) <==> i < seen && Selected(e, w, column[i])
  {
    hide Batch;
    BatchIs(e, column[..seen], w);
    BatchRises(e, column[..seen], w);
  }

  /** The job under way reads from where the next run would start, and reports nothing but what it read. */
  ghost predicate Tracks(e: Engine, p: Pipeline, s: State) {
    && RowsInOrder(e, s)
    && match s.phase
       case Idle => true
       case Resolved(incoming, _) => incoming == Effective(e, p, s)
       case Extracted(_, seen, batch, metrics) =>
         && seen <= |s.column| && batch == Batch(e, s.column[..seen], Effective(e, p, s))
         && (batch == [] && Reports(metrics) ==>
               Effective(e, p, s).Some? && Upcoming(e, p, s).value.value == Effective(e, p, s).value.value)
         && (batch != [] ==> (Reports(metrics) <==> HasValue(s.column, batch)))
         && (batch != [] && Reports(metrics) ==>
               Maximum(e, p, s).Some? && Upcoming(e, p, s).value.value == Strip(Maximum(e, p, s).value))
  }

  lemma ArriveKeepsTracks(e: Engine, p: Pipeline, s: State, cell: Option<string>)
    requires Tracks(e, p, s)
    ensures Tracks(e, p, Step(e, p, s, Arrive(cell)))
  {
    hide Batch, Floor, FindLatestWatermark, Strip, HasValue, MaxCell;
    if s.phase.Extracted? {
      var t := Step(e, p, s, Arrive(cell));
      assert t.column[..s.phase.seen] == s.column[..s.phase.seen];
      BatchMember(e, s.column, s.phase.seen, Effective(e, p, s));
      HasValueLonger(s.column, s.phase.batch, cell);
    }
  }

  lemma JobKeepsTracks(e: Engine, p: Pipeline, s: State, succeeds: bool, fileAlways: bool)
    requires Ordered(e) && Tracks(e, p, s)
    ensures Tracks(e, p, Step(e, p, s, RunJob(succeeds, fileAlways)))
  {
    hide Batch, MaxCell, Strip, HasValue, Floor, FindLatestWatermark;
    if s.phase.Resolved? {
      var w := s.phase.incoming;
      assert s.column[..|s.column|] == s.column;
      EffectiveIsParsed(e, p, s);
      if Batch(e, s.column, w) != [] {
        MaximumIff(e, s.column, w);
        if MaxCell(e, s.column, w).Some? {
          StripTwice(MaxCell(e, s.column, w).value);
        }
      }
    }
  }

  lemma StepKeepsTracks(e: Engine, p: Pipeline, s: State, ev: Event)
    requires Ordered(e) && Tracks(e, p, s) && (ev.Begin? ==> !Given(ev.override))
    ensures Tracks(e, p, Step(e, p, s, ev))
  {
    match ev
    case Arrive(cell) => ArriveKeepsTracks(e, p, s, cell);
    case RunJob(succeeds, fileAlways) => JobKeepsTracks(e, p, s, succeeds, fileAlways);
    case Begin(_, _) =>
      StoredIsParsed(e, s);
    case LoseRecord =>
    case Record(status, metricsRead) =>
      hide Batch, HasValue, Saved;
      if s.phase.Extracted? && RowFor(e, RequestOf(s, ev)).Ok? {
        RecordedRow(e, p, s, status, metricsRead);
      }
  }

  /** What an event does to the batches and to the next starting point. */
  lemma Moves(e: Engine, p: Pipeline, s: State, ev: Event)
    requires Tracks(e, p, s)
    ensures var t := Step(e, p, s, ev);
      && (Overlooks(s, ev) || Stores(e, s, ev) ==> t.batches == s.batches + [s.phase.batch])
      && (!ev.Arrive? ==> t.column == s.column)
      && Effective(e, p, t) == (if Stores(e, s, ev) then Upcoming(e, p, s) else Effective(e, p, s))
      && (t.batches != s.batches ==> Counted(s, ev) && t.phase.Idle? && t.batches == s.batches + [s.phase.batch])
      && (!Stores(e, s, ev) ==> Stored(t) == Stored(s))
      && (Stores(e, s, ev) ==> Stored(t) == Upcoming(e, p, s) && t.phase.Idle?)
  {
    hide Batch, HasValue, Saved, FindLatestWatermark, ResolveWatermarkContext, CalculateMetrics, Floor, Parse;
    if ev.Record? && s.phase.Extracted? && RowFor(e, RequestOf(s, ev)).Ok? {
      RecordedRow(e, p, s, ev.status, ev.metricsRead);
      StoredAfterRecord(e, s, ev.status, s.phase.startedAt, Delivered(s.phase.metrics, ev.metricsRead));
    }
  }

  // ---------- While nothing is missed ----------

  /** w is not below the initial value, so what lies above w lies above it. */
  ghost predicate AtLeastFloor(e: Engine, p: Pipeline, w: Option<Watermark>) {
    Floor(e, p).Some? ==> w.Some? && !e.less(w.value.value, Floor(e, p).value.value)
  }

  /** Extracted is what is not due any more, and all that is due comes behind it. */
  ghost predicate Good(e: Engine, p: Pipeline, s: State) {
    && AtLeastFloor(e, p, Effective(e, p, s))
    && Rising(Flat(s.batches))
    && (forall i: nat :: i in Flat(s.batches) <==>
          i < |s.column| && Above(e, p, s.column[i]) && !Selected(e, Effective(e, p, s), s.column[i]))
    && (forall i, j: nat :: i in Flat(s.batches) && j < |s.column| && Selected(e, Effective(e, p, s), s.column[j]) ==> i < j)
  }

  lemma GoodMeansOnce(e: Engine, p: Pipeline, s: State)
    requires Good(e, p, s)
    ensures OnceEach(e, p, s)
  {
  }

  lemma RisingConcat(a: seq<nat>, b: seq<nat>)
    requires Rising(a) && Rising(b) && forall i, j :: i in a && j in b ==> i < j
    ensures Rising(a + b)
  {
    forall i, j | 0 <= i < j < |a + b|
      ensures (a + b)[i] < (a + b)[j]
    {
      if i < |a| <= j {
        assert a[i] in a && b[j - |a|] in b;
      }
    }
  }

  lemma FlatSnoc(batches: seq<seq<nat>>, batch: seq<nat>)
    ensures Flat(batches + [batch]) == Flat(batches) + batch
  {
    assert (batches + [batch])[..|batches|] == batches;
  }

  /** Without stray rows a new watermark lies above what was read and is no lower than the one before. */
  lemma NewWatermark(e: Engine, p: Pipeline, s: State, ev: Event)
    requires Ordered(e) && Tracks(e, p, s) && Stores(e, s, ev) && !Strays(e, p, s, ev)
    requires AtLeastFloor(e, p, Effective(e, p, s))
    ensures && AtLeastFloor(e, p, Upcoming(e, p, s))
      && forall cell :: Selected(e, Upcoming(e, p, s), cell) ==> Selected(e, Effective(e, p, s), cell)
  {
    hide Batch, Floor, FindLatestWatermark, Strip, RowFor, MaxCell, Strays;
    StraysIff(e, p, s, ev);
    BatchMember(e, s.column, s.phase.seen, Effective(e, p, s));
    if s.phase.batch != [] {
      var i :| i in s.phase.batch && i < |s.column| && s.column[i].Some?;
      assert !StrayRow(e, p, s, i);
      AboveWhenSelected(e, p, Effective(e, p, s), s.column[i]);
    }
  }

  /** The row was read and still lies above the reported watermark, or is due, was not read, and does not. */
  ghost predicate StrayRow(e: Engine, p: Pipeline, s: State, i: nat)
    requires s.phase.Extracted?
  {
    && i < |s.column|
    && if i in s.phase.batch then Selected(e, Upcoming(e, p, s), s.column[i])
       else Selected(e, Effective(e, p, s), s.column[i]) && !Selected(e, Upcoming(e, p, s), s.column[i])
  }

  /** A job that read nothing leaves no maximum, and then nothing moves. */
  lemma StraysIff(e: Engine, p: Pipeline, s: State, ev: Event)
    requires Ordered(e) && Tracks(e, p, s) && Stores(e, s, ev)
    ensures Strays(e, p, s, ev) <==> exists i: nat :: StrayRow(e, p, s, i)
  {
    hide Batch, Floor, FindLatestWatermark, Strip, RowFor, HasValue, RowsInOrder, MaxCell;
    var seen := s.column[..s.phase.seen];
    BatchMember(e, s.column, s.phase.seen, Effective(e, p, s));
    MaxCellIs(e, seen, Effective(e, p, s));
    var m := Maximum(e, p, s);
    if m.Some? && e.less(Strip(m.value), m.value) {
      var i :| 0 <= i < |seen| && seen[i] == m && Selected(e, Effective(e, p, s), seen[i]);
      assert i in s.phase.batch;
      assert StrayRow(e, p, s, i);
    }
    if i: nat :| LeftBehind(e, p, s, i) {
      assert StrayRow(e, p, s, i);
    }
    if i: nat :| StrayRow(e, p, s, i) && !LeftBehind(e, p, s, i) {
      assert i in s.phase.batch && seen[i] == s.column[i];
    }
  }

  lemma AboveWhenSelected(e: Engine, p: Pipeline, w: Option<Watermark>, cell: Option<string>)
    requires Ordered(e) && AtLeastFloor(e, p, w)
    ensures Selected(e, w, cell) ==> Above(e, p, cell)
  {
  }

  lemma GoodRecord(e: Engine, p: Pipeline, s: State, ev: Event)
    requires Ordered(e) && Tracks(e, p, s) && Good(e, p, s) && !Misses(e, p, s, ev)
    requires Step(e, p, s, ev).batches != s.batches
    ensures Good(e, p, Step(e, p, s, ev))
  {
    hide Batch, Floor, FindLatestWatermark, Strip, RowFor, Step, Flat, Stores, Selected, Upcoming, Effective;
    var t := Step(e, p, s, ev);
    Moves(e, p, s, ev);
    var batch := s.phase.batch;
    FlatSnoc(s.batches, batch);
    BatchMember(e, s.column, s.phase.seen, Effective(e, p, s));
    RisingConcat(Flat(s.batches), batch);
    if Stores(e, s, ev) {
      NewWatermark(e, p, s, ev);
      StraysIff(e, p, s, ev);
      forall i: nat
        ensures i in Flat(t.batches) <==> i < |t.column| && Above(e, p, t.column[i]) && !Selected(e, Effective(e, p, t), t.column[i])
        ensures i < |t.column| && Selected(e, Effective(e, p, t), t.column[i]) ==> forall j :: j in Flat(t.batches) ==> j < i
      {
        assert !StrayRow(e, p, s, i);
        if i < |s.column| {
          AboveWhenSelected(e, p, Effective(e, p, s), s.column[i]);
        }
      }
    } else {
      NothingCounted(e, p, s, ev);
      assert Flat(s.batches) + [] == Flat(s.batches);
    }
  }

  /** A counted record that stores nothing and overlooks nothing had an empty batch. */
  lemma NothingCounted(e: Engine, p: Pipeline, s: State, ev: Event)
    requires Tracks(e, p, s) && !Stores(e, s, ev) && !Overlooks(s, ev) && Step(e, p, s, ev).batches != s.batches
    ensures s.phase.Extracted? && s.phase.batch == []
  {
    hide Batch, HasValue, Saved, FindLatestWatermark, ResolveWatermarkContext, CalculateMetrics, Floor, Parse;
  }

  lemma GoodArrival(e: Engine, p: Pipeline, s: State, ev: Event)
    requires Good(e, p, s) && Tracks(e, p, s) && ev.Arrive? && !Misses(e, p, s, ev)
    ensures Good(e, p, Step(e, p, s, ev))
  {
    hide Floor, FindLatestWatermark, Flat, RowsInOrder;
    var t := Step(e, p, s, ev);
    assert t.batches == s.batches && Effective(e, p, t) == Effective(e, p, s);
    forall i: nat
      ensures i in Flat(t.batches) <==> i < |t.column| && Above(e, p, t.column[i]) && !Selected(e, Effective(e, p, t), t.column[i])
    {
      if i < |s.column| {
        assert t.column[i] == s.column[i];
      } else if i == |s.column| {
        assert t.column[i] == ev.cell;
      }
    }
    forall i, j: nat | i in Flat(t.batches) && j < |t.column| && Selected(e, Effective(e, p, t), t.column[j])
      ensures i < j
    {
      assert i in Flat(s.batches);
      if j < |s.column| {
        assert t.column[j] == s.column[j];
      }
    }
  }

  lemma GoodStaysGood(e: Engine, p: Pipeline, s: State, ev: Event)
    requires Ordered(e) && Tracks(e, p, s) && Good(e, p, s) && !Misses(e, p, s, ev)
    ensures Good(e, p, Step(e, p, s, ev))
  {
    hide Batch, Floor, FindLatestWatermark, Strip, RowFor, Step, Flat, Misses, Tracks;
    if ev.Arrive? {
      GoodArrival(e, p, s, ev);
    } else if Step(e, p, s, ev).batches != s.batches {
      GoodRecord(e, p, s, ev);
    } else {
      Moves(e, p, s, ev);
      OneBatchMore(s.batches, s.phase);
    }
  }

  lemma OneBatchMore(batches: seq<seq<nat>>, phase: Phase)
    ensures phase.Extracted? ==> batches + [phase.batch] != batches
  {
    assert phase.Extracted? ==> |batches + [phase.batch]| == |batches| + 1;
  }

  lemma OpeningIsGood(e: Engine, p: Pipeline, column: Column)
    requires Ordered(e)
    ensures Good(e, p, Opening(column)) && Tracks(e, p, Opening(column))
  {
  }

  // ---------- Once something is missed ----------

  /** Row k was read and is still due, was read twice, or is within the stored watermark and was not read. */
  ghost predicate WrongRow(e: Engine, p: Pipeline, s: State, k: nat) {
    || multiset(Flat(s.batches))[k] >= 2
    || (k < |s.column| && k in Flat(s.batches) && Selected(e, Effective(e, p, s), s.column[k])
        && (s.phase.Extracted? ==> k < s.phase.seen))
    || (k !in Flat(s.batches) && WithinStored(e, p, s, k))
  }

  ghost predicate Wrong(e: Engine, p: Pipeline, s: State) {
    exists k: nat :: WrongRow(e, p, s, k)
  }

  lemma {:induction false} RisingMeansOnce(xs: seq<nat>, x: nat)
    ensures Rising(xs) ==> multiset(xs)[x] <= 1
  {
    if xs != [] && Rising(xs) {
      var front := xs[..|xs| - 1];
      RisingMeansOnce(front, x);
      assert xs == front + [xs[|xs| - 1]];
      if x in front {
        var k :| 0 <= k < |front| && front[k] == x;
        assert xs[k] < xs[|xs| - 1];
      }
    }
  }

  lemma WrongMeansNotOnce(e: Engine, p: Pipeline, s: State)
    requires Wrong(e, p, s)
    ensures !OnceEach(e, p, s)
  {
    hide Flat, FindLatestWatermark;
    var k: nat :| WrongRow(e, p, s, k);
    RisingMeansOnce(Flat(s.batches), k);
  }

  lemma MissingIsWrong(e: Engine, p: Pipeline, s: State, ev: Event)
    requires Ordered(e) && Tracks(e, p, s) && Good(e, p, s) && Misses(e, p, s, ev)
    ensures Wrong(e, p, Step(e, p, s, ev))
  {
    hide Batch, Floor, FindLatestWatermark, Strip, RowFor, Step, Flat, Selected, Upcoming, Effective, HasValue;
    var t := Step(e, p, s, ev);
    Moves(e, p, s, ev);
    if ArrivesLate(e, p, s, ev) {
      LateIsWrong(e, p, s, ev);
    } else {
      FlatSnoc(s.batches, s.phase.batch);
      BatchMember(e, s.column, s.phase.seen, Effective(e, p, s));
      if Overlooks(s, ev) {
        OverlooksStoresNothing(e, p, s, ev);
        assert s.phase.batch[0] in s.phase.batch;
        RecordEnds(e, p, s, ev);
        assert WrongRow(e, p, t, s.phase.batch[0]);
      } else {
        StraysIff(e, p, s, ev);
        var i: nat :| StrayRow(e, p, s, i);
        StrayIsWrong(e, p, s, ev, i);
      }
    }
  }

  lemma StrayIsWrong(e: Engine, p: Pipeline, s: State, ev: Event, i: nat)
    requires Ordered(e) && Tracks(e, p, s) && Good(e, p, s) && Stores(e, s, ev) && StrayRow(e, p, s, i)
    ensures Wrong(e, p, Step(e, p, s, ev))
  {
    hide Batch, Floor, FindLatestWatermark, Strip, RowFor, Step, Flat, Selected, Effective, HasValue, RowsInOrder, Parse;
    var t := Step(e, p, s, ev);
    Moves(e, p, s, ev);
    FlatSnoc(s.batches, s.phase.batch);
    AboveWhenSelected(e, p, Effective(e, p, s), s.column[i]);
    assert WrongRow(e, p, t, i);
  }

  lemma OverlooksStoresNothing(e: Engine, p: Pipeline, s: State, ev: Event)
    requires Tracks(e, p, s) && Overlooks(s, ev)
    ensures !Stores(e, s, ev)
  {
    hide Batch, RowFor;
  }

  lemma RecordEnds(e: Engine, p: Pipeline, s: State, ev: Event)
    requires ev.Record? && s.phase.Extracted?
    ensures Step(e, p, s, ev).phase.Idle?
  {
    hide RowFor, Saved;
  }

  lemma LateIsWrong(e: Engine, p: Pipeline, s: State, ev: Event)
    requires Good(e, p, s) && ArrivesLate(e, p, s, ev)
    ensures Wrong(e, p, Step(e, p, s, ev))
  {
    hide Floor, FindLatestWatermark, Flat;
    var t := Step(e, p, s, ev);
    assert t.column[|s.column|] == ev.cell && Stored(t) == Stored(s);
    assert WrongRow(e, p, t, |s.column|);
  }

  lemma WrongStaysWrong(e: Engine, p: Pipeline, s: State, ev: Event)
    requires Ordered(e) && Tracks(e, p, s) && Wrong(e, p, s)
    ensures Wrong(e, p, Step(e, p, s, ev))
  {
    hide Batch, Floor, FindLatestWatermark, Strip, RowFor, Step, Flat, Selected, Upcoming, Stores, Tracks;
    var k: nat :| WrongRow(e, p, s, k);
    var t := Step(e, p, s, ev);
    Moves(e, p, s, ev);
    if t.batches == s.batches {
      QuietStep(e, p, s, ev, k);
    } else {
      FlatSnoc(s.batches, s.phase.batch);
      WrongAfterRecord(e, p, s, ev, k);
    }
  }

  /** No batch is added, so no watermark is stored. */
  lemma QuietStep(e: Engine, p: Pipeline, s: State, ev: Event, k: nat)
    requires Tracks(e, p, s) && WrongRow(e, p, s, k) && Step(e, p, s, ev).batches == s.batches
    ensures Wrong(e, p, Step(e, p, s, ev))
  {
    hide Batch, Floor, FindLatestWatermark, Strip, RowFor, Flat, Selected, Stores, ResolveWatermarkContext, CalculateMetrics, Saved, Overlooks, RowsInOrder;
    var t := Step(e, p, s, ev);
    Moves(e, p, s, ev);
    OneBatchMore(s.batches, s.phase);
    assert k < |s.column| ==> t.column[k] == s.column[k];
    assert WrongRow(e, p, t, k);
  }

  lemma WrongAfterRecord(e: Engine, p: Pipeline, s: State, ev: Event, k: nat)
    requires Ordered(e) && Tracks(e, p, s) && WrongRow(e, p, s, k) && Step(e, p, s, ev).batches != s.batches
    requires Flat(Step(e, p, s, ev).batches) == Flat(s.batches) + s.phase.batch
    ensures Wrong(e, p, Step(e, p, s, ev))
  {
    hide Batch, Floor, FindLatestWatermark, Strip, RowFor, Flat, Stores, Step, HasValue, RowsInOrder;
    var t := Step(e, p, s, ev);
    Moves(e, p, s, ev);
    BatchMember(e, s.column, s.phase.seen, Effective(e, p, s));
    if k !in Flat(s.batches) && Stores(e, s, ev) && Selected(e, Upcoming(e, p, s), s.column[k]) {
      var i := s.phase.batch[0];
      assert i in s.phase.batch;
      assert WrongRow(e, p, t, i);
    } else {
      assert WrongRow(e, p, t, k);
    }
  }

  // ---------- Exactly once ----------

  lemma {:induction false} RunKeepsAccount(e: Engine, p: Pipeline, column: Column, events: seq<Event>)
    requires Ordered(e) && NoOverrides(events)
    ensures var s := Run(e, p, Opening(column), events);
      && Tracks(e, p, s)
      && if NeverMisses(e, p, Opening(column), events) then Good(e, p, s) else Wrong(e, p, s)
  {
    hide Tracks, Good, Wrong, Step, Misses;
    var o := Opening(column);
    if events == [] {
      OpeningIsGood(e, p, column);
    } else {
      var front, ev := events[..|events| - 1], events[|events| - 1];
      assert ev.Begin? ==> !Given(ev.override);
      assert NoOverrides(front);
      RunKeepsAccount(e, p, column, front);
      var s := Run(e, p, o, front);
      StepKeepsTracks(e, p, s, ev);
      if !NeverMisses(e, p, o, front) {
        WrongStaysWrong(e, p, s, ev);
      } else if Misses(e, p, s, ev) {
        MissingIsWrong(e, p, s, ev);
      } else {
        GoodStaysGood(e, p, s, ev);
      }
    }
  }

  /**
   Exactly-once extraction: over any history without overrides, from an empty run table, the batches
   of the recorded successful runs hold each row above the initial value and up to the stored
   watermark exactly once, and no other row, iff at no point a batch was counted without a
   watermark, a stored watermark left a row astray, or a row arrived at or below it.
   */
  lemma ExactlyOnceIff(e: Engine, p: Pipeline, column: Column, events: seq<Event>)
    requires Ordered(e) && NoOverrides(events)
    ensures OnceEach(e, p, Run(e, p, Opening(column), events)) <==> NeverMisses(e, p, Opening(column), events)
  {
    hide OnceEach, Tracks, Good, Wrong, Run, NeverMisses;
    var s := Run(e, p, Opening(column), events);
    RunKeepsAccount(e, p, column, events);
    if NeverMisses(e, p, Opening(column), events) {
      GoodMeansOnce(e, p, s);
    } else {
      WrongMeansNotOnce(e, p, s);
    }
  }

  // ---------- Orderly histories ----------

  /** Where rows arrive in order and stripping moves none, only records without a watermark miss anything. */
  lemma OrderlyMissesIff(e: Engine, p: Pipeline, s: State, ev: Event)
    requires Ordered(e) && Inv(e, p, s) && Orderly(e, s, ev)
    ensures Misses(e, p, s, ev) <==> Overlooks(s, ev)
  {
    hide Inv, Strays, ArrivesLate, Overlooks, Orderly;
    if ev.Arrive? {
      NoLateArrival(e, p, s, ev);
    } else {
      assert !ArrivesLate(e, p, s, ev) by {
        NoArrival(e, p, s, ev);
      }
    }
    NothingStrays(e, p, s, ev);
  }

  lemma NoArrival(e: Engine, p: Pipeline, s: State, ev: Event)
    requires !ev.Arrive?
    ensures !ArrivesLate(e, p, s, ev)
  {
  }

  lemma NoLateArrival(e: Engine, p: Pipeline, s: State, ev: Event)
    requires Ordered(e) && Inv(e, p, s) && Orderly(e, s, ev) && ev.Arrive?
    ensures !ArrivesLate(e, p, s, ev)
  {
    hide CutsAt, Staggered, AllClean, PhaseInv, RowsInOrder, Orderly, Floor, FindLatestWatermark;
    ArriveKeepsInv(e, p, s, ev.cell);
    var t := Step(e, p, s, ev);
    BehindTheCut(e, p, t.column, t.covered, Effective(e, p, t), |s.column|);
  }

  lemma NothingStrays(e: Engine, p: Pipeline, s: State, ev: Event)
    requires Ordered(e) && Inv(e, p, s)
    ensures !Strays(e, p, s, ev)
  {
    hide CutsAt, Staggered, RowsInOrder, Floor, FindLatestWatermark, Due, RowFor, HasValue, Selected, MaxCell, Batch;
    if Stores(e, s, ev) {
      var seen := s.column[..s.phase.seen];
      MaxCellIs(e, seen, Effective(e, p, s));
      assert forall i :: 0 <= i < |seen| ==> Clean(e, s.column[i]) && seen[i] == s.column[i];
      forall i: nat
        ensures !LeftBehind(e, p, s, i)
      {
        if s.phase.seen <= i < |s.column| {
          BehindTheCut(e, p, s.column, s.phase.seen, Upcoming(e, p, s), i);
          BehindTheCut(e, p, s.column, s.covered, Effective(e, p, s), i);
        }
      }
    }
  }

  ghost predicate NeverOverlooks(e: Engine, p: Pipeline, s: State, events: seq<Event>) {
    events == [] || (
      && NeverOverlooks(e, p, s, events[..|events| - 1])
      && !Overlooks(Run(e, p, s, events[..|events| - 1]), events[|events| - 1]))
  }

  lemma {:induction false} OrderlyRunMisses(e: Engine, p: Pipeline, s: State, events: seq<Event>)
    requires Ordered(e) && Inv(e, p, s) && OrderlyRun(e, p, s, events)
    ensures NeverMisses(e, p, s, events) <==> NeverOverlooks(e, p, s, events)
    ensures NoOverrides(events)
  {
    hide Inv, Step, Misses, Overlooks, Given;
    if events != [] {
      var front := events[..|events| - 1];
      OrderlyRunMisses(e, p, s, front);
      RunKeepsInv(e, p, s, front);
      OrderlyMissesIff(e, p, Run(e, p, s, front), events[|events| - 1]);
      assert forall k :: 0 <= k < |front| ==> events[k] == front[k];
    }
  }

  /**
   In an orderly history every row above the initial value and up to the stored watermark is
   extracted exactly once iff every record that counted a non-empty batch came with the metrics and
   the batch was not all NULL.
   */
  lemma OrderlyExactlyOnceIff(e: Engine, p: Pipeline, column: Column, events: seq<Event>)
    requires Ordered(e) && AllClean(e, column) && OrderlyRun(e, p, Opening(column), events)
    ensures OnceEach(e, p, Run(e, p, Opening(column), events)) <==> NeverOverlooks(e, p, Opening(column), events)
  {
    OpeningInv(e, p, column);
    hide Inv, OnceEach, Run, OrderlyRun;
    OrderlyRunMisses(e, p, Opening(column), events);
    ExactlyOnceIff(e, p, column, events);
  }
}
