/**
 Paginated REST extraction (app/infrastructure/adapters/compute/rest_api_compute_adapter.py)
 and the mock store server it is run against (services/mock_store_api/main.py).
 */
module RestExtraction {
  import opened Wrappers

  datatype Json = Null | Text(text: string) | Number(n: int) | List(items: seq<Json>) | Dict(fields: map<string, Json>) {
    /** Python truthiness. */
    predicate Truthy() {
      match this
      case Null => false
      case Text(t) => t != ""
      case Number(k) => k != 0
      case List(xs) => xs != []
      case Dict(f) => f != map[]
    }
  }

  type Params = map<string, Json>

  datatype Strategy = NoPaging | OffsetLimit | PageNumber | Cursor | Unknown(name: string)

  datatype PaginationConfig = PaginationConfig(
    strategy: Strategy, pageSize: int, pageStart: int,
    limitParam: string, offsetParam: string, pageParam: string, cursorPath: seq<string>)

  // ---------- Reading a response ----------

  const WRAPPER_KEYS := ["data", "items", "results", "records", "content"]

  function Dicts(items: seq<Json>): seq<Json> {
    if items == [] then []
    else Dicts(items[..|items| - 1]) + (if items[|items| - 1].Dict? then [items[|items| - 1]] else [])
  }

  function FirstList(fields: map<string, Json>, keys: seq<string>): seq<Json> {
    if keys == [] then []
    else if keys[0] in fields && fields[keys[0]].List? then Dicts(fields[keys[0]].items)
    else FirstList(fields, keys[1..])
  }

  function ExtractEnvelopeItems(raw: Json): seq<Json> {
    match raw
    case List(items) => Dicts(items)
    case Dict(fields) => FirstList(fields, WRAPPER_KEYS)
    case _ => []
  }

  /** A dotted path, already split at the dots. */
  function ResolveJsonPath(data: Json, path: seq<string>): Json
    decreases |path|
  {
    if path == [] then data
    else if !data.Dict? then Null
    else ResolveJsonPath(if path[0] in data.fields then data.fields[path[0]] else Null, path[1..])
  }

  /** Each record gets the time its page arrived. */
  function Stamp(item: Json, now: string): Json {
    if item.Dict? then Dict(item.fields["_ingested_at" := Text(now)]) else item
  }

  function Stamped(items: seq<Json>, now: string): (r: seq<Json>)
    ensures |r| == |items| && forall i :: 0 <= i < |items| ==> r[i] == Stamp(items[i], now)
  {
    seq(|items|, i requires 0 <= i < |items| => Stamp(items[i], now))
  }

  /** written is the record that came, unchanged in every field, and the time its page arrived under one more. */
  predicate Arrived(written: Json, item: Json, now: string) {
    && item.Dict? && written.Dict?
    && written.fields.Keys == item.fields.Keys + {"_ingested_at"}
    && written.fields["_ingested_at"] == Text(now)
    && forall key :: key in item.fields && key != "_ingested_at" ==> written.fields[key] == item.fields[key]
  }

  ghost predicate HoldsPage(written: seq<Json>, items: seq<Json>, now: string) {
    |written| == |items| && forall i :: 0 <= i < |items| ==> Arrived(written[i], items[i], now)
  }

  /** written holds, one after the other, the records of the pages, each as it arrived. */
  ghost predicate HoldsPages(written: seq<Json>, pages: seq<seq<Json>>, now: nat -> string)
    decreases |pages|
  {
    if pages == [] then written == []
    else
      var last := pages[|pages| - 1];
      && |last| <= |written|
      && HoldsPages(written[..|written| - |last|], pages[..|pages| - 1], now)
      && HoldsPage(written[|written| - |last|..], last, now(|pages| - 1))
  }

  lemma StampedArrive(items: seq<Json>, now: string)
    requires AllRecords(items)
    ensures HoldsPage(Stamped(items, now), items, now)
  {
  }

  lemma OnePageMore(written: seq<Json>, pages: seq<seq<Json>>, now: nat -> string, items: seq<Json>)
    requires HoldsPages(written, pages, now) && AllRecords(items)
    ensures HoldsPages(written + Stamped(items, now(|pages|)), pages + [items], now)
  {
    hide HoldsPage;
    var back := Stamped(items, now(|pages|));
    StampedArrive(items, now(|pages|));
    assert (pages + [items])[..|pages|] == pages;
    assert (written + back)[..|written|] == written && (written + back)[|written|..] == back;
  }

  ghost predicate AllRecords(rows: seq<Json>) {
    forall i :: 0 <= i < |rows| ==> rows[i].Dict?
  }

  /** Of a list only the records are kept, in order: one by one, and list by list. */
  lemma DictsIs(a: seq<Json>, b: seq<Json>, item: Json)
    ensures AllRecords(Dicts(a))
    ensures Dicts([]) == [] && Dicts([item]) == (if item.Dict? then [item] else [])
    ensures Dicts(a + b) == Dicts(a) + Dicts(b)
  {
    DictsAreRecords(a);
    DictsConcat(a, b);
    assert [item][..0] == [];
  }

  lemma DictsAreRecords(a: seq<Json>)
    ensures AllRecords(Dicts(a))
  {
    if a != [] {
      DictsAreRecords(a[..|a| - 1]);
    }
  }

  /** The records of a response: of the list itself, or of the first wrapper that holds a list. */
  lemma EnvelopeIs(raw: Json)
    ensures AllRecords(ExtractEnvelopeItems(raw))
    ensures raw.List? ==> ExtractEnvelopeItems(raw) == Dicts(raw.items)
    ensures raw.Dict? ==>
      var holds := (key: string) => key in raw.fields && raw.fields[key].List?;
      ExtractEnvelopeItems(raw)
      == if holds("data") then Dicts(raw.fields["data"].items)
         else if holds("items") then Dicts(raw.fields["items"].items)
         else if holds("results") then Dicts(raw.fields["results"].items)
         else if holds("records") then Dicts(raw.fields["records"].items)
         else if holds("content") then Dicts(raw.fields["content"].items)
         else []
    ensures !raw.List? && !raw.Dict? ==> ExtractEnvelopeItems(raw) == []
  {
    hide Dicts, AllRecords, FirstList;
    NoRecords();
    if raw.List? {
      DictsAreRecords(raw.items);
    } else if raw.Dict? {
      FirstListStep(raw.fields, "data", ["items", "results", "records", "content"]);
      FirstListStep(raw.fields, "items", ["results", "records", "content"]);
      FirstListStep(raw.fields, "results", ["records", "content"]);
      FirstListStep(raw.fields, "records", ["content"]);
      FirstListStep(raw.fields, "content", []);
      assert ["content"] + [] == ["content"];
      assert ["records"] + ["content"] == ["records", "content"];
      assert ["results"] + ["records", "content"] == ["results", "records", "content"];
      assert ["items"] + ["results", "records", "content"] == ["items", "results", "records", "content"];
      assert ["data"] + ["items", "results", "records", "content"] == WRAPPER_KEYS;
      FirstListRecords(raw.fields, WRAPPER_KEYS);
    }
  }

  lemma FirstListStep(fields: map<string, Json>, key: string, rest: seq<string>)
    ensures FirstList(fields, [key] + rest)
         == if key in fields && fields[key].List? then Dicts(fields[key].items) else FirstList(fields, rest)
    ensures FirstList(fields, []) == []
  {
    assert ([key] + rest)[1..] == rest;
  }

  lemma NoRecords()
    ensures AllRecords([])
  {
  }

  lemma FirstListRecords(fields: map<string, Json>, keys: seq<string>)
    ensures AllRecords(FirstList(fields, keys))
  {
    hide Dicts;
    if keys != [] {
      if keys[0] in fields && fields[keys[0]].List? {
        DictsAreRecords(fields[keys[0]].items);
      }
      FirstListRecords(fields, keys[1..]);
    }
  }

  /** data, nested under the keys of the path. */
  function Nested(path: seq<string>, data: Json): Json {
    if path == [] then data else Dict(map[path[0] := Nested(path[1..], data)])
  }

  /** A path finds what is nested under it, whatever lies beside it, and nothing where a key is missing. */
  lemma {:induction false} PathFinds(path: seq<string>, data: Json, fields: map<string, Json>)
    ensures ResolveJsonPath(Nested(path, data), path) == data
    ensures path != [] ==> ResolveJsonPath(Dict(fields + map[path[0] := Nested(path[1..], data)]), path) == data
    ensures path != [] && path[0] !in fields ==> ResolveJsonPath(Dict(fields), path) == Null
  {
    if path != [] {
      PathFinds(path[1..], data, fields);
      NullHasNothing(path[1..]);
    }
  }

  lemma NullHasNothing(path: seq<string>)
    ensures ResolveJsonPath(Null, path) == Null
  {
  }

  // ---------- One turn of the loop ----------

  /** Everything the loop reads: configuration, server, and the clock at each page. */
  datatype Setup = Setup(
    cfg: PaginationConfig, batchSize: int, custom: Params,
    server: Params -> Result<Json, string>, now: nat -> string)

  /** The loop's variables; tables holds what the Parquet writer has been given. */
  datatype Loop = Loop(
    offset: int, pageNum: int, cursor: Json,
    buffer: seq<Json>, tables: seq<seq<Json>>, totalRows: nat, pagesFetched: nat)

  datatype Outcome = Again(s: Loop) | Done(s: Loop) | Failed(error: string)

  function Start(u: Setup): Loop {
    Loop(0, u.cfg.pageStart, Null, [], [], 0, 0)
  }

  function BuildPageParams(cfg: PaginationConfig, offset: int, pageNum: int, cursor: Json, custom: Params): Params {
    match cfg.strategy
    case OffsetLimit => custom[cfg.limitParam := Number(cfg.pageSize)][cfg.offsetParam := Number(offset)]
    case PageNumber => custom[cfg.limitParam := Number(cfg.pageSize)][cfg.pageParam := Number(pageNum)]
    case Cursor => if cursor.Null? then custom else custom["cursor" := cursor]
    case _ => custom
  }

  function Response(u: Setup, s: Loop): Result<Json, string> {
    u.server(BuildPageParams(u.cfg, s.offset, s.pageNum, s.cursor, u.custom))
  }

  predicate FlushNow(u: Setup, buffer: seq<Json>, fetched: nat) {
    && buffer != []
    && (|buffer| >= u.batchSize || u.cfg.strategy.NoPaging? || u.cfg.strategy.Cursor? || fetched < u.cfg.pageSize)
  }

  function Buffered(u: Setup, s: Loop, items: seq<Json>): Loop {
    var buffer := s.buffer + items;
    var t := s.(totalRows := s.totalRows + |items|, pagesFetched := s.pagesFetched + 1);
    if FlushNow(u, buffer, |items|) then t.(buffer := [], tables := s.tables + [buffer]) else t.(buffer := buffer)
  }

  function Advanced(u: Setup, t: Loop, raw: Json, fetched: nat): Outcome {
    if u.cfg.strategy.NoPaging? || fetched < u.cfg.pageSize then Done(t)
    else match u.cfg.strategy
      case OffsetLimit => Again(t.(offset := t.offset + u.cfg.pageSize))
      case PageNumber => Again(t.(pageNum := t.pageNum + 1))
      case Cursor =>
        var next := if raw.Dict? then ResolveJsonPath(raw, u.cfg.cursorPath) else Null;
        if next.Truthy() then Again(t.(cursor := next)) else Done(t.(cursor := next))
      case _ => Again(t)
  }

  function ItemsOf(u: Setup, s: Loop): seq<Json> {
    match Response(u, s)
    case Err(_) => []
    case Ok(raw) => Stamped(ExtractEnvelopeItems(raw), u.now(s.pagesFetched))
  }

  function Turn(u: Setup, s: Loop): Outcome {
    match Response(u, s)
    case Err(e) => Failed(e)
    case Ok(raw) => Advanced(u, Buffered(u, s, ItemsOf(u, s)), raw, |ItemsOf(u, s)|)
  }

  /** Where the loop is after at most k turns. */
  function After(u: Setup, k: nat): Outcome {
    if k == 0 then Again(Start(u))
    else match After(u, k - 1)
      case Again(s) => Turn(u, s)
      case stopped => stopped
  }

  predicate StopsWithin(u: Setup, k: nat) {
    !After(u, k).Again?
  }

  lemma StoppedStays(u: Setup, j: nat, k: nat)
    requires j <= k && StopsWithin(u, j)
    ensures After(u, k) == After(u, j)
  {
    if j < k {
      StoppedStays(u, j, k - 1);
    }
  }

  // ---------- The loop itself ----------

  /**
   The extraction loop. Dafny methods terminate, so the caller says within how many pages
   the loop stops; the lemmas below say when such a bound exists.
   */
  method ExtractAsync(u: Setup, ghost bound: nat) returns (r: Result<Loop, string>)
    requires StopsWithin(u, bound)
    ensures match After(u, bound)
            case Again(_) => false
            case Done(s) => r == Ok(s)
            case Failed(e) => r == Err(e)
    ensures r.Ok? ==> HoldsPages(Flat(r.value.tables), Received(u, bound), u.now)
  {
    hide BuildPageParams, ExtractEnvelopeItems, ResolveJsonPath, Stamped, After, Turn, HoldsPages, Received, FetchedBy, Flat;
    NothingLostInTheBuffer(u, bound);
    var buffer: seq<Json> := [];
    var tables: seq<seq<Json>> := [];
    var totalRows: nat, pagesFetched: nat := 0, 0;
    var offset, pageNum := 0, u.cfg.pageStart;
    var cursor: Json := Null;
    AfterNone(u);
    while true
      invariant After(u, pagesFetched) == Again(Loop(offset, pageNum, cursor, buffer, tables, totalRows, pagesFetched))
      decreases bound - pagesFetched
    {
      ghost var before := Loop(offset, pageNum, cursor, buffer, tables, totalRows, pagesFetched);
      if pagesFetched >= bound {
        StoppedStays(u, bound, pagesFetched);
        assert false;
      }
      AfterTurn(u, pagesFetched, before, bound);
      var fetched := u.server(BuildPageParams(u.cfg, offset, pageNum, cursor, u.custom));
      assert fetched == Response(u, before);
      if fetched.Err? {
        return Err(fetched.error);
      }
      var raw := fetched.value;
      var items := Stamped(ExtractEnvelopeItems(raw), u.now(pagesFetched));
      pagesFetched := pagesFetched + 1;
      buffer := buffer + items;
      totalRows := totalRows + |items|;
      if FlushNow(u, buffer, |items|) {
        tables := tables + [buffer];
        buffer := [];
      }
      assert Loop(offset, pageNum, cursor, buffer, tables, totalRows, pagesFetched) == Buffered(u, before, items);
      if u.cfg.strategy.NoPaging? || |items| < u.cfg.pageSize {
        return Ok(Loop(offset, pageNum, cursor, buffer, tables, totalRows, pagesFetched));
      }
      match u.cfg.strategy {
        case OffsetLimit => offset := offset + u.cfg.pageSize;
        case PageNumber => pageNum := pageNum + 1;
        case Cursor =>
          cursor := if raw.Dict? then ResolveJsonPath(raw, u.cfg.cursorPath) else Null;
          if !cursor.Truthy() {
            return Ok(Loop(offset, pageNum, cursor, buffer, tables, totalRows, pagesFetched));
          }
        case _ =>
      }
    }
  }

  lemma AfterNone(u: Setup)
    ensures After(u, 0) == Again(Start(u))
  {
  }

  /** What the next turn leaves, whether it goes on or was the last. */
  lemma AfterTurn(u: Setup, k: nat, s: Loop, bound: nat)
    requires After(u, k) == Again(s) && s.pagesFetched == k && k < bound
    ensures After(u, k + 1)
         == match Response(u, s)
            case Err(e) => Failed(e)
            case Ok(raw) =>
              var items := Stamped(ExtractEnvelopeItems(raw), u.now(k));
              Advanced(u, Buffered(u, s, items), raw, |items|)
    ensures !After(u, k + 1).Again? ==> After(u, bound) == After(u, k + 1)
  {
    hide BuildPageParams, ExtractEnvelopeItems, Stamped, Advanced, Buffered, Response;
    if StopsWithin(u, k + 1) {
      StoppedStays(u, k + 1, bound);
    }
  }

  // ---------- Whatever the server: nothing fetched is lost, repeated or reordered ----------

  function Flat(tables: seq<seq<Json>>): seq<Json> {
    if tables == [] then [] else Flat(tables[..|tables| - 1]) + tables[|tables| - 1]
  }

  /** All records of the first k responses, in arrival order. */
  function FetchedBy(u: Setup, k: nat): seq<Json> {
    if k == 0 then []
    else FetchedBy(u, k - 1) + (if After(u, k - 1).Again? then ItemsOf(u, After(u, k - 1).s) else [])
  }

  /** The records of each of the first k responses. */
  function Received(u: Setup, k: nat): seq<seq<Json>> {
    if k == 0 then []
    else if After(u, k - 1).Again? then Received(u, k - 1) + [RecordsOf(Response(u, After(u, k - 1).s))]
    else Received(u, k - 1)
  }

  function RecordsOf(response: Result<Json, string>): seq<Json> {
    match response
    case Ok(raw) => ExtractEnvelopeItems(raw)
    case Err(_) => []
  }

  lemma {:induction false} FetchedHoldsPages(u: Setup, k: nat)
    ensures HoldsPages(FetchedBy(u, k), Received(u, k), u.now)
    ensures After(u, k).Again? ==> |Received(u, k)| == k && After(u, k).s.pagesFetched == k
  {
    hide HoldsPages, Turn, Stamped, ExtractEnvelopeItems;
    if k == 0 {
      NoPagesHeld(u.now);
    } else {
      FetchedHoldsPages(u, k - 1);
      if After(u, k - 1).Again? {
        var s := After(u, k - 1).s;
        match Response(u, s) {
          case Ok(raw) =>
            EnvelopeIs(raw);
            assert FetchedBy(u, k) == FetchedBy(u, k - 1) + Stamped(ExtractEnvelopeItems(raw), u.now(k - 1));
            OnePageMore(FetchedBy(u, k - 1), Received(u, k - 1), u.now, ExtractEnvelopeItems(raw));
          case Err(_) =>
            NoRecords();
            OnePageMore(FetchedBy(u, k - 1), Received(u, k - 1), u.now, []);
            NoneStamped(u.now(k - 1));
            assert FetchedBy(u, k) == FetchedBy(u, k - 1) + Stamped([], u.now(k - 1));
        }
        TurnCounts(u, s);
      } else {
        assert FetchedBy(u, k) == FetchedBy(u, k - 1);
      }
    }
  }

  lemma NoneStamped(now: string)
    ensures Stamped([], now) == []
  {
  }

  lemma NoPagesHeld(now: nat -> string)
    ensures HoldsPages([], [], now)
  {
  }

  lemma TurnCounts(u: Setup, s: Loop)
    ensures Turn(u, s).Again? ==> Turn(u, s).s.pagesFetched == s.pagesFetched + 1
  {
    hide ItemsOf, BuildPageParams;
  }

  /** The loop's bookkeeping agrees with what was fetched, and less than a batch is waiting. */
  ghost predicate Accounts(u: Setup, k: nat, s: Loop) {
    && Flat(s.tables) + s.buffer == FetchedBy(u, k)
    && s.totalRows == |FetchedBy(u, k)|
    && s.pagesFetched <= k
    && (s.buffer == [] || |s.buffer| < u.batchSize)
    && (forall i :: 0 <= i < |s.tables| ==> s.tables[i] != [])
    && (Batches(u) ==> forall i :: 0 <= i < |s.tables| ==> |s.tables[i]| >= u.batchSize)
  }

  /** Without paging and under cursors every page is flushed on its own; otherwise pages gather into batches. */
  predicate Batches(u: Setup) {
    !u.cfg.strategy.NoPaging? && !u.cfg.strategy.Cursor?
  }

  lemma BufferedAccounts(u: Setup, k: nat, s: Loop, items: seq<Json>)
    requires Accounts(u, k, s)
    ensures var t := Buffered(u, s, items);
      && Flat(t.tables) + t.buffer == FetchedBy(u, k) + items
      && t.totalRows == |FetchedBy(u, k)| + |items|
      && (t.buffer == [] || |t.buffer| < u.batchSize)
      && (|items| < u.cfg.pageSize || u.cfg.strategy.NoPaging? || u.cfg.strategy.Cursor? ==> t.buffer == [])
      && (forall i :: 0 <= i < |t.tables| ==> t.tables[i] != [])
      && (Batches(u) ==> forall i :: 0 <= i < |t.tables| && (|items| >= u.cfg.pageSize || i < |t.tables| - 1) ==>
            |t.tables[i]| >= u.batchSize)
  {
    hide FetchedBy, Batches;
    var buffer := s.buffer + items;
    assert Flat(s.tables) + buffer == Flat(s.tables) + s.buffer + items;
    if FlushNow(u, buffer, |items|) {
      FlatSnoc(s.tables, buffer);
      FlushedTables(u, s, items);
    }
  }

  lemma FlatSnoc(tables: seq<seq<Json>>, table: seq<Json>)
    ensures Flat(tables + [table]) == Flat(tables) + table
  {
    assert (tables + [table])[..|tables|] == tables;
  }

  /** A table written while pages are full is a batch. */
  lemma FlushedTables(u: Setup, s: Loop, items: seq<Json>)
    requires FlushNow(u, s.buffer + items, |items|)
    ensures Batches(u) && |items| >= u.cfg.pageSize ==> |s.buffer + items| >= u.batchSize
  {
  }

  ghost predicate Settled(u: Setup, k: nat, o: Outcome) {
    match o
    case Again(s) => Accounts(u, k, s) && s.pagesFetched == k
    case Done(s) =>
      && s.buffer == [] && Flat(s.tables) == FetchedBy(u, k) && s.totalRows == |FetchedBy(u, k)|
      && (Batches(u) ==> forall i :: 0 <= i < |s.tables| - 1 ==> |s.tables[i]| >= u.batchSize)
    case Failed(_) => true
  }

  /** Moving to the next page touches only offset, page number and cursor. */
  lemma AdvancedKeepsRows(u: Setup, t: Loop, raw: Json, fetched: nat)
    ensures var o := Advanced(u, t, raw, fetched);
      && !o.Failed?
      && o.s.buffer == t.buffer && o.s.tables == t.tables && o.s.totalRows == t.totalRows && o.s.pagesFetched == t.pagesFetched
      && (o.Done? ==> u.cfg.strategy.NoPaging? || u.cfg.strategy.Cursor? || fetched < u.cfg.pageSize)
      && (o.Again? ==> fetched >= u.cfg.pageSize)
  {
  }

  lemma TurnSettles(u: Setup, k: nat, s: Loop)
    requires After(u, k) == Again(s) && Accounts(u, k, s) && s.pagesFetched == k
    ensures Settled(u, k + 1, Turn(u, s))
  {
    hide Advanced, Buffered, ItemsOf;
    var items := ItemsOf(u, s);
    BufferedAccounts(u, k, s, items);
    assert FetchedBy(u, k + 1) == FetchedBy(u, k) + items;
    if Response(u, s).Ok? {
      var t := Buffered(u, s, items);
      assert t.pagesFetched == k + 1 by {
        BufferedCounts(u, s, items);
      }
      AdvancedKeepsRows(u, t, Response(u, s).value, |items|);
      assert Flat(t.tables) + [] == Flat(t.tables);
    }
  }

  lemma BufferedCounts(u: Setup, s: Loop, items: seq<Json>)
    ensures Buffered(u, s, items).pagesFetched == s.pagesFetched + 1
  {
  }

  /**
   For every server, strategy and batch size: while the loop runs the buffer stays below one
   batch, and when it ends the tables written are exactly the records received, in order, field by
   field and with the time their page arrived. Where pages gather into batches, every table but the
   last holds a batch or more.
   */
  lemma NothingLostInTheBuffer(u: Setup, k: nat)
    ensures Settled(u, k, After(u, k))
    ensures HoldsPages(FetchedBy(u, k), Received(u, k), u.now)
  {
    hide Settled, HoldsPages, Received, FetchedBy, After;
    BufferSettles(u, k);
    FetchedHoldsPages(u, k);
  }

  lemma {:induction false} BufferSettles(u: Setup, k: nat)
    ensures Settled(u, k, After(u, k))
  {
    hide Turn;
    if k > 0 {
      BufferSettles(u, k - 1);
      match After(u, k - 1)
      case Again(s) => TurnSettles(u, k - 1, s);
      case Done(s) => assert FetchedBy(u, k) == FetchedBy(u, k - 1);
      case Failed(_) =>
    }
  }

  /** The buffer never holds batchSize + page rows or more, at its fullest, just before a flush. */
  lemma PeakBufferBound(u: Setup, k: nat)
    requires After(u, k).Again?
    ensures var s := After(u, k).s;
      |s.buffer + ItemsOf(u, s)| < (if u.batchSize > 0 then u.batchSize else 1) + |ItemsOf(u, s)|
  {
    BufferSettles(u, k);
  }

  // ---------- Tables read page by page ----------

  function Slice(rows: seq<Json>, offset: nat, limit: nat): seq<Json> {
    if offset >= |rows| then []
    else if offset + limit >= |rows| then rows[offset..]
    else rows[offset..offset + limit]
  }

  /** The rows in front of page k, and the page that holds row i. */
  function RowsBefore(size: nat, k: nat): nat {
    k * size
  }

  function PageOf(i: nat, size: nat): nat
    requires size > 0
  {
    i / size
  }

  lemma RowsBeforeNext(size: nat, k: nat)
    ensures RowsBefore(size, 0) == 0
    ensures RowsBefore(size, k + 1) == RowsBefore(size, k) + size
  {
  }

  /** Row i lies on page k or later iff k pages fit in front of it. */
  lemma PageOfIff(i: nat, size: nat, k: nat)
    requires size > 0
    ensures RowsBefore(size, k) <= i <==> k <= PageOf(i, size)
  {
    assert i == (i / size) * size + i % size;
    if k <= i / size {
      assert k * size <= (i / size) * size;
    } else {
      assert k * size >= (i / size + 1) * size;
    }
  }

  /** The k-th page of a table that is read from `base` on. */
  function PageAt(rows: seq<Json>, base: nat, size: nat, k: nat): seq<Json> {
    Slice(rows, base + RowsBefore(size, k), size)
  }

  /** The response to loop state s carries the k-th page of the table. */
  ghost predicate AnswersPage(u: Setup, s: Loop, rows: seq<Json>, base: nat, k: nat) {
    && u.cfg.pageSize > 0
    && Response(u, s).Ok?
    && ExtractEnvelopeItems(Response(u, s).value) == Dicts(PageAt(rows, base, u.cfg.pageSize, k))
  }

  /** The loop state in which page k is asked for. */
  predicate AsksPage(u: Setup, s: Loop, k: nat) {
    && u.cfg.pageSize > 0
    && (u.cfg.strategy.OffsetLimit? ==> s.offset == RowsBefore(u.cfg.pageSize, k))
    && (u.cfg.strategy.PageNumber? ==> s.pageNum == u.cfg.pageStart + k)
    && s.pagesFetched == k
  }

  predicate CountsPages(strategy: Strategy) {
    strategy.OffsetLimit? || strategy.PageNumber?
  }

  predicate IsShort(rows: seq<Json>, base: nat, size: nat, k: nat) {
    |Dicts(PageAt(rows, base, size, k))| < size
  }

  /** The records of the first k pages, each stamped with its page's arrival time. */
  function PagesStamped(now: nat -> string, rows: seq<Json>, base: nat, size: nat, k: nat): seq<Json> {
    if k == 0 then []
    else PagesStamped(now, rows, base, size, k - 1) + Stamped(Dicts(PageAt(rows, base, size, k - 1)), now(k - 1))
  }

  /** The server answers the k-th request of either counting strategy with the k-th page. */
  ghost predicate ServesPages(u: Setup, rows: seq<Json>, base: nat) {
    && u.cfg.pageSize > 0
    && CountsPages(u.cfg.strategy)
    && forall k: nat, s: Loop :: AsksPage(u, s, k) ==> AnswersPage(u, s, rows, base, k)
  }

  lemma OnePage(u: Setup, rows: seq<Json>, base: nat, k: nat, s: Loop)
    requires ServesPages(u, rows, base) && AsksPage(u, s, k)
    ensures ItemsOf(u, s) == Stamped(Dicts(PageAt(rows, base, u.cfg.pageSize, k)), u.now(k))
    ensures IsShort(rows, base, u.cfg.pageSize, k) ==> Turn(u, s).Done? && Turn(u, s).s.pagesFetched == k + 1
    ensures !IsShort(rows, base, u.cfg.pageSize, k) ==> Turn(u, s).Again? && AsksPage(u, Turn(u, s).s, k + 1)
  {
    assert AnswersPage(u, s, rows, base, k);
    RowsBeforeNext(u.cfg.pageSize, k);
  }

  lemma StartAsksPage(u: Setup)
    requires u.cfg.pageSize > 0
    ensures AsksPage(u, Start(u), 0)
  {
    RowsBeforeNext(u.cfg.pageSize, 0);
  }

  lemma {:induction false} FullPagesGoOn(u: Setup, rows: seq<Json>, base: nat, k: nat)
    requires ServesPages(u, rows, base)
    requires forall j :: 0 <= j < k ==> !IsShort(rows, base, u.cfg.pageSize, j)
    ensures After(u, k).Again? && AsksPage(u, After(u, k).s, k)
    ensures FetchedBy(u, k) == PagesStamped(u.now, rows, base, u.cfg.pageSize, k)
  {
    hide AsksPage, Turn, IsShort, ItemsOf, PageAt, AnswersPage;
    if k == 0 {
      StartAsksPage(u);
    } else {
      FullPagesGoOn(u, rows, base, k - 1);
      OnePage(u, rows, base, k - 1, After(u, k - 1).s);
    }
  }

  /**
   The loop reads up to and including the first short page and no further; what it writes is
   exactly those pages' records, in order.
   */
  lemma StopsAtFirstShortPage(u: Setup, rows: seq<Json>, base: nat, last: nat)
    requires ServesPages(u, rows, base)
    requires IsShort(rows, base, u.cfg.pageSize, last)
    requires forall j :: 0 <= j < last ==> !IsShort(rows, base, u.cfg.pageSize, j)
    ensures !StopsWithin(u, last)
    ensures After(u, last + 1).Done?
    ensures var s := After(u, last + 1).s;
      && s.pagesFetched == last + 1 && s.buffer == []
      && Flat(s.tables) == PagesStamped(u.now, rows, base, u.cfg.pageSize, last + 1)
      && HoldsPages(Flat(s.tables), seq(last + 1, k requires 0 <= k => Dicts(PageAt(rows, base, u.cfg.pageSize, k))), u.now)
  {
    hide AsksPage, Turn, IsShort, ItemsOf, PageAt, AnswersPage, HoldsPages;
    PagesHeld(u.now, rows, base, u.cfg.pageSize, last + 1);
    FullPagesGoOn(u, rows, base, last);
    OnePage(u, rows, base, last, After(u, last).s);
    NothingLostInTheBuffer(u, last + 1);
  }

  lemma {:induction false} PagesHeld(now: nat -> string, rows: seq<Json>, base: nat, size: nat, n: nat)
    ensures HoldsPages(PagesStamped(now, rows, base, size, n), seq(n, k requires 0 <= k => Dicts(PageAt(rows, base, size, k))), now)
  {
    hide HoldsPages, Dicts, PageAt, Stamped;
    if n == 0 {
      NoPagesHeld(now);
    } else {
      PagesHeld(now, rows, base, size, n - 1);
      var pages := seq(n - 1, k requires 0 <= k => Dicts(PageAt(rows, base, size, k)));
      var page := Dicts(PageAt(rows, base, size, n - 1));
      DictsAreRecords(PageAt(rows, base, size, n - 1));
      OnePageMore(PagesStamped(now, rows, base, size, n - 1), pages, now, page);
      assert pages + [page] == seq(n, k requires 0 <= k => Dicts(PageAt(rows, base, size, k)));
    }
  }

  // ---------- How much of the table that is ----------

  function Remaining(rows: seq<Json>, base: nat): nat {
    if base >= |rows| then 0 else |rows| - base
  }

  lemma DictsConcat(a: seq<Json>, b: seq<Json>)
    ensures Dicts(a + b) == Dicts(a) + Dicts(b)
  {
    if b == [] {
      assert a + b == a;
    } else {
      assert (a + b)[..|a + b| - 1] == a + b[..|b| - 1];
      DictsConcat(a, b[..|b| - 1]);
    }
  }

  lemma DictsAtMost(a: seq<Json>)
    ensures |Dicts(a)| <= |a|
  {
  }

  lemma PageSizes(rows: seq<Json>, base: nat, size: nat, k: nat)
    requires size > 0
    ensures |PageAt(rows, base, size, k)| <= size
    ensures |PageAt(rows, base, size, k)| == size <==> RowsBefore(size, k + 1) <= Remaining(rows, base)
  {
    hide RowsBefore;
    RowsBeforeNext(size, k);
  }

  /** Some page is short: the one after the last full one at the latest. */
  lemma RemainderPageIsShort(rows: seq<Json>, base: nat, size: nat)
    requires size > 0
    ensures IsShort(rows, base, size, PageOf(Remaining(rows, base), size))
  {
    hide RowsBefore, PageOf;
    var k := PageOf(Remaining(rows, base), size);
    PageOfIff(Remaining(rows, base), size, k + 1);
    PageSizes(rows, base, size, k);
    DictsAtMost(PageAt(rows, base, size, k));
  }

  function Cut(rows: seq<Json>, base: nat, size: nat, k: nat): (c: nat)
    ensures c <= |rows|
  {
    if base + RowsBefore(size, k) >= |rows| then |rows| else base + RowsBefore(size, k)
  }

  /** Conservation: records written plus records left behind are all the records there were. */
  lemma {:induction false} WrittenPlusLeft(now: nat -> string, rows: seq<Json>, base: nat, size: nat, k: nat)
    requires size > 0
    ensures |PagesStamped(now, rows, base, size, k)| + |Dicts(rows[Cut(rows, base, size, k)..])|
         == |Dicts(rows[Cut(rows, base, size, 0)..])|
  {
    hide Cut, PageAt, Dicts;
    if k > 0 {
      WrittenPlusLeft(now, rows, base, size, k - 1);
      CutStep(rows, base, size, k - 1);
      DictsConcat(PageAt(rows, base, size, k - 1), rows[Cut(rows, base, size, k)..]);
    }
  }

  lemma CutStep(rows: seq<Json>, base: nat, size: nat, k: nat)
    requires size > 0
    ensures rows[Cut(rows, base, size, k)..] == PageAt(rows, base, size, k) + rows[Cut(rows, base, size, k + 1)..]
  {
    hide RowsBefore;
    RowsBeforeNext(size, k);
  }

  /** An extraction is complete iff no record lies behind the first short page. */
  lemma CompleteIff(u: Setup, rows: seq<Json>, last: nat)
    requires ServesPages(u, rows, 0)
    requires IsShort(rows, 0, u.cfg.pageSize, last)
    requires forall j :: 0 <= j < last ==> !IsShort(rows, 0, u.cfg.pageSize, j)
    ensures After(u, last + 1).Done?
    ensures |Flat(After(u, last + 1).s.tables)| == |Dicts(rows)|
       <==> Dicts(rows[Cut(rows, 0, u.cfg.pageSize, last + 1)..]) == []
  {
    hide IsShort, After, Flat, PagesStamped, Dicts;
    StopsAtFirstShortPage(u, rows, 0, last);
    WrittenPlusLeft(u.now, rows, 0, u.cfg.pageSize, last + 1);
    RowsBeforeNext(u.cfg.pageSize, 0);
    assert rows[Cut(rows, 0, u.cfg.pageSize, 0)..] == rows;
  }

  // ---------- Tables of records only ----------

  lemma DictsOfRecords(rows: seq<Json>)
    requires AllRecords(rows)
    ensures Dicts(rows) == rows
  {
    if rows != [] {
      DictsOfRecords(rows[..|rows| - 1]);
    }
  }

  lemma PageOfRecords(rows: seq<Json>, base: nat, size: nat, k: nat)
    requires AllRecords(rows) && size > 0
    ensures Dicts(PageAt(rows, base, size, k)) == PageAt(rows, base, size, k)
    ensures IsShort(rows, base, size, k) <==> k >= PageOf(Remaining(rows, base), size)
  {
    hide RowsBefore, PageOf;
    DictsOfRecords(PageAt(rows, base, size, k));
    PageSizes(rows, base, size, k);
    PageOfIff(Remaining(rows, base), size, k + 1);
  }

  function Upto(n: nat, m: nat): nat {
    if m <= n then m else n
  }

  lemma PageRows(rows: seq<Json>, base: nat, size: nat, k: nat)
    requires size > 0
    ensures |PageAt(rows, base, size, k)| ==
      Upto(Remaining(rows, base), RowsBefore(size, k + 1)) - Upto(Remaining(rows, base), RowsBefore(size, k))
    ensures forall i :: 0 <= i < |PageAt(rows, base, size, k)| ==>
      && base + RowsBefore(size, k) + i < |rows|
      && PageAt(rows, base, size, k)[i] == rows[base + RowsBefore(size, k) + i]
  {
    hide RowsBefore;
    RowsBeforeNext(size, k);
  }

  lemma StampedPage(now: string, rows: seq<Json>, base: nat, size: nat, k: nat, back: seq<Json>)
    requires AllRecords(rows) && size > 0
    requires back == Stamped(Dicts(PageAt(rows, base, size, k)), now)
    ensures |back| == Upto(Remaining(rows, base), RowsBefore(size, k + 1)) - Upto(Remaining(rows, base), RowsBefore(size, k))
    ensures |back| <= size
    ensures forall i :: 0 <= i < |back| ==>
      base + RowsBefore(size, k) + i < |rows| && back[i] == Stamp(rows[base + RowsBefore(size, k) + i], now)
  {
    hide RowsBefore, AllRecords, PageAt, PageOf;
    PageOfRecords(rows, base, size, k);
    PageSizes(rows, base, size, k);
    PageRows(rows, base, size, k);
  }

  lemma RowsOfPage(size: nat, k: nat, i: nat)
    requires i < size
    ensures PageOf(RowsBefore(size, k) + i, size) == k
  {
    RowsBeforeNext(size, k);
    PageOfIff(RowsBefore(size, k) + i, size, k);
    PageOfIff(RowsBefore(size, k) + i, size, k + 1);
  }

  /** w holds the rows from `base + from` on, each as it arrived with its page. */
  ghost predicate HoldsRows(w: seq<Json>, now: nat -> string, rows: seq<Json>, base: nat, size: nat, from: nat)
    requires size > 0
  {
    forall i :: 0 <= i < |w| ==> HoldsRow(w[i], now, rows, base, size, from + i)
  }

  predicate HoldsRow(item: Json, now: nat -> string, rows: seq<Json>, base: nat, size: nat, i: nat)
    requires size > 0
  {
    base + i < |rows| && Arrived(item, rows[base + i], now(PageOf(i, size)))
  }

  lemma HoldsRowsConcat(
    front: seq<Json>, back: seq<Json>, now: nat -> string, rows: seq<Json>, base: nat, size: nat, from: nat)
    requires size > 0 && HoldsRows(front, now, rows, base, size, 0) && HoldsRows(back, now, rows, base, size, from)
    requires back != [] ==> from == |front|
    ensures HoldsRows(front + back, now, rows, base, size, 0)
  {
    hide HoldsRow;
    var w := front + back;
    forall i | 0 <= i < |w|
      ensures HoldsRow(w[i], now, rows, base, size, i)
    {
      if i < |front| {
        assert HoldsRow(front[i], now, rows, base, size, 0 + i);
      } else {
        assert HoldsRow(back[i - |front|], now, rows, base, size, from + (i - |front|));
      }
    }
  }

  lemma StampArrives(item: Json, now: string)
    requires item.Dict?
    ensures Arrived(Stamp(item, now), item, now)
  {
  }

  lemma PageHoldsRows(now: nat -> string, rows: seq<Json>, base: nat, size: nat, k: nat, back: seq<Json>)
    requires AllRecords(rows) && size > 0
    requires back == Stamped(Dicts(PageAt(rows, base, size, k)), now(k))
    ensures HoldsRows(back, now, rows, base, size, RowsBefore(size, k))
  {
    hide PageAt, RowsBefore, Stamp, Arrived;
    StampedPage(now(k), rows, base, size, k, back);
    forall i | 0 <= i < |back|
      ensures HoldsRow(back[i], now, rows, base, size, RowsBefore(size, k) + i)
    {
      RowsOfPage(size, k, i);
      StampArrives(rows[base + RowsBefore(size, k) + i], now(k));
    }
  }

  lemma {:induction false} PagesOfRecords(now: nat -> string, rows: seq<Json>, base: nat, size: nat, k: nat)
    requires AllRecords(rows) && size > 0
    ensures |PagesStamped(now, rows, base, size, k)| == Upto(Remaining(rows, base), RowsBefore(size, k))
    ensures HoldsRows(PagesStamped(now, rows, base, size, k), now, rows, base, size, 0)
  {
    hide RowsBefore, PageAt, Stamped, Dicts, AllRecords, HoldsRows, Stamp;
    RowsBeforeNext(size, 0);
    if k == 0 {
      NoRowsHeld(now, rows, base, size);
    } else {
      PagesOfRecords(now, rows, base, size, k - 1);
      RowsBeforeNext(size, k - 1);
      var front := PagesStamped(now, rows, base, size, k - 1);
      var back := Stamped(Dicts(PageAt(rows, base, size, k - 1)), now(k - 1));
      StampedPage(now(k - 1), rows, base, size, k - 1, back);
      PageHoldsRows(now, rows, base, size, k - 1, back);
      HoldsRowsConcat(front, back, now, rows, base, size, RowsBefore(size, k - 1));
    }
  }

  lemma NoRowsHeld(now: nat -> string, rows: seq<Json>, base: nat, size: nat)
    requires size > 0
    ensures HoldsRows([], now, rows, base, size, 0)
  {
  }

  /** o has written exactly the rows from base on, in order, each with its page's arrival time. */
  ghost predicate WroteRows(u: Setup, o: Outcome, rows: seq<Json>, base: nat) {
    && u.cfg.pageSize > 0 && o.Done?
    && o.s.pagesFetched == PageOf(Remaining(rows, base), u.cfg.pageSize) + 1
    && o.s.buffer == []
    && o.s.totalRows == |Flat(o.s.tables)| == Remaining(rows, base)
    && HoldsRows(Flat(o.s.tables), u.now, rows, base, u.cfg.pageSize, 0)
  }

  lemma FirstShortOfRecords(rows: seq<Json>, base: nat, size: nat)
    requires AllRecords(rows) && size > 0
    ensures forall j: nat :: j <= PageOf(Remaining(rows, base), size) ==>
      (IsShort(rows, base, size, j) <==> j == PageOf(Remaining(rows, base), size))
  {
    forall j: nat | j <= PageOf(Remaining(rows, base), size)
      ensures IsShort(rows, base, size, j) <==> j == PageOf(Remaining(rows, base), size)
    {
      PageOfRecords(rows, base, size, j);
    }
  }

  /**
   A table of n records behind the start is written whole, in order and once each, in
   exactly n / page_size + 1 requests.
   */
  lemma RecordsAreExtractedOnce(u: Setup, rows: seq<Json>, base: nat)
    requires ServesPages(u, rows, base) && AllRecords(rows)
    ensures !StopsWithin(u, PageOf(Remaining(rows, base), u.cfg.pageSize))
    ensures WroteRows(u, After(u, PageOf(Remaining(rows, base), u.cfg.pageSize) + 1), rows, base)
  {
    hide IsShort, After, FetchedBy, PagesStamped, Flat, AllRecords, RowsBefore;
    var size := u.cfg.pageSize;
    var n := Remaining(rows, base);
    var last := PageOf(n, size);
    FirstShortOfRecords(rows, base, size);
    StopsAtFirstShortPage(u, rows, base, last);
    PagesOfRecords(u.now, rows, base, size, last + 1);
    PageOfIff(n, size, last + 1);
    assert |PagesStamped(u.now, rows, base, size, last + 1)| == n;
    NothingLostInTheBuffer(u, last + 1);
  }

  // ---------- The mock store server ----------

  function IntParam(params: Params, name: string, default: int): Result<int, string> {
    if name !in params then Ok(default)
    else match params[name]
      case Number(n) => Ok(n)
      case _ => Err("422")
  }

  function CeilDiv(total: nat, limit: nat): int
    requires limit > 0
  {
    (total + limit - 1) / limit
  }

  function BuildPagination(page: int, limit: int, total: nat): map<string, Json> {
    var pages := if limit > 0 then CeilDiv(total, limit) else 1;
    map["page" := Number(page), "limit" := Number(limit), "total_records" := Number(total),
        "total_pages" := Number(pages), "has_next" := Number(if page < pages then 1 else 0)]
  }

  lemma CeilDivBounds(total: nat, limit: nat)
    requires limit > 0
    ensures (CeilDiv(total, limit) - 1) * limit < total <= CeilDiv(total, limit) * limit
  {
    var n := total + limit - 1;
    assert n == (n / limit) * limit + n % limit;
  }

  lemma ProductsOrdered(a: int, b: int, limit: int)
    requires a <= b && limit >= 0
    ensures a * limit <= b * limit
  {
  }

  /** The value orders are filtered by, as sent; absent, null or empty means every order. */
  function StatusParam(params: Params): Json {
    if "status" in params && params["status"] != Text("") then params["status"] else Null
  }

  predicate HasStatus(row: Json, status: Json) {
    row.Dict? && "status" in row.fields && row.fields["status"] == status
  }

  /** The orders a query with this status selects. */
  function WithStatus(table: seq<Json>, status: Json): seq<Json> {
    if status.Null? || table == [] then table
    else
      WithStatus(table[..|table| - 1], status) +
      (if HasStatus(table[|table| - 1], status) then [table[|table| - 1]] else [])
  }

  /**
   list_orders over a table in a fixed order; SQL refuses a negative OFFSET or LIMIT. The total
   counts the whole table, whatever the status.
   */
  function ListOrders(table: seq<Json>, params: Params): Result<Json, string> {
    match (IntParam(params, "page", 1), IntParam(params, "limit", 50))
    case (Ok(page), Ok(limit)) =>
      var offset := (page - 1) * limit;
      if limit < 0 || offset < 0 then Err("500")
      else Ok(Dict(map["data" := List(Slice(WithStatus(table, StatusParam(params)), offset, limit)),
                       "pagination" := Dict(BuildPagination(page, limit, |table|))]))
    case _ => Err("422")
  }

  /** A status selects some of the rows, and of records only records. */
  lemma {:induction false} WithStatusIs(table: seq<Json>, status: Json)
    ensures |WithStatus(table, status)| <= |table|
    ensures forall row :: row in WithStatus(table, status) <==>
      row in table && (status.Null? || (row.Dict? && "status" in row.fields && row.fields["status"] == status))
    ensures AllRecords(table) ==> AllRecords(WithStatus(table, status))
  {
    if !status.Null? && table != [] {
      var front, last := table[..|table| - 1], table[|table| - 1];
      assert table == front + [last];
      WithStatusIs(front, status);
    }
  }

  /** What is asked for: no status, a null or an empty one means every order; the selection keeps the table's order. */
  lemma {:induction false} WantedAre(u: Setup, front: seq<Json>, back: seq<Json>)
    ensures forall row :: row in Wanted(u, front) <==>
      row in front && ("status" in u.custom && u.custom["status"] !in {Null, Text("")} ==>
                         row.Dict? && "status" in row.fields && row.fields["status"] == u.custom["status"])
    ensures Wanted(u, front + back) == Wanted(u, front) + Wanted(u, back)
    decreases |back|
  {
    WithStatusIs(front, StatusParam(u.custom));
    if back == [] {
      assert front + back == front && Wanted(u, back) == [];
    } else {
      WantedAre(u, front, back[..|back| - 1]);
      assert (front + back)[..|front + back| - 1] == front + back[..|back| - 1];
    }
  }

  /** The orders with the status the client is configured to ask for. */
  function Wanted(u: Setup, table: seq<Json>): seq<Json> {
    WithStatus(table, StatusParam(u.custom))
  }

  /** The store answers iff page and limit are numbers, the limit is not negative and the page does not lie before the first. */
  lemma ListOrdersAnswersIff(table: seq<Json>, params: Params)
    ensures ListOrders(table, params).Ok? <==>
      && ("page" in params ==> params["page"].Number?) && ("limit" in params ==> params["limit"].Number?)
      && var page, limit := if "page" in params then params["page"].n else 1, if "limit" in params then params["limit"].n else 50;
        limit >= 0 && (page - 1) * limit >= 0
  {
    hide WithStatus, Slice, BuildPagination;
  }

  /** A page's has_next is set iff orders of the whole table lie behind it; total_pages is the least number that holds all. */
  lemma HasNextCountsAll(page: int, limit: int, total: nat)
    requires limit >= 0
    ensures var p := BuildPagination(page, limit, total);
      && p.Keys == {"page", "limit", "total_records", "total_pages", "has_next"}
      && p["page"] == Number(page) && p["limit"] == Number(limit) && p["total_records"] == Number(total)
      && p["total_pages"].Number?
      && (if limit == 0 then p["total_pages"].n == 1 else (p["total_pages"].n - 1) * limit < total <= p["total_pages"].n * limit)
    ensures BuildPagination(page, limit, total)["has_next"] == Number(1)
       <==> if limit == 0 then page < 1 else page * limit < total
  {
    if limit > 0 {
      hide CeilDiv;
      var pages := CeilDiv(total, limit);
      CeilDivBounds(total, limit);
      if page < pages {
        ProductsOrdered(page, pages - 1, limit);
      } else {
        ProductsOrdered(pages, page, limit);
      }
    }
  }

  /** The envelope says that selected orders follow the page exactly when some do. */
  predicate HasNextIsRight(table: seq<Json>, params: Params)
    requires ListOrders(table, params).Ok?
  {
    var page, limit := IntParam(params, "page", 1).value, IntParam(params, "limit", 50).value;
    var pagination := ListOrders(table, params).value.fields["pagination"].fields;
    pagination["has_next"] == Number(1) <==> page * limit < |WithStatus(table, StatusParam(params))|
  }

  /**
   It is right iff the page does not end between the selected orders and all orders; without a
   status it always is. A limit of 0 never gets further.
   */
  lemma HasNextIsRightIff(table: seq<Json>, params: Params)
    requires ListOrders(table, params).Ok?
    ensures var page, limit := IntParam(params, "page", 1).value, IntParam(params, "limit", 50).value;
      var rows := WithStatus(table, StatusParam(params));
      HasNextIsRight(table, params)
      <==> if limit == 0 then page < 1 <==> rows != [] else !(|rows| <= page * limit < |table|)
  {
    var page, limit := IntParam(params, "page", 1).value, IntParam(params, "limit", 50).value;
    HasNextCountsAll(page, limit, |table|);
    WithStatusIs(table, StatusParam(params));
    hide BuildPagination, WithStatus, Slice;
    assert limit == 0 ==> page * limit == 0;
  }

  lemma EnvelopeOfData(items: seq<Json>, extra: Json)
    ensures ExtractEnvelopeItems(Dict(map["data" := List(items), "pagination" := extra])) == Dicts(items)
  {
    assert WRAPPER_KEYS[0] == "data";
  }

  /** A client set up for the mock store: page numbers under the names the server reads. */
  ghost predicate PagesMockStore(u: Setup, table: seq<Json>) {
    && u.cfg.strategy.PageNumber? && u.cfg.limitParam == "limit" && u.cfg.pageParam == "page" && u.cfg.pageSize > 0
    && forall p :: u.server(p) == ListOrders(table, p)
  }

  /** The first row a client asks for when its page numbers start at page_start. */
  function FirstRow(cfg: PaginationConfig): (base: nat)
    requires cfg.pageStart >= 1 && cfg.pageSize > 0
    ensures base == 0 <==> cfg.pageStart == 1
  {
    var base := (cfg.pageStart - 1) * cfg.pageSize;
    assert cfg.pageStart > 1 ==> base >= cfg.pageSize;
    base
  }

  /** The k-th request of a client that starts at its first page is answered with the k-th page. */
  lemma MockStoreAnswers(u: Setup, table: seq<Json>, s: Loop, k: nat)
    requires PagesMockStore(u, table) && u.cfg.pageStart >= 1 && s.pageNum == u.cfg.pageStart + k
    ensures AnswersPage(u, s, Wanted(u, table), FirstRow(u.cfg), k)
  {
    hide WithStatus, Slice, BuildPagination, ExtractEnvelopeItems, Dicts;
    var size, base := u.cfg.pageSize, FirstRow(u.cfg);
    var params := BuildPageParams(u.cfg, s.offset, s.pageNum, s.cursor, u.custom);
    assert params["page"] == Number(u.cfg.pageStart + k) && params["limit"] == Number(size);
    assert StatusParam(params) == StatusParam(u.custom);
    assert (u.cfg.pageStart + k - 1) * size == base + RowsBefore(size, k);
    EnvelopeOfData(PageAt(Wanted(u, table), base, size, k), Dict(BuildPagination(u.cfg.pageStart + k, size, |table|)));
  }

  lemma MockStoreServesPages(u: Setup, table: seq<Json>)
    requires PagesMockStore(u, table) && u.cfg.pageStart >= 1
    ensures ServesPages(u, Wanted(u, table), FirstRow(u.cfg))
  {
    hide AnswersPage, Wanted, FirstRow;
    forall k: nat, s: Loop | AsksPage(u, s, k)
      ensures AnswersPage(u, s, Wanted(u, table), FirstRow(u.cfg), k)
    {
      MockStoreAnswers(u, table, s, k);
    }
  }

  /**
   Client against mock store: from page_start p >= 1 exactly the wanted orders behind the first
   p - 1 pages arrive, so all of them arrive iff the first page asked for is page 1. What has_next
   says does not matter.
   */
  lemma MockStoreExtraction(u: Setup, table: seq<Json>)
    requires PagesMockStore(u, table) && AllRecords(table) && u.cfg.pageStart >= 1
    ensures var rows, base := Wanted(u, table), FirstRow(u.cfg);
      var last := PageOf(Remaining(rows, base), u.cfg.pageSize);
      && !StopsWithin(u, last)
      && WroteRows(u, After(u, last + 1), rows, base)
      && (After(u, last + 1).s.totalRows == |rows| <==> u.cfg.pageStart == 1 || rows == [])
  {
    hide StopsWithin, After, Flat, PageOf, AllRecords, WithStatus;
    MockStoreServesPages(u, table);
    WithStatusIs(table, StatusParam(u.custom));
    RecordsAreExtractedOnce(u, Wanted(u, table), FirstRow(u.cfg));
  }

  /** Page numbers that start below 1 make the very first request fail. */
  lemma PageStartBelowOneFails(u: Setup, table: seq<Json>)
    requires PagesMockStore(u, table) && u.cfg.pageStart < 1
    ensures After(u, 1).Failed?
  {
    var params := BuildPageParams(u.cfg, 0, u.cfg.pageStart, Null, u.custom);
    assert params["page"] == Number(u.cfg.pageStart) && params["limit"] == Number(u.cfg.pageSize);
    assert (u.cfg.pageStart - 1) * u.cfg.pageSize < 0;
    assert After(u, 0) == Again(Start(u));
    assert After(u, 1) == Turn(u, Start(u));
  }

  /** The mock store ignores an offset parameter, so offset_limit sees page 1 for ever. */
  ghost predicate OffsetsMockStore(u: Setup, table: seq<Json>) {
    && u.cfg.strategy.OffsetLimit? && u.cfg.limitParam == "limit" && u.cfg.offsetParam !in {"limit", "page", "status"}
    && u.cfg.pageSize > 0 && "page" !in u.custom
    && forall p :: u.server(p) == ListOrders(table, p)
  }

  lemma OffsetTurn(u: Setup, table: seq<Json>, s: Loop)
    requires OffsetsMockStore(u, table)
    ensures Turn(u, s).Done? <==> IsShort(Wanted(u, table), 0, u.cfg.pageSize, 0)
    ensures Turn(u, s).Again? <==> !IsShort(Wanted(u, table), 0, u.cfg.pageSize, 0)
  {
    hide WithStatus;
    var size := u.cfg.pageSize;
    var params := BuildPageParams(u.cfg, s.offset, s.pageNum, s.cursor, u.custom);
    assert "page" !in params && params["limit"] == Number(size);
    assert StatusParam(params) == StatusParam(u.custom);
    EnvelopeOfData(PageAt(Wanted(u, table), 0, size, 0), Dict(BuildPagination(1, size, |table|)));
  }

  /** offset_limit against the mock store ends iff the first page is short. */
  lemma OffsetLimitEndsIff(u: Setup, table: seq<Json>)
    requires OffsetsMockStore(u, table)
    ensures (exists k: nat :: StopsWithin(u, k)) <==> IsShort(Wanted(u, table), 0, u.cfg.pageSize, 0)
  {
    if IsShort(Wanted(u, table), 0, u.cfg.pageSize, 0) {
      OffsetTurn(u, table, Start(u));
      assert After(u, 0) == Again(Start(u));
      assert StopsWithin(u, 1);
    } else {
      forall k: nat
        ensures !StopsWithin(u, k)
      {
        OffsetNeverStops(u, table, k);
      }
    }
  }

  lemma {:induction false} OffsetNeverStops(u: Setup, table: seq<Json>, k: nat)
    requires OffsetsMockStore(u, table) && !IsShort(Wanted(u, table), 0, u.cfg.pageSize, 0)
    ensures !StopsWithin(u, k)
  {
    if k > 0 {
      OffsetNeverStops(u, table, k - 1);
      OffsetTurn(u, table, After(u, k - 1).s);
    }
  }

  /** One record and a page size of 1: the first page is full, and is all the loop ever sees. */
  lemma EndlessOffsetRun(now: nat -> string, k: nat)
    ensures var table := [Dict(map[])];
      var cfg := PaginationConfig(OffsetLimit, 1, 1, "limit", "offset", "page", []);
      var u := Setup(cfg, 100, map[], p => ListOrders(table, p), now);
      OffsetsMockStore(u, table) && AllRecords(table) && !StopsWithin(u, k)
  {
    hide After, StopsWithin;
    var table := [Dict(map[])];
    var cfg := PaginationConfig(OffsetLimit, 1, 1, "limit", "offset", "page", []);
    var u := Setup(cfg, 100, map[], p => ListOrders(table, p), now);
    RowsBeforeNext(1, 0);
    DictsOfRecords(table);
    assert PageAt(table, 0, 1, 0) == table;
    OffsetNeverStops(u, table, k);
  }

  /** Without paging there is one request, with the configured parameters alone, and what it returns is written. */
  lemma NoPagingExtraction(u: Setup)
    requires u.cfg.strategy.NoPaging?
    ensures match u.server(u.custom)
      case Ok(raw) =>
        After(u, 1).Done? && HoldsPages(Flat(After(u, 1).s.tables), [ExtractEnvelopeItems(raw)], u.now)
      case Err(error) => After(u, 1) == Failed(error)
  {
    hide HoldsPages, ExtractEnvelopeItems, Buffered, Stamped, Received, FetchedBy, Accounts, Batches;
    NothingLostInTheBuffer(u, 1);
    assert After(u, 0) == Again(Start(u));
    assert After(u, 1) == Turn(u, Start(u));
    if u.server(u.custom).Ok? {
      ReceivedOnce(u);
    }
  }

  lemma ReceivedOnce(u: Setup)
    requires u.cfg.strategy.NoPaging? && u.server(u.custom).Ok?
    ensures Received(u, 1) == [ExtractEnvelopeItems(u.server(u.custom).value)]
  {
    hide ExtractEnvelopeItems;
    assert After(u, 0) == Again(Start(u));
    assert Received(u, 0) == [];
  }

  /** So of the mock store it gets the first 50 orders, which are all only if there are no more. */
  lemma NoPagingSeesFifty(u: Setup, table: seq<Json>)
    requires u.cfg.strategy.NoPaging? && "page" !in u.custom && "limit" !in u.custom && AllRecords(table)
    requires u.server(u.custom) == ListOrders(table, u.custom)
    ensures var rows := Wanted(u, table);
      && After(u, 1).Done?
      && HoldsPages(Flat(After(u, 1).s.tables), [if |rows| <= 50 then rows else rows[..50]], u.now)
  {
    hide HoldsPages, WithStatus, AllRecords, BuildPagination;
    var rows := Wanted(u, table);
    NoPagingExtraction(u);
    WithStatusIs(table, StatusParam(u.custom));
    EnvelopeOfData(Slice(rows, 0, 50), Dict(BuildPagination(1, 50, |table|)));
    FirstRows(rows);
  }

  lemma FirstRows(rows: seq<Json>)
    requires AllRecords(rows)
    ensures Dicts(Slice(rows, 0, 50)) == if |rows| <= 50 then rows else rows[..50]
  {
    DictsOfRecords(Slice(rows, 0, 50));
  }

  /** A server that does read offset and limit serves the pages the loop expects. */
  function OffsetStore(rows: seq<Json>, params: Params): Result<Json, string> {
    match (IntParam(params, "offset", 0), IntParam(params, "limit", 50))
    case (Ok(offset), Ok(limit)) =>
      if limit < 0 || offset < 0 then Err("500") else Ok(List(Slice(rows, offset, limit)))
    case _ => Err("422")
  }

  lemma OffsetStoreServesPages(u: Setup, rows: seq<Json>)
    requires u.cfg.strategy.OffsetLimit? && u.cfg.limitParam == "limit" && u.cfg.offsetParam == "offset"
    requires u.cfg.pageSize > 0 && forall p :: u.server(p) == OffsetStore(rows, p)
    ensures ServesPages(u, rows, 0)
  {
    var size := u.cfg.pageSize;
    forall k: nat, s: Loop | AsksPage(u, s, k)
      ensures AnswersPage(u, s, rows, 0, k)
    {
      var params := BuildPageParams(u.cfg, s.offset, s.pageNum, s.cursor, u.custom);
      assert params["offset"] == Number(RowsBefore(size, k)) && params["limit"] == Number(size);
    }
  }

  /** The loop's j-th turn makes a request, and it fails. */
  ghost predicate RequestFails(u: Setup, j: nat) {
    After(u, j).Again? && Response(u, After(u, j).s).Err?
  }

  lemma NoTurnFinishes(u: Setup, s: Loop)
    requires u.cfg.pageSize <= 0 && CountsPages(u.cfg.strategy)
    ensures if Response(u, s).Err? then Turn(u, s).Failed? else Turn(u, s).Again?
  {
    hide Response, Buffered, ItemsOf;
  }

  /** With a page size below 1 no page is ever short: a counting strategy ends only by a request that fails. */
  lemma {:induction false} NonPositivePageSizeNeverFinishes(u: Setup, k: nat)
    requires u.cfg.pageSize <= 0 && CountsPages(u.cfg.strategy)
    ensures !After(u, k).Done?
    ensures StopsWithin(u, k) <==> exists j: nat :: j < k && RequestFails(u, j)
  {
    hide Turn, Response;
    if k > 0 {
      NonPositivePageSizeNeverFinishes(u, k - 1);
      if After(u, k - 1).Again? {
        NoTurnFinishes(u, After(u, k - 1).s);
        assert StopsWithin(u, k) <==> RequestFails(u, k - 1);
      }
    }
  }

  // ---------- Cursors ----------

  /** Page i is answered to cursor i and names cursor i + 1; the last page names none. */
  ghost predicate ServesCursors(u: Setup, pages: seq<seq<Json>>, cursors: seq<Json>) {
    && u.cfg.strategy.Cursor?
    && |pages| == |cursors| > 0 && cursors[0] == Null
    && forall i: nat :: i < |pages| ==> AnswersCursor(u, pages, cursors, i)
  }

  /** Asked for cursor i - the first page without one - the server sends page i; no falsy value is a cursor. */
  ghost predicate AnswersCursor(u: Setup, pages: seq<seq<Json>>, cursors: seq<Json>, i: nat)
    requires i < |pages| == |cursors|
  {
    var response := u.server(if cursors[i].Null? then u.custom else u.custom["cursor" := cursors[i]]);
    && response.Ok? && response.value.Dict? && ExtractEnvelopeItems(response.value) == pages[i]
    && var next := ResolveJsonPath(response.value, u.cfg.cursorPath);
      if i + 1 < |pages|
      then next == cursors[i + 1] && next !in {Null, Text(""), Number(0), List([]), Dict(map[])}
      else next in {Null, Text(""), Number(0), List([]), Dict(map[])}
  }

  function AllStamped(now: nat -> string, pages: seq<seq<Json>>, k: nat): seq<Json>
    requires k <= |pages|
  {
    if k == 0 then [] else AllStamped(now, pages, k - 1) + Stamped(pages[k - 1], now(k - 1))
  }

  lemma CursorTurn(u: Setup, pages: seq<seq<Json>>, cursors: seq<Json>, i: nat, s: Loop)
    requires ServesCursors(u, pages, cursors) && i < |pages| && s.cursor == cursors[i] && s.pagesFetched == i
    ensures ItemsOf(u, s) == Stamped(pages[i], u.now(i))
    ensures |pages[i]| < u.cfg.pageSize || i + 1 == |pages| ==> Turn(u, s).Done? && Turn(u, s).s.pagesFetched == i + 1
    ensures |pages[i]| >= u.cfg.pageSize && i + 1 < |pages| ==>
      Turn(u, s).Again? && Turn(u, s).s.cursor == cursors[i + 1] && Turn(u, s).s.pagesFetched == i + 1
  {
    assert AnswersCursor(u, pages, cursors, i);
  }

  lemma {:induction false} CursorsGoOn(u: Setup, pages: seq<seq<Json>>, cursors: seq<Json>, k: nat)
    requires ServesCursors(u, pages, cursors) && k < |pages|
    requires forall j :: 0 <= j < k ==> |pages[j]| >= u.cfg.pageSize
    ensures After(u, k).Again? && After(u, k).s.cursor == cursors[k] && After(u, k).s.pagesFetched == k
    ensures FetchedBy(u, k) == AllStamped(u.now, pages, k)
  {
    hide Turn, ItemsOf;
    if k > 0 {
      CursorsGoOn(u, pages, cursors, k - 1);
      CursorTurn(u, pages, cursors, k - 1, After(u, k - 1).s);
    }
  }

  /**
   Cursor paging ends at the first page that is short or names no cursor, and writes exactly the
   pages up to it; a short page that does name a cursor cuts the extraction off.
   */
  lemma CursorExtraction(u: Setup, pages: seq<seq<Json>>, cursors: seq<Json>, last: nat)
    requires ServesCursors(u, pages, cursors) && last < |pages|
    requires |pages[last]| < u.cfg.pageSize || last + 1 == |pages|
    requires forall j :: 0 <= j < last ==> |pages[j]| >= u.cfg.pageSize
    ensures !StopsWithin(u, last) && After(u, last + 1).Done?
    ensures HoldsPages(Flat(After(u, last + 1).s.tables), pages[..last + 1], u.now)
  {
    hide Turn, ItemsOf, ServesCursors, Flat, Accounts, HoldsPages, Received;
    CursorPagesHeld(u, pages, cursors, last + 1);
    CursorsGoOn(u, pages, cursors, last);
    CursorAt(u, pages, cursors, last);
    CursorTurn(u, pages, cursors, last, After(u, last).s);
    NothingLostInTheBuffer(u, last + 1);
  }

  lemma {:induction false} CursorPagesHeld(u: Setup, pages: seq<seq<Json>>, cursors: seq<Json>, n: nat)
    requires ServesCursors(u, pages, cursors) && n <= |pages|
    ensures HoldsPages(AllStamped(u.now, pages, n), pages[..n], u.now)
  {
    hide HoldsPages, Stamped, ExtractEnvelopeItems, ResolveJsonPath;
    if n == 0 {
      NoPagesHeld(u.now);
    } else {
      CursorPagesHeld(u, pages, cursors, n - 1);
      assert AnswersCursor(u, pages, cursors, n - 1);
      EnvelopeIs(u.server(if cursors[n - 1].Null? then u.custom else u.custom["cursor" := cursors[n - 1]]).value);
      OnePageMore(AllStamped(u.now, pages, n - 1), pages[..n - 1], u.now, pages[n - 1]);
      assert pages[..n - 1] + [pages[n - 1]] == pages[..n];
    }
  }

  lemma CursorAt(u: Setup, pages: seq<seq<Json>>, cursors: seq<Json>, i: nat)
    requires ServesCursors(u, pages, cursors) && i < |pages|
    ensures |cursors| == |pages|
  {
  }
}
