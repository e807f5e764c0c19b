/**
 Watermark values (app/domain/pipelines/watermark.py and
 app/infrastructure/adapters/compute/watermark_binding.py).
 */
module Watermark {
  import opened Wrappers

  datatype WatermarkType = INTEGER | FLOAT | TIMESTAMP | DATE | STRING

  datatype Watermark = Watermark(value: string, type_: WatermarkType)

  /**
   What Python and the SQL engine know about texts: which ones int(), float() and
   fromisoformat() accept, and how the watermark column orders the texts of its cells.
   */
  datatype Engine = Engine(accepts: (WatermarkType, string) -> bool, less: (string, string) -> bool)

  /** A strict weak order: texts such as 1.0 and 1.00 may be neither less nor greater. */
  ghost predicate Ordered(e: Engine) {
    && (forall a :: !e.less(a, a))
    && (forall a, b, c :: e.less(a, b) && e.less(b, c) ==> e.less(a, c))
    && (forall a, b, c :: e.less(a, c) ==> e.less(a, b) || e.less(b, c))
  }

  ghost predicate Same(e: Engine, a: string, b: string) {
    !e.less(a, b) && !e.less(b, a)
  }

  // ---------- Parsing ----------

  predicate IsSpace(c: char) {
    c in {' ', '\t', '\n', '\r'}
  }

  function StripLeft(s: string): (r: string)
    ensures |r| <= |s| && (r == "" || !IsSpace(r[0]))
  {
    if s != "" && IsSpace(s[0]) then StripLeft(s[1..]) else s
  }

  function StripRight(s: string): (r: string)
    ensures |r| <= |s| && (r == "" || !IsSpace(r[|r| - 1])) && r <= s
  {
    if s != "" && IsSpace(s[|s| - 1]) then StripRight(s[..|s| - 1]) else s
  }

  function Strip(s: string): string {
    StripRight(StripLeft(s))
  }

  /** Stripping cuts blanks off both ends, and nothing else. */
  lemma StripIs(s: string)
    ensures exists i, j :: (
      && 0 <= i <= j <= |s| && Strip(s) == s[i..j]
      && (forall k :: 0 <= k < i || j <= k < |s| ==> s[k] in {' ', '\t', '\n', '\r'})
      && (i < j ==> s[i] !in {' ', '\t', '\n', '\r'} && s[j - 1] !in {' ', '\t', '\n', '\r'}))
  {
    var i := StripLeftIs(s);
    var j := StripRightIs(s[i..]);
    assert Strip(s) == s[i..i + j];
    assert forall k :: i + j <= k < |s| ==> s[k] == s[i..][k - i];
  }

  lemma StripLeftIs(s: string) returns (i: nat)
    ensures i <= |s| && StripLeft(s) == s[i..] && forall k :: 0 <= k < i ==> IsSpace(s[k])
  {
    if s != "" && IsSpace(s[0]) {
      var rest := StripLeftIs(s[1..]);
      i := rest + 1;
      assert forall k :: 1 <= k < i ==> s[k] == s[1..][k - 1];
    } else {
      i := 0;
    }
  }

  lemma StripRightIs(s: string) returns (j: nat)
    ensures j <= |s| && StripRight(s) == s[..j] && forall k :: j <= k < |s| ==> IsSpace(s[k])
  {
    if s != "" && IsSpace(s[|s| - 1]) {
      j := StripRightIs(s[..|s| - 1]);
    } else {
      j := |s|;
    }
  }

  lemma StripTwice(s: string)
    ensures Strip(Strip(s)) == Strip(s)
  {
    var r := Strip(s);
    if r != "" {
      assert r[0] == StripLeft(s)[0];
    }
  }

  function Parse(e: Engine, raw: Option<string>, type_: WatermarkType): Result<Watermark, string> {
    if raw.None? || Strip(raw.value) == "" then Err("empty")
    else if type_ != STRING && !e.accepts(type_, Strip(raw.value)) then Err("cannot parse")
    else Ok(Watermark(Strip(raw.value), type_))
  }

  /** A text is refused iff it is blank or the declared type does not accept it; else it is kept but for blanks around it. */
  lemma ParseIff(e: Engine, raw: Option<string>, type_: WatermarkType)
    ensures Parse(e, raw, type_).Ok? <==>
      && raw.Some? && (exists k :: 0 <= k < |raw.value| && raw.value[k] !in {' ', '\t', '\n', '\r'})
      && (type_.STRING? || e.accepts(type_, Strip(raw.value)))
    ensures Parse(e, raw, type_).Ok? ==> Parse(e, raw, type_).value == Watermark(Strip(raw.value), type_)
  {
    if raw.Some? {
      StripIs(raw.value);
    }
  }

  /** Parsing what was parsed changes nothing. */
  lemma ParseTwice(e: Engine, raw: Option<string>, type_: WatermarkType)
    requires Parse(e, raw, type_).Ok?
    ensures Parse(e, Some(Parse(e, raw, type_).value.value), type_) == Parse(e, raw, type_)
  {
    StripTwice(raw.value);
  }

  // ---------- SQL literals ----------

  function Escaped(s: string): string {
    if s == "" then ""
    else (if s[0] == '\'' then "''" else [s[0]]) + Escaped(s[1..])
  }

  function AsSqlLiteral(w: Watermark): string {
    if w.type_.INTEGER? || w.type_.FLOAT? then w.value else "'" + Escaped(w.value) + "'"
  }

  /** SQL's reading of the inside of a quoted literal: the text and what follows its closing quote. */
  function ReadQuoted(s: string): Option<(string, string)> {
    if s == "" then None
    else if s[0] == '\'' then
      if |s| > 1 && s[1] == '\'' then
        match ReadQuoted(s[2..])
        case None => None
        case Some(r) => Some((['\''] + r.0, r.1))
      else Some(("", s[1..]))
    else
      match ReadQuoted(s[1..])
      case None => None
      case Some(r) => Some(([s[0]] + r.0, r.1))
  }

  /** A quoted literal is read back as exactly the value, whatever quotes the value holds. */
  lemma {:induction false} EscapedReadsBack(s: string, rest: string)
    requires rest == "" || rest[0] != '\''
    ensures ReadQuoted(Escaped(s) + "'" + rest) == Some((s, rest))
  {
    var t := Escaped(s) + "'" + rest;
    if s == "" {
      assert t == "'" + rest;
      assert t[1..] == rest;
    } else {
      EscapedReadsBack(s[1..], rest);
      var u := Escaped(s[1..]) + "'" + rest;
      assert s == [s[0]] + s[1..];
      if s[0] == '\'' {
        assert t == "''" + u;
        assert t[2..] == u;
      } else {
        assert t == [s[0]] + u;
        assert t[1..] == u;
      }
    }
  }

  /** A number is written as it is; every other literal is quoted and read back as the value. */
  lemma LiteralDenotesValue(w: Watermark)
    ensures w.type_.INTEGER? || w.type_.FLOAT? ==> AsSqlLiteral(w) == w.value
    ensures !w.type_.INTEGER? && !w.type_.FLOAT? ==>
      && AsSqlLiteral(w) != "" && AsSqlLiteral(w)[0] == '\''
      && ReadQuoted(AsSqlLiteral(w)[1..]) == Some((w.value, ""))
  {
    if !w.type_.INTEGER? && !w.type_.FLOAT? {
      EscapedReadsBack(w.value, "");
      assert AsSqlLiteral(w)[1..] == Escaped(w.value) + "'" + "";
    }
  }

  // ---------- Incremental extraction ----------

  /** The watermark column of a table; None is SQL NULL. */
  type Column = seq<Option<string>>

  /** `col > w`; without a watermark every row is read, and NULL is greater than nothing. */
  predicate Selected(e: Engine, w: Option<Watermark>, cell: Option<string>) {
    w.None? || (cell.Some? && e.less(w.value.value, cell.value))
  }

  /** The row numbers one extraction reads. */
  function Batch(e: Engine, column: Column, w: Option<Watermark>): seq<nat> {
    if column == [] then []
    else
      var front := column[..|column| - 1];
      Batch(e, front, w) + (if Selected(e, w, column[|column| - 1]) then [|column| - 1] else [])
  }

  /** SQL MAX over the rows read: NULLs are skipped. */
  function MaxCell(e: Engine, column: Column, w: Option<Watermark>): Option<string> {
    if column == [] then None
    else
      var best := MaxCell(e, column[..|column| - 1], w);
      var cell := column[|column| - 1];
      if !Selected(e, w, cell) || cell.None? then best
      else if best.None? || e.less(best.value, cell.value) then cell
      else best
  }

  lemma BatchIs(e: Engine, column: Column, w: Option<Watermark>)
    ensures forall i :: i in Batch(e, column, w) <==> 0 <= i < |column| && Selected(e, w, column[i])
    ensures forall i :: i in Batch(e, column, w) <==>
      0 <= i < |column| && (w.Some? ==> column[i].Some? && e.less(w.value.value, column[i].value))
  {
    if column != [] {
      BatchIs(e, column[..|column| - 1], w);
    }
  }

  /** The maximum is a cell that was read, and no cell read is greater. */
  lemma MaxCellIs(e: Engine, column: Column, w: Option<Watermark>)
    requires Ordered(e)
    ensures var m := MaxCell(e, column, w);
      && (m.Some? ==> exists i :: 0 <= i < |column| && column[i] == m && Selected(e, w, column[i]))
      && (forall i :: 0 <= i < |column| && Selected(e, w, column[i]) && column[i].Some? ==>
           m.Some? && !e.less(m.value, column[i].value))
  {
    if column != [] {
      var front := column[..|column| - 1];
      MaxCellIs(e, front, w);
      var m0, m := MaxCell(e, front, w), MaxCell(e, column, w);
      if m0.Some? {
        var i :| 0 <= i < |front| && front[i] == m0 && Selected(e, w, front[i]);
        assert column[i] == m0;
      }
      if m == column[|column| - 1] {
        assert column[|column| - 1] == m;
      }
    }
  }

  /** The "watermark" entry of the metrics file. */
  datatype MetricWatermark = MetricWatermark(type_: WatermarkType, value: Option<string>)

  /**
   calculate_parquet_metrics for a job with a watermark column. A REST job that read no row
   leaves no Parquet file and so no entry; the SQL job always leaves a file.
   */
  function CalculateMetrics(
    e: Engine, column: Column, type_: Option<WatermarkType>, incoming: Option<Watermark>, fileAlways: bool)
    : Result<Option<MetricWatermark>, string>
  {
    var t := if type_.Some? then type_.value else STRING;
    var carried := if incoming.Some? then Some(incoming.value.value) else None;
    if Batch(e, column, incoming) == [] then
      Ok(if fileAlways then Some(MetricWatermark(t, carried)) else None)
    else
      match MaxCell(e, column, incoming)
      case None => Ok(Some(MetricWatermark(t, carried)))
      case Some(m) =>
        if type_.None? then Ok(Some(MetricWatermark(t, Some(m))))
        else match Parse(e, Some(m), type_.value)
          case Err(error) => Err(error)
          case Ok(w) => Ok(Some(MetricWatermark(t, Some(w.value))))
  }

  /**
   Stripping is the one thing parsing does to a value: a repeated run over an unchanged table
   reads nothing iff stripping the maximum does not move it down in the column's order.
   */
  lemma RepeatedRunIsEmptyIff(e: Engine, column: Column, w: Option<Watermark>, m: string, type_: WatermarkType)
    requires Ordered(e) && MaxCell(e, column, w) == Some(m) && Parse(e, Some(m), type_).Ok?
    ensures Batch(e, column, Some(Parse(e, Some(m), type_).value)) == [] <==> !e.less(Strip(m), m)
  {
    MaxCellIs(e, column, w);
    var next := Some(Parse(e, Some(m), type_).value);
    BatchIs(e, column, next);
    var k :| 0 <= k < |column| && column[k] == Some(m) && Selected(e, w, column[k]);
    if Batch(e, column, next) != [] {
      var i := Batch(e, column, next)[0];
      assert i in Batch(e, column, next);
      assert e.less(Strip(m), column[i].value);
    }
  }
}
