/**
 * A reader for the exported file, the inverse of the encoder used only in
 * the round-trip lemmas: it
 * undoes the RFC 4180 quote doubling of the detail field and the decimal
 * comma formatting, and recovers every transaction and its entity tag.
 */
module CsvDecode {
  import opened Wrappers
  import opened Types
  import opened Text
  import opened Amount
  import opened CsvExport

  /** One decoded data row: the transaction and the entity tag it was exported under. */
  datatype ExportRow = ExportRow(transaction: Transaction, entity: EntityOption)

  /**
   * Reads the inside of a quoted field (its opening quote already
   * consumed): "" stands for one quote, a lone " closes the field.
   * Returns the field's text and what follows the closing quote.
   */
  function Unquote(s: string): (r: Option<(string, string)>)
    ensures r.Some? ==> |r.value.1| < |s|
  {
    if s == [] then None
    else if s[0] == '"' then
      if |s| >= 2 && s[1] == '"' then
        var inner :- Unquote(s[2..]);
        Some((['"'] + inner.0, inner.1))
      else
        Some(([], s[1..]))
    else
      var inner :- Unquote(s[1..]);
      Some(([s[0]] + inner.0, inner.1))
  }

  /** A quoted field: an opening quote followed by what Unquote reads. */
  function ParseQuoted(s: string): (r: Option<(string, string)>)
    ensures r.Some? ==> |r.value.1| < |s|
  {
    if s != [] && s[0] == '"' then Unquote(s[1..]) else None
  }

  /** The three fields after the detail: movement, balance, entity tag up to the end of the line. */
  function ParseTail(s: string): (r: Option<(int, int, EntityOption, string)>)
    ensures r.Some? ==> |r.value.3| < |s|
  {
    var (movementText, afterMovement) := TakeUntil(s, '|');
    if afterMovement == [] then None
    else
      var (balanceText, afterBalance) := TakeUntil(afterMovement[1..], '|');
      if afterBalance == [] then None
      else
        var (entityText, rest) := TakeUntil(afterBalance[1..], '\n');
        var movement :- ParseAmount(movementText);
        var balance :- ParseAmount(balanceText);
        var entity :- EntityFromLabel(entityText);
        Some((movement, balance, entity, rest))
  }

  /** The row after its date: the quoted detail, '|', then the tail fields. */
  function ParseAfterDate(date: string, s: string): (r: Option<(ExportRow, string)>)
    ensures r.Some? ==> |r.value.1| < |s|
  {
    var q :- ParseQuoted(s);
    if q.1 == [] || q.1[0] != '|' then None
    else
      var f :- ParseTail(q.1[1..]);
      Some((ExportRow(Transaction(date, q.0, f.0, f.1), f.2), f.3))
  }

  /** One data row: the date up to the first '|', then the rest of the row. */
  function ParseRow(s: string): (r: Option<(ExportRow, string)>)
    ensures r.Some? ==> |r.value.1| < |s|
  {
    var (date, afterDate) := TakeUntil(s, '|');
    if afterDate == [] then None else ParseAfterDate(date, afterDate[1..])
  }

  /** The rows after the header: each one introduced by '\n'. */
  function DecodeRows(s: string): Option<seq<ExportRow>>
    decreases |s|
  {
    if s == [] then Some([])
    else if s[0] != '\n' then None
    else
      var row :- ParseRow(s[1..]);
      var rest :- DecodeRows(row.1);
      Some([row.0] + rest)
  }

  /** A whole file: the BOM, the fixed header, then the rows. */
  function DecodeCsv(s: string): Option<seq<ExportRow>>
  {
    var n := 1 + |HEADER|;
    if |s| >= n && s[0] == BOM && s[1..n] == HEADER then DecodeRows(s[n..]) else None
  }

  /** Each transaction paired with the export's entity tag, in order. */
  function Tagged(ts: seq<Transaction>, e: EntityOption): seq<ExportRow>
  {
    seq(|ts|, i requires 0 <= i < |ts| => ExportRow(ts[i], e))
  }

  lemma Regroup(head: string, x: string, y: string, rest: string)
    ensures head + x + y + rest == head + (x + y + rest)
    ensures (head + (x + y + rest))[|head|..] == x + y + rest
  {
  }

  /**
   * Un-doubling recovers the detail exactly, and stops right after the
   * closing quote when the next character is not a quote.
   */
  lemma {:induction false} UnquoteRoundTrip(d: string, rest: string)
    requires rest == [] || rest[0] != '"'
    ensures Unquote(DoubleQuotes(d) + "\"" + rest) == Some((d, rest))
  {
    if d == [] {
      Regroup([], "\"", [], rest);
    } else {
      var tail := DoubleQuotes(d[1..]) + "\"" + rest;
      var head := if d[0] == '"' then "\"\"" else [d[0]];
      assert DoubleQuotes(d) == head + DoubleQuotes(d[1..]);
      Regroup(head, DoubleQuotes(d[1..]), "\"", rest);
      UnquoteRoundTrip(d[1..], rest);
      assert [d[0]] + d[1..] == d;
    }
  }

  /** The quoted detail field reads back as the original detail. */
  lemma QuotedRoundTrip(d: string, rest: string)
    requires rest == [] || rest[0] != '"'
    ensures ParseQuoted(QuoteDetail(d) + rest) == Some((d, rest))
  {
    var s := QuoteDetail(d) + rest;
    assert s[1..] == DoubleQuotes(d) + "\"" + rest;
    UnquoteRoundTrip(d, rest);
  }

  /** Stripping the outer quotes and un-doubling gives the detail back. */
  lemma UnescapeDetail(d: string)
    ensures ParseQuoted(QuoteDetail(d)) == Some((d, []))
  {
    QuotedRoundTrip(d, []);
    assert QuoteDetail(d) + [] == QuoteDetail(d);
  }

  /** Reading one field that ends at the separator c. */
  lemma TakeField(a: string, rest: string, c: char)
    requires c !in a
    ensures TakeUntil(a + [c] + rest, c) == (a, [c] + rest)
    ensures ([c] + rest)[1..] == rest
  {
    assert a + [c] + rest == a + ([c] + rest);
    TakeUntilAt(a, [c] + rest, c);
  }

  lemma Regroup3(a: string, b: string, c: string, tail: string)
    ensures a + "|" + b + "|" + c + tail == a + "|" + (b + "|" + (c + tail))
  {
  }

  lemma Regroup5(a: string, b: string, c: string, d: string, f: string, tail: string)
    ensures a + "|" + b + "|" + c + "|" + d + "|" + f + tail == a + "|" + (b + ("|" + (c + "|" + d + "|" + f + tail)))
  {
  }

  lemma TailRoundTrip(movement: int, balance: int, e: EntityOption, tail: string)
    requires tail == [] || tail[0] == '\n'
    ensures ParseTail(FormatAmount(movement) + "|" + FormatAmount(balance) + "|" + EntityLabel(e) + tail)
            == Some((movement, balance, e, tail))
  {
    var m := FormatAmount(movement);
    var b := FormatAmount(balance);
    var l := EntityLabel(e);
    AmountHasNoSeparators(movement);
    AmountHasNoSeparators(balance);
    Regroup3(m, b, l, tail);
    TakeField(m, b + "|" + (l + tail), '|');
    TakeField(b, l + tail, '|');
    TakeUntilAt(l, tail, '\n');
    AmountRoundTrip(movement);
    AmountRoundTrip(balance);
    EntityLabelRoundTrip(e);
  }

  lemma RowAfterDate(date: string, rest: string)
    requires '|' !in date
    ensures ParseRow(date + "|" + rest) == ParseAfterDate(date, rest)
  {
    TakeField(date, rest, '|');
  }

  lemma AfterDateRoundTrip(date: string, detail: string, movement: int, balance: int, e: EntityOption, tail: string)
    requires tail == [] || tail[0] == '\n'
    ensures ParseAfterDate(date, QuoteDetail(detail) + ("|" + (FormatAmount(movement) + "|" + FormatAmount(balance) + "|" + EntityLabel(e) + tail)))
            == Some((ExportRow(Transaction(date, detail, movement, balance), e), tail))
  {
    var fields := FormatAmount(movement) + "|" + FormatAmount(balance) + "|" + EntityLabel(e) + tail;
    QuotedRoundTrip(detail, "|" + fields);
    assert ("|" + fields)[1..] == fields;
    TailRoundTrip(movement, balance, e, tail);
  }

  /**
   * A row reads back as its transaction and tag, whatever the detail holds,
   * provided the date holds no '|'.
   */
  lemma RowRoundTrip(t: Transaction, e: EntityOption, tail: string)
    requires '|' !in t.date
    requires tail == [] || tail[0] == '\n'
    ensures ParseRow(Row(t, e) + tail) == Some((ExportRow(t, e), tail))
  {
    RowRegrouped(t, e, tail);
    var fields := FormatAmount(t.movement) + "|" + FormatAmount(t.balance) + "|" + EntityLabel(e) + tail;
    RowAfterDate(t.date, QuoteDetail(t.detail) + ("|" + fields));
    AfterDateRoundTrip(t.date, t.detail, t.movement, t.balance, e, tail);
  }

  lemma RowRegrouped(t: Transaction, e: EntityOption, tail: string)
    ensures Row(t, e) + tail == t.date + "|" + (QuoteDetail(t.detail) + ("|" + (FormatAmount(t.movement) + "|" + FormatAmount(t.balance) + "|" + EntityLabel(e) + tail)))
  {
    RowShape(t, e);
    Regroup5(t.date, QuoteDetail(t.detail), FormatAmount(t.movement), FormatAmount(t.balance), EntityLabel(e), tail);
  }

  /** The text after the header: '\n' before each line. */
  function Continuation(lines: seq<string>): string
  {
    if lines == [] then [] else "\n" + Join(lines, '\n')
  }

  lemma RowLinesCons(ts: seq<Transaction>, e: EntityOption)
    requires ts != []
    ensures RowLines(ts, e) == [Row(ts[0], e)] + RowLines(ts[1..], e)
  {
  }

  lemma ContinuationJoin(first: string, others: seq<string>)
    ensures Continuation([first] + others) == "\n" + (first + Continuation(others))
  {
    JoinCons(first, others, '\n');
  }

  lemma ContinuationCons(ts: seq<Transaction>, e: EntityOption)
    requires ts != []
    ensures Continuation(RowLines(ts, e)) == "\n" + (Row(ts[0], e) + Continuation(RowLines(ts[1..], e)))
  {
    RowLinesCons(ts, e);
    ContinuationJoin(Row(ts[0], e), RowLines(ts[1..], e));
  }

  lemma DecodeRowsCons(line: string, later: string, row: ExportRow, rows: seq<ExportRow>)
    requires ParseRow(line + later) == Some((row, later))
    requires DecodeRows(later) == Some(rows)
    ensures DecodeRows("\n" + (line + later)) == Some([row] + rows)
  {
    assert ("\n" + (line + later))[1..] == line + later;
  }

  lemma TaggedCons(ts: seq<Transaction>, e: EntityOption)
    requires ts != []
    ensures Tagged(ts, e) == [ExportRow(ts[0], e)] + Tagged(ts[1..], e)
  {
  }

  lemma {:induction false} RowsRoundTrip(ts: seq<Transaction>, e: EntityOption)
    requires forall i :: 0 <= i < |ts| ==> '|' !in ts[i].date
    ensures DecodeRows(Continuation(RowLines(ts, e))) == Some(Tagged(ts, e))
    decreases |ts|
  {
    if ts != [] {
      var later := Continuation(RowLines(ts[1..], e));
      ContinuationCons(ts, e);
      RowRoundTrip(ts[0], e, later);
      RowsRoundTrip(ts[1..], e);
      DecodeRowsCons(Row(ts[0], e), later, ExportRow(ts[0], e), Tagged(ts[1..], e));
      TaggedCons(ts, e);
    } else {
      assert RowLines(ts, e) == [] && Tagged(ts, e) == [];
    }
  }

  /**
   * Reading an exported file gives back every transaction, in order, each
   * with the export's entity tag: the rows, the details (quotes included)
   * and the amounts all survive, as long as no date holds a '|'.
   */
  lemma CsvRoundTrip(ts: seq<Transaction>, e: EntityOption)
    requires forall i :: 0 <= i < |ts| ==> '|' !in ts[i].date
    ensures DecodeCsv(CsvContent(ts, e)) == Some(Tagged(ts, e))
  {
    var lines := RowLines(ts, e);
    HeadJoin(HEADER, lines);
    HeaderPrefix(BOM, HEADER, Continuation(lines));
    RowsRoundTrip(ts, e);
  }

  lemma HeadJoin(h: string, lines: seq<string>)
    ensures Join([h] + lines, '\n') == h + Continuation(lines)
  {
    JoinCons(h, lines, '\n');
    if lines != [] {
      assert h + "\n" + Join(lines, '\n') == h + ("\n" + Join(lines, '\n'));
    }
  }

  lemma HeaderPrefix(b: char, h: string, c: string)
    ensures [b] + (h + c) == [b] + h + c
    ensures ([b] + h + c)[0] == b
    ensures ([b] + h + c)[1..1 + |h|] == h
    ensures ([b] + h + c)[1 + |h|..] == c
  {
  }

  /** What the export handler hands to the browser reads back the same way. */
  lemma ExportRoundTrip(ts: seq<Transaction>, e: EntityOption, bank: Bank, isoNow: string)
    requires ts != []
    requires forall i :: 0 <= i < |ts| ==> '|' !in ts[i].date
    ensures ExportCsv(ts, e, bank, isoNow).Success?
    ensures DecodeCsv(ExportCsv(ts, e, bank, isoNow).value.content) == Some(Tagged(ts, e))
  {
    CsvRoundTrip(ts, e);
  }
}
