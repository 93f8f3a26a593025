/**
 * The CSV export encoder of the statement extractor: a fixed header,
 * one pipe-separated row per transaction in input order, the detail
 * quoted with doubled inner quotes, amounts with a decimal comma, the
 * entity tag closing every row, lines joined by '\n' and the whole
 * prefixed with a byte-order mark; plus the download file name.
 */
module CsvExport {
  import opened Wrappers
  import opened Types
  import opened Text
  import opened Amount

  const BOM: char := '\U{FEFF}'
  const HEADER: string := "Fecha|Detalle|Movimiento|Saldo|Entidad"
  const EMPTY_EXPORT_MESSAGE: string := "No transactions to export."

  /** detail.replace(/"/g, '""'): each quote doubled, every other character kept. */
  function DoubleQuotes(d: string): (r: string)
    ensures '"' !in d ==> r == d
  {
    if d == [] then []
    else (if d[0] == '"' then "\"\"" else [d[0]]) + DoubleQuotes(d[1..])
  }

  /** The detail field as written: always wrapped in quotes, inner quotes doubled. */
  function QuoteDetail(d: string): (r: string)
    ensures |r| >= 2 && r[0] == '"' && r[|r| - 1] == '"'
  {
    "\"" + DoubleQuotes(d) + "\""
  }

  /** The five fields of one row: date, quoted detail, movement, balance, entity. */
  function RowFields(t: Transaction, e: EntityOption): seq<string>
  {
    [t.date, QuoteDetail(t.detail), FormatAmount(t.movement), FormatAmount(t.balance), EntityLabel(e)]
  }

  function Row(t: Transaction, e: EntityOption): string
  {
    Join(RowFields(t, e), '|')
  }

  /** transactions.map(...): one row per transaction, same order. */
  function RowLines(ts: seq<Transaction>, e: EntityOption): seq<string>
  {
    seq(|ts|, i requires 0 <= i < |ts| => Row(ts[i], e))
  }

  /** The file content: BOM, then header and rows joined by '\n', no trailing newline. */
  function CsvContent(ts: seq<Transaction>, e: EntityOption): string
  {
    [BOM] + Join([HEADER] + RowLines(ts, e), '\n')
  }

  /** The first ten characters of the ISO timestamp (all of it when shorter): YYYY-MM-DD. */
  function IsoDay(isoNow: string): string
  {
    if |isoNow| <= 10 then isoNow else isoNow[..10]
  }

  /** extracto_<bank label, whitespace as '_'>_<YYYY-MM-DD>.csv */
  function FileName(bank: Bank, isoNow: string): string
  {
    "extracto_" + ReplaceWhitespace(BankLabel(bank)) + "_" + IsoDay(isoNow) + ".csv"
  }

  datatype Download = Download(content: string, fileName: string)

  /** The export handler's outcome: refused on an empty list, otherwise a file. */
  function ExportCsv(ts: seq<Transaction>, e: EntityOption, bank: Bank, isoNow: string): (r: Result<Download, string>)
    ensures r.Failure? <==> |ts| == 0
    ensures r.Failure? ==> r.error == EMPTY_EXPORT_MESSAGE
    ensures r.Success? ==> r.value == Download(CsvContent(ts, e), FileName(bank, isoNow))
  {
    if |ts| == 0 then Failure(EMPTY_EXPORT_MESSAGE)
    else Success(Download(CsvContent(ts, e), FileName(bank, isoNow)))
  }

  /** Doubling the quotes neither adds nor loses any other character. */
  lemma {:induction false} DoubleQuotesKeepsChars(d: string, c: char)
    ensures c in DoubleQuotes(d) <==> c in d
  {
    if d != [] {
      DoubleQuotesKeepsChars(d[1..], c);
      assert d == [d[0]] + d[1..];
    }
  }

  /**
   * The file name: "extracto_", the bank label with every whitespace
   * character turned into '_', '_', the day part of the timestamp, ".csv".
   */
  lemma FileNameShape(bank: Bank, isoNow: string)
    ensures var r := FileName(bank, isoNow);
      var name := BankLabel(bank);
      && |r| == 9 + |name| + 1 + |IsoDay(isoNow)| + 4
      && r[..9] == "extracto_" && r[|r| - 4..] == ".csv"
      && r[9 + |name|] == '_' && r[10 + |name|..|r| - 4] == IsoDay(isoNow)
      && (forall i :: 0 <= i < |name| ==> r[9 + i] == if IsWhitespace(name[i]) then '_' else name[i])
      && (forall i :: 9 <= i < 9 + |name| ==> !IsWhitespace(r[i]))
  {
  }

  /** A row is its five fields with a '|' between each. */
  lemma RowShape(t: Transaction, e: EntityOption)
    ensures Row(t, e) == t.date + "|" + QuoteDetail(t.detail) + "|" + FormatAmount(t.movement)
                          + "|" + FormatAmount(t.balance) + "|" + EntityLabel(e)
  {
    Join5(t.date, QuoteDetail(t.detail), FormatAmount(t.movement), FormatAmount(t.balance), EntityLabel(e));
  }

  lemma Join5(a: string, b: string, c: string, d: string, f: string)
    ensures Join([a, b, c, d, f], '|') == a + "|" + b + "|" + c + "|" + d + "|" + f
  {
    var parts := [a, b, c, d, f];
    assert parts[1..] == [b, c, d, f] && parts[1..][1..] == [c, d, f];
    assert parts[1..][1..][1..] == [d, f] && parts[1..][1..][1..][1..] == [f];
    assert Join([d, f], '|') == d + "|" + f;
    assert Join([c, d, f], '|') == c + "|" + d + "|" + f;
    assert Join([b, c, d, f], '|') == b + "|" + c + "|" + d + "|" + f;
  }

  /**
   * When neither the date nor the detail holds a '|', splitting a row on
   * '|' gives exactly its five fields.
   */
  lemma RowSplitsIntoFields(t: Transaction, e: EntityOption)
    requires '|' !in t.date && '|' !in t.detail
    ensures Split(Row(t, e), '|') == RowFields(t, e)
    ensures |Split(Row(t, e), '|')| == 5
  {
    AmountHasNoSeparators(t.movement);
    AmountHasNoSeparators(t.balance);
    DoubleQuotesKeepsChars(t.detail, '|');
    var f := RowFields(t, e);
    assert forall i :: 0 <= i < |f| ==> '|' !in f[i];
    SplitJoin(f, '|');
  }

  /** A row holds a newline only where the date or the detail does. */
  lemma RowHasNoNewline(t: Transaction, e: EntityOption)
    requires '\n' !in t.date && '\n' !in t.detail
    ensures '\n' !in Row(t, e)
  {
    AmountHasNoSeparators(t.movement);
    AmountHasNoSeparators(t.balance);
    DoubleQuotesKeepsChars(t.detail, '\n');
    var f := RowFields(t, e);
    assert forall i :: 0 <= i < |f| ==> '\n' !in f[i];
    NotInJoin(f, '|', '\n');
  }

  /**
   * When no date or detail holds a newline, the content after the BOM has
   * exactly |ts| + 1 lines: the header, then row i built from ts[i].
   */
  lemma {:induction false} CsvLines(ts: seq<Transaction>, e: EntityOption)
    requires forall i :: 0 <= i < |ts| ==> '\n' !in ts[i].date && '\n' !in ts[i].detail
    ensures CsvContent(ts, e)[0] == BOM
    ensures var lines := Split(CsvContent(ts, e)[1..], '\n');
      && |lines| == |ts| + 1
      && lines[0] == HEADER
      && forall i :: 0 <= i < |ts| ==> lines[i + 1] == Row(ts[i], e)
  {
    var parts := [HEADER] + RowLines(ts, e);
    LinesHaveNoNewline(ts, e);
    SplitJoin(parts, '\n');
    assert CsvContent(ts, e)[1..] == Join(parts, '\n');
  }

  lemma LinesHaveNoNewline(ts: seq<Transaction>, e: EntityOption)
    requires forall i :: 0 <= i < |ts| ==> '\n' !in ts[i].date && '\n' !in ts[i].detail
    ensures forall i :: 0 <= i < |ts| + 1 ==> '\n' !in ([HEADER] + RowLines(ts, e))[i]
  {
    var parts := [HEADER] + RowLines(ts, e);
    forall i | 0 <= i < |parts|
      ensures '\n' !in parts[i]
    {
      if i > 0 {
        assert parts[i] == Row(ts[i - 1], e);
        RowHasNoNewline(ts[i - 1], e);
      } else {
        assert parts[0] == HEADER;
        assert forall k :: 0 <= k < |HEADER| ==> HEADER[k] != '\n';
      }
    }
  }

  lemma NoQuoteDetail()
    ensures DoubleQuotes("ATM W/D") == "ATM W/D"
  {
    assert forall i :: 0 <= i < 7 ==> "ATM W/D"[i] != '"';
  }

  /** The worked example: a withdrawal of 50 000,00 leaving 150 000,00, tagged GVAL. */
  lemma ScenarioRow()
    ensures Row(Transaction("01/01/2024", "ATM W/D", -5000000, 15000000), GVAL)
            == "01/01/2024" + "|" + ("\"" + "ATM W/D" + "\"") + "|" + "-50000,00" + "|" + "150000,00" + "|" + "GVAL"
  {
    RowShape(Transaction("01/01/2024", "ATM W/D", -5000000, 15000000), GVAL);
    AmountExampleLarge();
    AmountExampleBalance();
    NoQuoteDetail();
  }

  /** A detail with inner quotes: He said "ok" is written as "He said ""ok""". */
  lemma QuoteExample()
    ensures QuoteDetail("He said " + "\"ok\"") == "\"" + ("He said " + ("\"\"" + "ok" + "\"\"")) + "\""
  {
    assert DoubleQuotes("ok\"") == "ok" + "\"\"" by {
      assert DoubleQuotes("\"") == "\"\"";
      assert DoubleQuotes("k\"") == "k" + "\"\"";
    }
    assert DoubleQuotes("\"ok\"") == "\"\"" + "ok" + "\"\"";
    assert DoubleQuotes("He said ") == "He said " by {
      assert forall i :: 0 <= i < 8 ==> "He said "[i] != '"';
    }
    DoubleQuotesConcat("He said ", "\"ok\"");
  }

  lemma {:induction false} DoubleQuotesConcat(a: string, b: string)
    ensures DoubleQuotes(a + b) == DoubleQuotes(a) + DoubleQuotes(b)
  {
    if a != [] {
      assert (a + b)[1..] == a[1..] + b;
      DoubleQuotesConcat(a[1..], b);
    } else {
      assert a + b == b;
    }
  }

  lemma BankPartExample()
    ensures ReplaceWhitespace(BankLabel(Popular)) == "Banco_Popular"
  {
    var n := ReplaceWhitespace(BankLabel(Popular));
    assert forall i :: 0 <= i < 13 ==> n[i] == "Banco_Popular"[i];
  }

  /** Banco Popular on 2024-05-01 gives extracto_Banco_Popular_2024-05-01.csv. */
  lemma FileNameExample(isoNow: string)
    requires |isoNow| >= 10 && isoNow[..10] == "2024-05-01"
    ensures FileName(Popular, isoNow) == "extracto_" + "Banco_Popular" + "_" + "2024-05-01" + ".csv"
  {
    BankPartExample();
  }
}
