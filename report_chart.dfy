/**
 * The sales report (frontend/src/components/ReportChart.jsx): invoices grouped
 * into chart rows by product or by a period of their date, the revenue KPIs,
 * and the aggregated and detailed CSV exports.
 */
module ReportChart {
  import opened Wrappers
  import opened Text
  import opened Lists
  import opened Tally

  /** An invoice line as the report reads it; any field may be missing. */
  datatype ReportItem = ReportItem(name: Option<string>, quantity: Option<real>, total: Option<real>)

  /** An invoice as the report reads it; `dateTime` is a timestamp, when there is one. */
  datatype ReportInvoice = ReportInvoice(
    number: Option<string>, dateTime: Option<int>, netTotal: Option<real>, items: seq<ReportItem>)

  /** The chart's grouping filter; `Full` is the `default:` branch (the full date). */
  datatype Period = Product | Daily | Weekly | Monthly | Yearly | Full

  /**
   * The library conversions the report relies on, as parameters: the `en-US`
   * weekday, month, date and date-time texts of a timestamp, its day of the
   * month and year, and `String(n)` for numbers.
   */
  datatype Formats = Formats(
    weekday: int -> string, month: int -> string, date: int -> string, dateTime: int -> string,
    dayOfMonth: int -> int, year: int -> int, number: real -> string)

  /** `item?.name || "Unknown"`. */
  function ItemName(it: ReportItem): (r: string)
    ensures r != ""
  {
    if it.name.Some? && it.name.value != "" then it.name.value else "Unknown"
  }

  /** `Number(item?.total || 0)`. */
  function ItemTotal(it: ReportItem): real {
    it.total.GetOr(0.0)
  }

  /** `Number(invoice?.net_total || 0)`. */
  function Net(inv: ReportInvoice): real {
    inv.netTotal.GetOr(0.0)
  }

  /** `Math.ceil(day / 7)`. */
  function WeekOfMonth(day: int): int {
    if day % 7 == 0 then day / 7 else day / 7 + 1
  }

  /** Days 1 to 31 fall in weeks 1 to 5, seven days to a week. */
  lemma WeekOfMonthRange(day: int)
    requires 1 <= day <= 31
    ensures 1 <= WeekOfMonth(day) <= 5
    ensures 7 * (WeekOfMonth(day) - 1) < day <= 7 * WeekOfMonth(day)
  {
  }

  /** The group key of a dated invoice under a time filter. */
  function TimeKey(period: Period, f: Formats, t: int): string {
    match period
    case Daily => f.weekday(t)
    case Weekly => f.month(t) + " W" + IntToString(WeekOfMonth(f.dayOfMonth(t)))
    case Monthly => f.month(t)
    case Yearly => IntToString(f.year(t))
    case _ => f.date(t)
  }

  // ---------------------------------------------------------------- grouping

  /** The (name, total) contributions of an invoice's lines. */
  function ItemPairs(items: seq<ReportItem>): (r: seq<(string, real)>)
    ensures |r| == |items|
    ensures forall j :: 0 <= j < |items| ==> r[j] == (ItemName(items[j]), ItemTotal(items[j]))
  {
    if items == [] then [] else ItemPairs(items[..|items| - 1]) + [(ItemName(items[|items| - 1]), ItemTotal(items[|items| - 1]))]
  }

  /** What one invoice adds to the chart: its lines by name, or its net total under its date key when dated. */
  function Contribution(inv: ReportInvoice, period: Period, f: Formats): seq<(string, real)> {
    if period == Product then ItemPairs(inv.items)
    else if inv.dateTime.Some? then [(TimeKey(period, f, inv.dateTime.value), Net(inv))]
    else []
  }

  /** Every contribution of the invoices, in order. */
  function Pairs(invoices: seq<ReportInvoice>, period: Period, f: Formats): seq<(string, real)> {
    if invoices == [] then []
    else Pairs(invoices[..|invoices| - 1], period, f) + Contribution(invoices[|invoices| - 1], period, f)
  }

  lemma PairsStep(invoices: seq<ReportInvoice>, i: nat, period: Period, f: Formats)
    requires i < |invoices|
    ensures Pairs(invoices[..i + 1], period, f) == Pairs(invoices[..i], period, f) + Contribution(invoices[i], period, f)
  {
    assert invoices[..i + 1][..i] == invoices[..i];
  }

  lemma ItemPairsStep(before: seq<(string, real)>, items: seq<ReportItem>, j: nat)
    requires j < |items|
    ensures before + ItemPairs(items[..j + 1]) == (before + ItemPairs(items[..j])) + [(ItemName(items[j]), ItemTotal(items[j]))]
  {
    assert items[..j + 1][..j] == items[..j];
  }

  /** Adds the lines of one invoice to the running totals. */
  method AddItems(t: Tally<string>, items: seq<ReportItem>, ghost before: seq<(string, real)>) returns (r: Tally<string>)
    requires t == TallyOf(before)
    ensures r == TallyOf(before + ItemPairs(items))
  {
    r := t;
    var j := 0;
    assert before + ItemPairs(items[..0]) == before;
    while j < |items|
      invariant 0 <= j <= |items|
      invariant r == TallyOf(before + ItemPairs(items[..j]))
    {
      var it := items[j];
      ItemPairsStep(before, items, j);
      TallyOfSnoc(before + ItemPairs(items[..j]), (ItemName(it), ItemTotal(it)));
      r := Add(r, ItemName(it), ItemTotal(it));
      j := j + 1;
    }
    assert items[..|items|] == items;
  }

  /** The running totals after all invoices: the `grouped` map of `groupData`. */
  method Group(invoices: seq<ReportInvoice>, period: Period, f: Formats) returns (t: Tally<string>)
    ensures t == TallyOf(Pairs(invoices, period, f))
  {
    t := Empty();
    var i := 0;
    while i < |invoices|
      invariant 0 <= i <= |invoices|
      invariant t == TallyOf(Pairs(invoices[..i], period, f))
    {
      var inv := invoices[i];
      PairsStep(invoices, i, period, f);
      if period == Product {
        t := AddItems(t, inv.items, Pairs(invoices[..i], period, f));
        assert Contribution(inv, period, f) == ItemPairs(inv.items);
      } else if inv.dateTime.Some? {
        var key := TimeKey(period, f, inv.dateTime.value);
        TallyOfSnoc(Pairs(invoices[..i], period, f), (key, Net(inv)));
        t := Add(t, key, Net(inv));
        assert Contribution(inv, period, f) == [(key, Net(inv))];
      } else {
        var none := Contribution(inv, period, f);
        assert none == [];
        assert Pairs(invoices[..i], period, f) + none == Pairs(invoices[..i], period, f);
      }
      i := i + 1;
    }
    assert invoices[..|invoices|] == invoices;
  }

  /** `groupData(invoices, filter)`: one `{ name, sales }` row per key, in order of first appearance. */
  method GroupData(invoices: seq<ReportInvoice>, period: Period, f: Formats) returns (rows: seq<(string, real)>)
    ensures Valid(TallyOf(Pairs(invoices, period, f)))
    ensures TallyOf(Pairs(invoices, period, f)).keys == Dedup(KeysOf(Pairs(invoices, period, f)))
    ensures rows == Entries(TallyOf(Pairs(invoices, period, f)))
  {
    var t := Group(invoices, period, f);
    TallyOfSpec(Pairs(invoices, period, f));
    rows := Entries(t);
  }

  /**
   * Each chart row's sales are the sum of the contributions filed under its
   * name, names do not repeat, and every contributed name has a row.
   */
  lemma GroupRows(invoices: seq<ReportInvoice>, period: Period, f: Formats)
    ensures var pairs := Pairs(invoices, period, f);
      var t := TallyOf(pairs);
      Valid(t) && var rows := Entries(t);
      && (forall i :: 0 <= i < |rows| ==> rows[i].1 == SumFor(pairs, rows[i].0))
      && (forall i, j :: 0 <= i < j < |rows| ==> rows[i].0 != rows[j].0)
      && (forall k :: k in KeysOf(pairs) ==> exists i :: 0 <= i < |rows| && rows[i].0 == k)
  {
    EntriesSpec(Pairs(invoices, period, f));
  }

  /** The net totals of the dated invoices (under a time filter, undated ones are skipped). */
  function DatedNet(invoices: seq<ReportInvoice>): real {
    if invoices == [] then 0.0
    else
      var last := invoices[|invoices| - 1];
      DatedNet(invoices[..|invoices| - 1]) + (if last.dateTime.Some? then Net(last) else 0.0)
  }

  /** The line totals of all invoices. */
  function ItemsTotal(invoices: seq<ReportInvoice>): real {
    if invoices == [] then 0.0
    else ItemsTotal(invoices[..|invoices| - 1]) + Sum(invoices[|invoices| - 1].items, ItemTotal)
  }

  lemma {:induction false} SumAllItemPairs(items: seq<ReportItem>)
    ensures SumAll(ItemPairs(items)) == Sum(items, ItemTotal)
  {
    SumPointwise(ItemPairs(items), (p: (string, real)) => p.1, items, ItemTotal);
  }

  /** The contributions add up to the dated net totals under a time filter, and to the line totals by product. */
  lemma {:induction false} PairsSum(invoices: seq<ReportInvoice>, period: Period, f: Formats)
    ensures SumAll(Pairs(invoices, period, f)) == if period == Product then ItemsTotal(invoices) else DatedNet(invoices)
  {
    if invoices != [] {
      var init := invoices[..|invoices| - 1];
      var last := invoices[|invoices| - 1];
      PairsSum(init, period, f);
      SumAppend(Pairs(init, period, f), Contribution(last, period, f), (p: (string, real)) => p.1);
      if period == Product {
        SumAllItemPairs(last.items);
      } else if last.dateTime.Some? {
        var c := Contribution(last, period, f);
        assert c[..0] == [];
      }
    }
  }

  /**
   * The chart's sales add up to the net total of the dated invoices under a
   * time filter, and to the sum of all line totals under the product filter.
   */
  lemma GroupTotal(invoices: seq<ReportInvoice>, period: Period, f: Formats)
    ensures var t := TallyOf(Pairs(invoices, period, f));
      Valid(t) && Total(t.keys, t.sums) == if period == Product then ItemsTotal(invoices) else DatedNet(invoices)
  {
    TallyTotal(Pairs(invoices, period, f));
    PairsSum(invoices, period, f);
  }

  /** Under a time filter an undated invoice changes nothing. */
  lemma UndatedIgnored(invoices: seq<ReportInvoice>, inv: ReportInvoice, period: Period, f: Formats)
    requires period != Product && inv.dateTime.None?
    ensures Pairs(invoices + [inv], period, f) == Pairs(invoices, period, f)
  {
    assert (invoices + [inv])[..|invoices|] == invoices;
  }

  // ---------------------------------------------------------------- KPIs

  datatype Kpis = Kpis(totalRevenue: real, invoiceCount: nat, avgInvoice: real, topProduct: string)

  /** `topProduct`: the name with the largest line total, "—" when there are no lines. */
  function TopName(t: Tally<string>): string
    requires Valid(t)
  {
    match TopKey(t)
    case None => "—"
    case Some(k) => if k == "" then "—" else k
  }

  /** The `kpis` memo: revenue, invoice count, average and top product. */
  method ComputeKpis(invoices: seq<ReportInvoice>) returns (k: Kpis)
    ensures k.totalRevenue == Sum(invoices, Net)
    ensures k.invoiceCount == |invoices|
    ensures k.avgInvoice == if |invoices| > 0 then k.totalRevenue / |invoices| as real else 0.0
    ensures Valid(TallyOf(Pairs(invoices, Product, NoFormats())))
    ensures k.topProduct == TopName(TallyOf(Pairs(invoices, Product, NoFormats())))
  {
    var revenue := 0.0;
    var i := 0;
    while i < |invoices|
      invariant 0 <= i <= |invoices|
      invariant revenue == Sum(invoices[..i], Net)
    {
      SumStep(invoices, i, Net);
      revenue := revenue + Net(invoices[i]);
      i := i + 1;
    }
    assert invoices[..|invoices|] == invoices;
    var totals := Group(invoices, Product, NoFormats());
    TallyOfSpec(Pairs(invoices, Product, NoFormats()));
    var count := |invoices|;
    k := Kpis(revenue, count, if count > 0 then revenue / count as real else 0.0, TopName(totals));
  }

  /** The product filter reads no date; any formats will do. */
  function NoFormats(): Formats {
    Formats(_ => "", _ => "", _ => "", _ => "", _ => 0, _ => 0, _ => "")
  }

  /** Product grouping does not depend on the formats. */
  lemma {:induction false} ProductPairsIgnoreFormats(invoices: seq<ReportInvoice>, f: Formats, g: Formats)
    ensures Pairs(invoices, Product, f) == Pairs(invoices, Product, g)
  {
    if invoices != [] {
      ProductPairsIgnoreFormats(invoices[..|invoices| - 1], f, g);
    }
  }

  /**
   * The top product is "—" exactly when no invoice has a line; otherwise no
   * product's line total exceeds the top product's.
   */
  lemma TopProductIsBest(invoices: seq<ReportInvoice>)
    ensures var pairs := Pairs(invoices, Product, NoFormats());
      Valid(TallyOf(pairs)) && var top := TopName(TallyOf(pairs));
      && (top == "—" <==> pairs == [] || (TopKey(TallyOf(pairs)) == Some("—")))
      && (top != "—" ==> forall n :: n in KeysOf(pairs) ==> SumFor(pairs, n) <= SumFor(pairs, top))
  {
    var pairs := Pairs(invoices, Product, NoFormats());
    TallyOfSpec(pairs);
    var t := TallyOf(pairs);
    if pairs != [] {
      assert pairs[0].0 in KeysOf(pairs);
      assert t.keys != [];
    }
    match TopKey(t)
    case None =>
    case Some(k) =>
      assert k != "" by {
        assert k in t.keys;
        NamesNonEmpty(invoices);
      }
  }

  /** No product key is empty: a missing or empty name is filed as "Unknown". */
  lemma NamesNonEmpty(invoices: seq<ReportInvoice>)
    ensures "" !in KeysOf(Pairs(invoices, Product, NoFormats()))
  {
    PairNamesNonEmpty(invoices);
  }

  lemma {:induction false} PairNamesNonEmpty(invoices: seq<ReportInvoice>)
    ensures forall j :: 0 <= j < |Pairs(invoices, Product, NoFormats())| ==> Pairs(invoices, Product, NoFormats())[j].0 != ""
  {
    if invoices != [] {
      var init := invoices[..|invoices| - 1];
      PairNamesNonEmpty(init);
      var a, b := Pairs(init, Product, NoFormats()), ItemPairs(invoices[|invoices| - 1].items);
      var ab: seq<(string, real)> := a + b;
      forall j | 0 <= j < |ab| ensures ab[j].0 != "" {
        if j < |a| {
          assert ab[j] == a[j];
        } else {
          assert ab[j] == b[j - |a|];
        }
      }
    }
  }

  /** With at least one invoice the average times the count gives the revenue back. */
  lemma AverageTimesCount(k: Kpis, invoices: seq<ReportInvoice>)
    requires k.invoiceCount == |invoices| > 0
    requires k.avgInvoice == k.totalRevenue / |invoices| as real
    ensures k.avgInvoice * k.invoiceCount as real == k.totalRevenue
  {
  }

  // ---------------------------------------------------------------- CSV

  /** The characters that force a field into quotes. */
  predicate Special(c: char) {
    c == '"' || c == ',' || c == '\n'
  }

  predicate NeedsQuotes(s: string) {
    exists i :: 0 <= i < |s| && Special(s[i])
  }

  /** `s.replace(/"/g, '""')`. */
  function DoubleQuotes(s: string): string {
    if s == [] then [] else (if s[0] == '"' then "\"\"" else [s[0]]) + DoubleQuotes(s[1..])
  }

  /** `escapeCSV(v)`: as it is unless it holds a quote, comma or newline; then quoted, with quotes doubled. */
  function EscapeCSV(s: string): string {
    if NeedsQuotes(s) then "\"" + DoubleQuotes(s) + "\"" else s
  }

  /** `row.map(escapeCSV).join(",")`. */
  function Line(row: seq<string>): string {
    if row == [] then [] else if |row| == 1 then EscapeCSV(row[0]) else EscapeCSV(row[0]) + "," + Line(row[1..])
  }

  /** `rows.map(line).join("\n")`: the text `toCSVBlob` writes. */
  function CsvText(rows: seq<seq<string>>): string {
    if rows == [] then [] else if |rows| == 1 then Line(rows[0]) else Line(rows[0]) + "\n" + CsvText(rows[1..])
  }

  // A reader for the format of section 2 of RFC 4180 (LF line breaks), the
  // reference the export is proved against.

  /** The rest of a quoted field after its opening quote: its content, and what follows the closing quote. */
  function ReadQuoted(t: string): (r: Option<(string, string)>)
    ensures r.Some? ==> |r.value.1| < |t|
  {
    if t == [] then None
    else if t[0] == '"' then
      if |t| > 1 && t[1] == '"' then
        match ReadQuoted(t[2..])
        case None => None
        case Some(p) => Some(("\"" + p.0, p.1))
      else Some(([], t[1..]))
    else
      match ReadQuoted(t[1..])
      case None => None
      case Some(p) => Some(([t[0]] + p.0, p.1))
  }

  /** An unquoted field: everything up to the next comma or line break. */
  function ReadPlain(t: string): (r: (string, string))
    ensures |r.1| <= |t|
  {
    if t == [] || t[0] == ',' || t[0] == '\n' then ([], t)
    else var p := ReadPlain(t[1..]); ([t[0]] + p.0, p.1)
  }

  function ReadField(t: string): (r: Option<(string, string)>)
    ensures r.Some? ==> |r.value.1| <= |t|
  {
    if t != [] && t[0] == '"' then ReadQuoted(t[1..]) else Some(ReadPlain(t))
  }

  /** The fields of one record, and what follows it (nothing, or a line break and more). */
  function ReadRecord(t: string): (r: Option<(seq<string>, string)>)
    ensures r.Some? ==> |r.value.1| <= |t|
    decreases |t|
  {
    match ReadField(t)
    case None => None
    case Some(p) =>
      if p.1 == [] || p.1[0] == '\n' then Some(([p.0], p.1))
      else if p.1[0] == ',' then
        match ReadRecord(p.1[1..])
        case None => None
        case Some(q) => Some(([p.0] + q.0, q.1))
      else None
  }

  function ReadRecords(t: string): Option<seq<seq<string>>>
    decreases |t|
  {
    match ReadRecord(t)
    case None => None
    case Some(p) =>
      if p.1 == [] then Some([p.0])
      else if p.1[0] == '\n' then
        match ReadRecords(p.1[1..])
        case None => None
        case Some(rest) => Some([p.0] + rest)
      else None
  }

  /** A field after which comes the end, a comma or a line break. */
  predicate Boundary(tail: string) {
    tail == [] || tail[0] == ',' || tail[0] == '\n'
  }

  lemma {:induction false} ReadPlainBack(s: string, tail: string)
    requires !NeedsQuotes(s) && Boundary(tail)
    ensures ReadPlain(s + tail) == (s, tail)
  {
    if s != [] {
      assert !Special(s[0]);
      assert !NeedsQuotes(s[1..]) by {
        forall i | 0 <= i < |s[1..]| ensures !Special(s[1..][i]) { assert s[1..][i] == s[i + 1]; }
      }
      ReadPlainBack(s[1..], tail);
      assert (s + tail)[1..] == s[1..] + tail;
      assert [s[0]] + s[1..] == s;
    } else {
      assert s + tail == tail;
    }
  }

  lemma {:induction false} ReadQuotedBack(s: string, tail: string)
    requires tail == [] || tail[0] != '"'
    ensures ReadQuoted(DoubleQuotes(s) + "\"" + tail) == Some((s, tail))
  {
    var t := DoubleQuotes(s) + "\"" + tail;
    if s == [] {
      assert t == "\"" + tail;
      assert t[1..] == tail;
    } else {
      ReadQuotedBack(s[1..], tail);
      var rest := DoubleQuotes(s[1..]) + "\"" + tail;
      if s[0] == '"' {
        assert t == "\"\"" + rest;
        assert t[2..] == rest;
      } else {
        assert t == [s[0]] + rest;
        assert t[1..] == rest;
      }
      assert s == [s[0]] + s[1..];
    }
  }

  /** An escaped field reads back as itself, whatever boundary follows it. */
  lemma ReadFieldBack(s: string, tail: string)
    requires Boundary(tail)
    ensures ReadField(EscapeCSV(s) + tail) == Some((s, tail))
  {
    if NeedsQuotes(s) {
      ReadQuotedFieldBack(s, tail);
    } else {
      ReadPlainFieldBack(s, tail);
    }
  }

  lemma ReadQuotedFieldBack(s: string, tail: string)
    requires NeedsQuotes(s) && Boundary(tail)
    ensures ReadField(EscapeCSV(s) + tail) == Some((s, tail))
  {
    var q := DoubleQuotes(s) + "\"" + tail;
    EscapeQuoted(s, tail);
    ReadFieldOpenQuote(q);
    ReadQuotedBack(s, tail);
  }

  lemma EscapeQuoted(s: string, tail: string)
    requires NeedsQuotes(s)
    ensures EscapeCSV(s) + tail == "\"" + (DoubleQuotes(s) + "\"" + tail)
  {
  }

  /** A field that opens with a quote is read as a quoted field. */
  lemma ReadFieldOpenQuote(q: string)
    ensures ReadField("\"" + q) == ReadQuoted(q)
  {
    assert ("\"" + q)[1..] == q;
  }

  lemma ReadPlainFieldBack(s: string, tail: string)
    requires !NeedsQuotes(s) && Boundary(tail)
    ensures ReadField(EscapeCSV(s) + tail) == Some((s, tail))
  {
    assert EscapeCSV(s) == s;
    if s != [] {
      assert !Special(s[0]);
      assert (s + tail)[0] == s[0];
    } else {
      assert s + tail == tail;
    }
    ReadPlainBack(s, tail);
  }

  /** A field followed by the end of the record is a record of one field. */
  lemma ReadRecordLast(t: string, field: string, tail: string)
    requires ReadField(t) == Some((field, tail))
    requires tail == [] || tail[0] == '\n'
    ensures ReadRecord(t) == Some(([field], tail))
  {
  }

  /** A field followed by a comma and a record is a record one field longer. */
  lemma ReadRecordNext(t: string, field: string, rest: string, fields: seq<string>, tail: string)
    requires ReadField(t) == Some((field, "," + rest))
    requires ReadRecord(rest) == Some((fields, tail))
    ensures ReadRecord(t) == Some(([field] + fields, tail))
  {
    assert ("," + rest)[1..] == rest;
  }

  /** A written line reads back as its fields, when the end or a line break follows. */
  lemma {:induction false} ReadRecordBack(row: seq<string>, tail: string)
    requires row != []
    requires tail == [] || tail[0] == '\n'
    ensures ReadRecord(Line(row) + tail) == Some((row, tail))
  {
    if |row| == 1 {
      assert Line(row) == EscapeCSV(row[0]);
      ReadFieldBack(row[0], tail);
      ReadRecordLast(Line(row) + tail, row[0], tail);
      assert [row[0]] == row;
    } else {
      var rest := Line(row[1..]) + tail;
      assert Line(row) + tail == EscapeCSV(row[0]) + ("," + rest);
      ReadFieldBack(row[0], "," + rest);
      ReadRecordBack(row[1..], tail);
      ReadRecordNext(Line(row) + tail, row[0], rest, row[1..], tail);
      assert row == [row[0]] + row[1..];
    }
  }

  /** A record followed by the end is a table of one row. */
  lemma ReadRecordsLast(t: string, row: seq<string>)
    requires ReadRecord(t) == Some((row, []))
    ensures ReadRecords(t) == Some([row])
  {
  }

  /** A record followed by a line break and a table is a table one row longer. */
  lemma ReadRecordsNext(t: string, row: seq<string>, rest: string, rows: seq<seq<string>>)
    requires ReadRecord(t) == Some((row, "\n" + rest))
    requires ReadRecords(rest) == Some(rows)
    ensures ReadRecords(t) == Some([row] + rows)
  {
    assert ("\n" + rest)[1..] == rest;
  }

  /**
   * The CSV text reads back as the rows it was written from (section 2 of
   * RFC 4180): every field survives quoting and the separators are recovered,
   * for any non-empty table of non-empty rows.
   */
  lemma {:induction false} CsvRoundTrip(rows: seq<seq<string>>)
    requires rows != [] && forall i :: 0 <= i < |rows| ==> rows[i] != []
    ensures ReadRecords(CsvText(rows)) == Some(rows)
  {
    if |rows| == 1 {
      CsvLastRow(rows);
    } else {
      assert rows[1..] != [] && forall i :: 0 <= i < |rows[1..]| ==> rows[1..][i] != [] by {
        forall i | 0 <= i < |rows[1..]| ensures rows[1..][i] != [] {
          assert rows[1..][i] == rows[i + 1];
        }
      }
      CsvRoundTrip(rows[1..]);
      CsvNextRow(rows);
    }
  }

  lemma CsvLastRow(rows: seq<seq<string>>)
    requires |rows| == 1 && rows[0] != []
    ensures ReadRecords(CsvText(rows)) == Some(rows)
  {
    ReadRecordBack(rows[0], []);
    assert CsvText(rows) == Line(rows[0]) + [];
    ReadRecordsLast(CsvText(rows), rows[0]);
    assert [rows[0]] == rows;
  }

  lemma CsvNextRow(rows: seq<seq<string>>)
    requires |rows| > 1 && rows[0] != []
    requires ReadRecords(CsvText(rows[1..])) == Some(rows[1..])
    ensures ReadRecords(CsvText(rows)) == Some(rows)
  {
    var rest := CsvText(rows[1..]);
    var brk := "\n" + rest;
    CsvTextCons(rows);
    ReadRecordBack(rows[0], brk);
    ReadRecordsNext(Line(rows[0]) + brk, rows[0], rest, rows[1..]);
    assert rows == [rows[0]] + rows[1..];
  }

  lemma CsvTextCons(rows: seq<seq<string>>)
    requires |rows| > 1
    ensures CsvText(rows) == Line(rows[0]) + ("\n" + CsvText(rows[1..]))
  {
  }

  /** A field without special characters is written as it is; one with them is wrapped in quotes. */
  lemma EscapeShape(s: string)
    ensures !NeedsQuotes(s) ==> EscapeCSV(s) == s
    ensures NeedsQuotes(s) ==> |EscapeCSV(s)| >= 2 && EscapeCSV(s)[0] == '"' && EscapeCSV(s)[|EscapeCSV(s)| - 1] == '"'
  {
  }

  // ---------------------------------------------------------------- the two exports

  /** `buildAggregatedCSV`: a header, then one row per chart row. */
  method AggregatedRows(chart: seq<(string, real)>, f: Formats) returns (rows: seq<seq<string>>)
    ensures |rows| == |chart| + 1 && rows[0] == ["Label", "Sales"]
    ensures forall i :: 0 <= i < |chart| ==> rows[i + 1] == [chart[i].0, f.number(chart[i].1)]
  {
    rows := [["Label", "Sales"]];
    var i := 0;
    while i < |chart|
      invariant 0 <= i <= |chart|
      invariant |rows| == i + 1 && rows[0] == ["Label", "Sales"]
      invariant forall j :: 0 <= j < i ==> rows[j + 1] == [chart[j].0, f.number(chart[j].1)]
    {
      rows := rows + [[chart[i].0, f.number(chart[i].1)]];
      i := i + 1;
    }
  }

  const DetailHeader: seq<string> := ["Invoice Number", "Product Name", "Quantity", "Net Total", "Selling Date"]

  /** One detailed row: invoice number, line name, quantity, net total and the invoice's date-time, "" when missing. */
  function DetailRow(inv: ReportInvoice, it: ReportItem, f: Formats): seq<string> {
    [inv.number.GetOr(""), it.name.GetOr(""), f.number(it.quantity.GetOr(0.0)), f.number(Net(inv)),
     if inv.dateTime.Some? then f.dateTime(inv.dateTime.value) else ""]
  }

  /** The detailed rows of all invoices: one per (invoice, line) pair, invoice by invoice. */
  function DetailRows(invoices: seq<ReportInvoice>, f: Formats): seq<seq<string>> {
    if invoices == [] then []
    else
      var inv := invoices[|invoices| - 1];
      DetailRows(invoices[..|invoices| - 1], f) + seq(|inv.items|, j requires 0 <= j < |inv.items| => DetailRow(inv, inv.items[j], f))
  }

  /** The number of lines over all invoices. */
  function LineCount(invoices: seq<ReportInvoice>): nat {
    if invoices == [] then 0 else LineCount(invoices[..|invoices| - 1]) + |invoices[|invoices| - 1].items|
  }

  /** `buildDetailedCSV`: the header row, then the rows pushed invoice by invoice, line by line. */
  method DetailedRows(invoices: seq<ReportInvoice>, f: Formats) returns (rows: seq<seq<string>>)
    ensures rows == [DetailHeader] + DetailRows(invoices, f)
  {
    rows := [DetailHeader];
    var i := 0;
    while i < |invoices|
      invariant 0 <= i <= |invoices|
      invariant rows == [DetailHeader] + DetailRows(invoices[..i], f)
    {
      var inv := invoices[i];
      ghost var before := rows;
      var j := 0;
      while j < |inv.items|
        invariant 0 <= j <= |inv.items|
        invariant rows == before + seq(j, k requires 0 <= k < j => DetailRow(inv, inv.items[k], f))
      {
        rows := rows + [DetailRow(inv, inv.items[j], f)];
        j := j + 1;
      }
      assert invoices[..i + 1][..i] == invoices[..i];
      i := i + 1;
    }
    assert invoices[..|invoices|] == invoices;
  }

  /**
   * The detailed export has one header row and one row per (invoice, line)
   * pair, all five fields wide, so it reads back row for row.
   */
  lemma {:induction false} DetailRowsShape(invoices: seq<ReportInvoice>, f: Formats)
    ensures |DetailRows(invoices, f)| == LineCount(invoices)
    ensures forall r :: r in DetailRows(invoices, f) ==> |r| == 5
  {
    if invoices != [] {
      DetailRowsShape(invoices[..|invoices| - 1], f);
    }
  }

  /** Both exports read back as the rows they were built from. */
  lemma ExportsReadBack(chart: seq<(string, real)>, invoices: seq<ReportInvoice>, f: Formats)
    ensures forall rows ::
      (|rows| == |chart| + 1 && rows[0] == ["Label", "Sales"]
       && (forall i :: 0 <= i < |chart| ==> rows[i + 1] == [chart[i].0, f.number(chart[i].1)])) ==>
      ReadRecords(CsvText(rows)) == Some(rows)
    ensures ReadRecords(CsvText([DetailHeader] + DetailRows(invoices, f))) == Some([DetailHeader] + DetailRows(invoices, f))
  {
    forall rows | |rows| == |chart| + 1 && rows[0] == ["Label", "Sales"]
      && (forall i :: 0 <= i < |chart| ==> rows[i + 1] == [chart[i].0, f.number(chart[i].1)])
      ensures ReadRecords(CsvText(rows)) == Some(rows)
    {
      assert forall i :: 0 <= i < |rows| ==> rows[i] != [] by {
        forall i | 0 <= i < |rows| ensures rows[i] != [] {
          if i > 0 { assert rows[(i - 1) + 1] == [chart[i - 1].0, f.number(chart[i - 1].1)]; }
        }
      }
      CsvRoundTrip(rows);
    }
    var d := [DetailHeader] + DetailRows(invoices, f);
    DetailRowsShape(invoices, f);
    assert forall i :: 0 <= i < |d| ==> d[i] != [] by {
      forall i | 0 <= i < |d| ensures d[i] != [] {
        if i > 0 { assert d[i] in DetailRows(invoices, f); }
      }
    }
    CsvRoundTrip(d);
  }
}
