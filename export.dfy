/** The data shaping of export_utils.py: the mermaid.ink URL of
    `mermaid_to_image`, and the rows, truncated maps, per-type counts and
    placeholders that `create_pdf_report` and `create_pptx_report` hand to
    reportlab and python-pptx. The report's `result` lists are lists of
    decoded JSON objects. */
module Export {
  import opened Wrappers
  import opened PyStrings
  import opened JsonValues
  import opened Histograms
  import Utf8
  import Base64

  // ---------------------------------------------------------------------
  // mermaid_to_image (export_utils.py:40-48)
  // ---------------------------------------------------------------------

  const MermaidInk: string := "https://mermaid.ink/img/"

  predicate IsJpegFormat(format: string) {
    Lower(format) == "jpg" || Lower(format) == "jpeg"
  }

  /** The query that selects the image type. */
  function TypeQuery(format: string): string {
    if IsJpegFormat(format) then "?type=jpeg" else "?type=png"
  }

  /** The URL fetched for a diagram: the base64 of its UTF-8 bytes as the
      path, the image type as the query. */
  function MermaidUrl(code: string, format: string): string {
    MermaidInk + Base64.Encode(Utf8.Encode(code)) + TypeQuery(format)
  }

  /** The path segment holds no `?`, and decoding it (base64, then UTF-8)
      gives the diagram text back. */
  lemma MermaidUrlSegment(code: string, format: string) returns (segment: string)
    ensures MermaidUrl(code, format) == MermaidInk + segment + TypeQuery(format)
    ensures forall k :: 0 <= k < |segment| ==> segment[k] != '?'
    ensures Base64.Decode(segment).Some? && Utf8.Decode(Base64.Decode(segment).value) == Some(code)
  {
    var bytes := Utf8.Encode(code);
    segment := Base64.Encode(bytes);
    Base64.EncodeAlphabet(bytes);
    assert Base64.IndexOf('?').None?;
    Base64.DecodeEncode(bytes);
    Utf8.DecodeEncode(code);
  }

  /** The URL asks for JPEG exactly when the format, lower-cased, is "jpg"
      or "jpeg", and for PNG otherwise. */
  lemma MermaidUrlType(code: string, format: string)
    ensures EndsWith(MermaidUrl(code, format), "?type=jpeg") <==> IsJpegFormat(format)
    ensures !IsJpegFormat(format) ==> EndsWith(MermaidUrl(code, format), "?type=png")
  {
    var url := MermaidUrl(code, format);
    var front := MermaidInk + Base64.Encode(Utf8.Encode(code));
    var q := TypeQuery(format);
    assert url == front + q;
    assert url[|front|..] == q;
    if !IsJpegFormat(format) {
      assert url[|url| - 2] == 'n' != "?type=jpeg"[8];
    }
  }

  // ---------------------------------------------------------------------
  // Report blocks
  // ---------------------------------------------------------------------

  /** What the PDF story holds: a paragraph of text or a table of rows. */
  datatype Block = Para(text: string) | Grid(rows: seq<seq<string>>)

  /** Python's `min(n, limit)` for the `[:limit]` slices. */
  function Min(a: nat, b: nat): nat {
    if a <= b then a else b
  }

  /** Python's `xs[:n]`. */
  function FirstN<T>(xs: seq<T>, n: nat): (r: seq<T>)
    ensures |r| == Min(|xs|, n) && r == xs[..|r|]
  {
    xs[..Min(|xs|, n)]
  }

  function Paras(texts: seq<string>): (blocks: seq<Block>)
    ensures |blocks| == |texts|
  {
    seq(|texts|, k requires 0 <= k < |texts| => Para(texts[k]))
  }

  /** `[f(i, x) for i, x in enumerate(xs, 1)]`. */
  function Enumerated<T, U>(f: (nat, T) -> U, xs: seq<T>): (ys: seq<U>)
    ensures |ys| == |xs|
  {
    seq(|xs|, k requires 0 <= k < |xs| => f(k + 1, xs[k]))
  }

  lemma EnumeratedAt<T, U>(f: (nat, T) -> U, xs: seq<T>, k: nat)
    requires k < |xs|
    ensures Enumerated(f, xs)[k] == f(k + 1, xs[k])
  {
  }

  /** A prefix one longer ends with the next element. */
  lemma TakeOneMore<T>(s: seq<T>, i: nat)
    requires i < |s|
    ensures s[..i + 1] == s[..i] + [s[i]]
  {
  }

  /** With a header row in front, one more item still adds one row at the end. */
  lemma HeadedSnoc<T, U>(header: U, f: (nat, T) -> U, xs: seq<T>, i: nat)
    requires i < |xs|
    ensures [header] + Enumerated(f, xs[..i + 1]) == ([header] + Enumerated(f, xs[..i])) + [f(i + 1, xs[i])]
  {
    EnumeratedSnoc(f, xs, i);
  }

  /** A header row followed by the enumerated rows: row `k` is the result for
      the `k`-th item. */
  lemma HeadedEnumeration<T, U>(header: U, f: (nat, T) -> U, xs: seq<T>)
    ensures var rows := [header] + Enumerated(f, xs);
            && |rows| == |xs| + 1 && rows[0] == header
            && forall k :: 1 <= k < |rows| ==> rows[k] == f(k, xs[k - 1])
  {
  }

  /** Enumerating one more item adds one more result at the end. */
  lemma EnumeratedSnoc<T, U>(f: (nat, T) -> U, xs: seq<T>, i: nat)
    requires i < |xs|
    ensures Enumerated(f, xs[..i + 1]) == Enumerated(f, xs[..i]) + [f(i + 1, xs[i])]
  {
    var a, b := Enumerated(f, xs[..i + 1]), Enumerated(f, xs[..i]) + [f(i + 1, xs[i])];
    forall k | 0 <= k < |a|
      ensures a[k] == b[k]
    {
      assert xs[..i + 1][k] == xs[k];
      if k < i {
        assert xs[..i][k] == xs[k];
      }
    }
  }

  /** The results of `f` on every item, concatenated in order. */
  function FlatMap<T, U>(f: T -> seq<U>, xs: seq<T>): seq<U>
    decreases |xs|
  {
    if xs == [] then [] else FlatMap(f, xs[..|xs| - 1]) + f(xs[|xs| - 1])
  }

  /** Mapping one more item appends its results. */
  lemma FlatMapSnoc<T, U>(f: T -> seq<U>, xs: seq<T>, i: nat)
    requires i < |xs|
    ensures FlatMap(f, xs[..i + 1]) == FlatMap(f, xs[..i]) + f(xs[i])
  {
    assert xs[..i + 1][..i] == xs[..i];
  }

  /** When `f` always gives two results, item `i` gives results `2i` and `2i + 1`. */
  lemma {:induction false} FlatMapPairs<T, U>(f: T -> seq<U>, xs: seq<T>)
    requires forall x :: |f(x)| == 2
    decreases |xs|
    ensures |FlatMap(f, xs)| == 2 * |xs|
    ensures forall i :: 0 <= i < |xs| ==> FlatMap(f, xs)[2 * i] == f(xs[i])[0] && FlatMap(f, xs)[2 * i + 1] == f(xs[i])[1]
  {
    if xs != [] {
      var front := xs[..|xs| - 1];
      FlatMapPairs(f, front);
      assert forall i :: 0 <= i < |front| ==> front[i] == xs[i];
    }
  }

  /** One leading element, then two results per item. */
  lemma ConsFlatMapPairs<T, U>(head: U, f: T -> seq<U>, xs: seq<T>)
    requires forall x :: |f(x)| == 2
    ensures |[head] + FlatMap(f, xs)| == 1 + 2 * |xs| && ([head] + FlatMap(f, xs))[0] == head
    ensures forall i :: 0 <= i < |xs| ==>
              ([head] + FlatMap(f, xs))[2 * i + 1] == f(xs[i])[0] && ([head] + FlatMap(f, xs))[2 * i + 2] == f(xs[i])[1]
  {
    FlatMapPairs(f, xs);
  }

  // ---------------------------------------------------------------------
  // Process maps (export_utils.py:144-164)
  // ---------------------------------------------------------------------

  const MapLimit: nat := 2000

  /** A map longer than the limit is cut to the limit and marked with "...". */
  function Truncated(text: string): (r: string)
    ensures |text| <= MapLimit ==> r == text
    ensures |text| > MapLimit ==> |r| == MapLimit + 3 && r[..MapLimit] == text[..MapLimit] && r[MapLimit..] == "..."
  {
    if |text| > MapLimit then text[..MapLimit] + "..." else text
  }

  /** The blocks of a map section: the heading, then the (truncated) diagram
      source, or a placeholder for a missing or empty map. */
  function MapSection(heading: string, intro: string, placeholder: string, mapText: string): (blocks: seq<Block>)
    ensures mapText == [] ==> blocks == [Para(heading), Para(placeholder)]
    ensures mapText != [] ==> |blocks| == 3 && blocks[2] == Para("<pre>" + Truncated(mapText) + "</pre>")
  {
    [Para(heading)] + if mapText != [] then [Para(intro), Para("<pre>" + Truncated(mapText) + "</pre>")] else [Para(placeholder)]
  }

  function CurrentMapSection(mapText: string): seq<Block> {
    MapSection("Current State Process Map", "Mermaid Diagram:", "No current state map available.", mapText)
  }

  function FutureMapSection(mapText: string): seq<Block> {
    MapSection("Future State Process Map", "Optimized Mermaid Diagram:", "No future state map available.", mapText)
  }

  // ---------------------------------------------------------------------
  // Field access
  // ---------------------------------------------------------------------

  /** `str(d.get(key, default))`. */
  function Text(d: Record, key: string, default: string): string {
    Str(Get(d, key, JStr(default)))
  }

  /** The key is missing or holds an integer or a boolean (Python's `bool`
      is an `int`), so `d.get(key, 0)` is a number. */
  predicate IntOrAbsent(d: Record, key: string) {
    Lookup(d, key).None? || Lookup(d, key).value.JNum? || Lookup(d, key).value.JBool?
  }

  /** `d.get(key, 0)` for such a key. */
  function Number(d: Record, key: string): int {
    match Lookup(d, key)
    case Some(JNum(n)) => n
    case Some(JBool(b)) => if b then 1 else 0
    case _ => 0
  }

  const Savings: string := "estimated_savings_annual"
  const Hours: string := "time_savings_hours_per_week"

  /** `sum(opp.get('estimated_savings_annual', 0) ...)` and the `:,.0f`
      format of each figure raise unless every savings figure is a number. */
  predicate SummableSavings(opps: seq<Record>) {
    forall k :: 0 <= k < |opps| ==> IntOrAbsent(opps[k], Savings)
  }

  /** `hours * 2` is a number, or a string or list repeated twice; it raises
      for `None` and for a dict. */
  predicate HoursDoublable(opp: Record) {
    IntOrAbsent(opp, Hours) || Lookup(opp, Hours).value.JStr? || Lookup(opp, Hours).value.JArr?
  }

  /** Every opportunity row of the PDF table can be written. */
  predicate Tabulable(opps: seq<Record>) {
    SummableSavings(opps) && forall k :: 0 <= k < |opps| ==> HoursDoublable(opps[k])
  }

  /** `f"${n:,.0f}"`: the digits of `float(n)`, which are those of `n` up
      to 2^53. */
  function Dollars(n: int): (cell: string)
    ensures |cell| >= 1 && cell[0] == '$'
    ensures n >= 0 ==> AllDigits(DropCommas(cell[1..])) && DigitsValue(DropCommas(cell[1..])) == ToDouble(n)
    ensures n < 0 ==> |cell| >= 2 && cell[1] == '-' && AllDigits(DropCommas(cell[2..]))
                      && DigitsValue(DropCommas(cell[2..])) == ToDouble(-n)
    ensures -(DoubleExact as int) <= n <= DoubleExact ==>
              var digits := if n >= 0 then cell[1..] else cell[2..];
              DigitsValue(DropCommas(digits)) == if n >= 0 then n else -n
  {
    if n >= 0 then
      GroupedValue(ToDouble(n));
      ToDoubleNearest(n);
      assert ("$" + Money(n))[1..] == Grouped(ToDouble(n));
      "$" + Money(n)
    else
      GroupedValue(ToDouble(-n));
      ToDoubleNearest(-n);
      assert ("$" + Money(n))[2..] == Grouped(ToDouble(-n));
      "$" + Money(n)
  }

  /** An `ID` cell: the prefix and the 1-based position, two digits at least. */
  function RowId(prefix: string, i: nat): (id: string)
    ensures |id| >= |prefix| + 2 && id[..|prefix|] == prefix
    ensures AllDigits(id[|prefix|..]) && DigitsValue(id[|prefix|..]) == i
  {
    Pad2Value(i);
    assert (prefix + Pad2(i))[|prefix|..] == Pad2(i);
    prefix + Pad2(i)
  }

  /** Rows at different positions get different IDs. */
  lemma RowIdsDistinct(prefix: string, i: nat, j: nat)
    requires i != j
    ensures RowId(prefix, i) != RowId(prefix, j)
  {
  }

  // ---------------------------------------------------------------------
  // Executive summary (export_utils.py:114-126, 334-353)
  // ---------------------------------------------------------------------

  /** `sum(opp.get('estimated_savings_annual', 0) for opp in opps)`. */
  function TotalSavings(opps: seq<Record>): int {
    if opps == [] then 0 else TotalSavings(opps[..|opps| - 1]) + Number(opps[|opps| - 1], Savings)
  }

  function SummaryRows(opps: seq<Record>, tests: seq<Record>): (rows: seq<seq<string>>)
    requires SummableSavings(opps)
    ensures |rows| == 5 && rows[0] == ["Metric", "Value"]
    ensures rows[1] == ["Automation Opportunities", IntStr(|opps|)] && rows[2] == ["Test Cases Generated", IntStr(|tests|)]
    ensures |rows[3]| == 2 && rows[3][0] == "Estimated Annual Savings" && |rows[3][1]| >= 1
    ensures TotalSavings(opps) >= 0 ==>
              AllDigits(DropCommas(rows[3][1][1..])) && DigitsValue(DropCommas(rows[3][1][1..])) == ToDouble(TotalSavings(opps))
    ensures 0 <= TotalSavings(opps) <= DoubleExact ==> DigitsValue(DropCommas(rows[3][1][1..])) == TotalSavings(opps)
  {
    [["Metric", "Value"],
     ["Automation Opportunities", IntStr(|opps|)],
     ["Test Cases Generated", IntStr(|tests|)],
     ["Estimated Annual Savings", Dollars(TotalSavings(opps))],
     ["Processing Time", "~14 minutes"]]
  }

  // ---------------------------------------------------------------------
  // Automation opportunities (export_utils.py:166-214)
  // ---------------------------------------------------------------------

  const OpportunityHeader: seq<string> := ["ID", "Stage", "Activity", "Type", "Impact", "Savings/Year", "Priority"]

  /** `str(d.get(key, default))[:n]`. */
  function Cut(d: Record, key: string, default: string, n: nat): (cell: string)
    ensures |cell| <= n
    ensures Lookup(d, key).None? && |default| <= n ==> cell == default
  {
    Take(Text(d, key, default), n)
  }

  /** The activity cell: the description cut to 40 characters, then "...". */
  function ActivityCell(opp: Record): (cell: string)
    ensures |cell| <= 43 && EndsWith(cell, "...")
    ensures Lookup(opp, "description").None? ==> cell == "N/A..."
  {
    var description := Cut(opp, "description", "N/A", 40);
    assert (description + "...")[|description|..] == "...";
    description + "..."
  }

  /** The impact cell, `f"{hours * 2}%"`: a number doubled, or a string or
      list repeated. */
  function ImpactCell(opp: Record): (cell: string)
    ensures |cell| >= 1 && cell[|cell| - 1] == '%'
    ensures Lookup(opp, Hours).Some? && Lookup(opp, Hours).value.JStr? ==>
              var s := Lookup(opp, Hours).value.s; |cell| == 2 * |s| + 1 && cell[..|s|] == s && cell[|s|..2 * |s|] == s
  {
    match Lookup(opp, Hours)
    case Some(JStr(s)) => s + s + "%"
    case Some(JArr(xs)) => Str(JArr(xs + xs)) + "%"
    case _ => IntStr(Number(opp, Hours) * 2) + "%"
  }

  /** The savings cell, `f"${savings:,.0f}"`. */
  function SavingsCell(opp: Record): (cell: string)
    ensures |cell| >= 1 && cell[0] == '$'
    ensures Number(opp, Savings) >= 0 ==>
              AllDigits(DropCommas(cell[1..])) && DigitsValue(DropCommas(cell[1..])) == ToDouble(Number(opp, Savings))
    ensures 0 <= Number(opp, Savings) <= DoubleExact ==> DigitsValue(DropCommas(cell[1..])) == Number(opp, Savings)
  {
    Dollars(Number(opp, Savings))
  }

  /** The table row of the `i`-th opportunity (1-based). */
  function OpportunityRow(i: nat, opp: Record): seq<string> {
    [RowId("AO-", i),
     Cut(opp, "step_id", "N/A", 15),
     ActivityCell(opp),
     Cut(opp, "automation_type", "N/A", 15),
     ImpactCell(opp),
     SavingsCell(opp),
     Text(opp, "priority", "P2")]
  }

  /** A row has one cell per column: the numbered ID, stage and type cut to
      15 characters, the activity cut to 40 and marked with "...", and the
      defaults for missing fields. */
  lemma OpportunityRowCells(i: nat, opp: Record)
    ensures var row := OpportunityRow(i, opp);
            && |row| == |OpportunityHeader|
            && row[0] == RowId("AO-", i)
            && |row[1]| <= 15 && |row[3]| <= 15
            && |row[2]| <= 43 && EndsWith(row[2], "...")
            && (Lookup(opp, "step_id").None? ==> row[1] == "N/A")
            && (Lookup(opp, "description").None? ==> row[2] == "N/A...")
            && (Lookup(opp, "priority").None? ==> row[6] == "P2")
  {
    var row := OpportunityRow(i, opp);
    assert row[1] == Cut(opp, "step_id", "N/A", 15) && row[3] == Cut(opp, "automation_type", "N/A", 15);
    assert row[2] == ActivityCell(opp);
  }

  /** The savings cell of a row reads back, without its "$" and commas, as
      the opportunity's figure after `float` rounding, which is the figure
      itself up to 2^53. */
  lemma OpportunityRowSavings(i: nat, opp: Record)
    ensures var row := OpportunityRow(i, opp);
            && |row| == |OpportunityHeader| && |row[5]| >= 1 && row[5][0] == '$'
            && (Number(opp, Savings) >= 0 ==> DigitsValue(DropCommas(row[5][1..])) == ToDouble(Number(opp, Savings)))
            && (0 <= Number(opp, Savings) <= DoubleExact ==> DigitsValue(DropCommas(row[5][1..])) == Number(opp, Savings))
  {
    var row := OpportunityRow(i, opp);
    assert row[5] == SavingsCell(opp);
  }

  lemma OpportunityRowId(i: nat, opp: Record)
    ensures |OpportunityRow(i, opp)| > 0 && OpportunityRow(i, opp)[0] == RowId("AO-", i)
  {
  }

  /** The whole table: the header, then one row per opportunity. */
  function OpportunityTableOf(opps: seq<Record>): seq<seq<string>> {
    [OpportunityHeader] + Enumerated(OpportunityRow, opps)
  }

  /** The `for i, opp in enumerate(automation_opps, 1)` loop. */
  method OpportunityTable(opps: seq<Record>) returns (rows: seq<seq<string>>)
    requires Tabulable(opps)
    ensures rows == OpportunityTableOf(opps)
  {
    rows := [OpportunityHeader];
    for i := 0 to |opps|
      invariant rows == [OpportunityHeader] + Enumerated(OpportunityRow, opps[..i])
    {
      HeadedSnoc(OpportunityHeader, OpportunityRow, opps, i);
      rows := rows + [OpportunityRow(i + 1, opps[i])];
    }
    assert opps[..|opps|] == opps;
  }

  /** One header row and one row per opportunity, in order. */
  lemma OpportunityTableShape(opps: seq<Record>)
    ensures var rows := OpportunityTableOf(opps);
            && |rows| == |opps| + 1 && rows[0] == OpportunityHeader
            && (forall k :: 1 <= k < |rows| ==> rows[k] == OpportunityRow(k, opps[k - 1]))
  {
    HeadedEnumeration(OpportunityHeader, OpportunityRow, opps);
  }

  /** No two rows of the table share an ID. */
  lemma OpportunityTableIdsDistinct(opps: seq<Record>)
    ensures var rows := OpportunityTableOf(opps);
            forall a, b :: 1 <= a < b < |rows| ==> |rows[a]| > 0 && |rows[b]| > 0 && rows[a][0] != rows[b][0]
  {
    var rows := OpportunityTableOf(opps);
    OpportunityTableShape(opps);
    forall a, b | 1 <= a < b < |rows|
      ensures |rows[a]| > 0 && |rows[b]| > 0 && rows[a][0] != rows[b][0]
    {
      OpportunityRowId(a, opps[a - 1]);
      OpportunityRowId(b, opps[b - 1]);
      RowIdsDistinct("AO-", a, b);
    }
  }

  // ---------------------------------------------------------------------
  // Per-type counts (export_utils.py:203-211, 283-291, 373-385)
  // ---------------------------------------------------------------------

  /** `item.get(key, 'Unknown')` for every item. */
  function TypesOf(items: seq<Record>, key: string): (types: seq<Json>)
    ensures |types| == |items|
  {
    seq(|items|, k requires 0 <= k < |items| => Get(items[k], key, JStr("Unknown")))
  }

  /** One line per key of the counts dict, in its order. */
  function HistogramLines(h: Histogram, prefix: string, suffix: string): (lines: seq<string>)
    requires forall k :: 0 <= k < |h.keys| ==> h.keys[k] in h.counts
    ensures |lines| == |h.keys|
    ensures forall k :: 0 <= k < |h.keys| ==> lines[k] == HistogramLine(prefix, h.keys[k], h.counts[h.keys[k]], suffix)
  {
    seq(|h.keys|, k requires 0 <= k < |h.keys| => HistogramLine(prefix, h.keys[k], h.counts[h.keys[k]], suffix))
  }

  /** `f"{prefix}{key}: {count}{suffix}"`. */
  function HistogramLine(prefix: string, key: Json, count: nat, suffix: string): string {
    prefix + Str(key) + ": " + IntStr(count) + suffix
  }

  /** The lines for the types of `items`. */
  function TypeLinesOf(items: seq<Record>, key: string, prefix: string, suffix: string): seq<string> {
    var h := Tally(TypesOf(items, key));
    TallyTotal(TypesOf(items, key));
    HistogramLines(h, prefix, suffix)
  }

  /** Count the types into a dict, then write one line per entry. */
  method TypeLines(items: seq<Record>, key: string, prefix: string, suffix: string) returns (lines: seq<string>)
    ensures lines == TypeLinesOf(items, key, prefix, suffix)
  {
    var types := TypesOf(items, key);
    var keys, counts := Count(types);
    TallyTotal(types);
    ghost var all := HistogramLines(Histogram(keys, counts), prefix, suffix);
    lines := [];
    for i := 0 to |keys|
      invariant lines == all[..i]
    {
      TakeOneMore(all, i);
      lines := lines + [HistogramLine(prefix, keys[i], counts[keys[i]], suffix)];
    }
    assert all[..|keys|] == all;
  }

  /** Line `k` names the `k`-th distinct type in order of first occurrence
      and the number of items of that type; the types are distinct and are
      exactly those of the items, and the counts add up to the number of items. */
  lemma TypeLinesCount(items: seq<Record>, key: string, prefix: string, suffix: string)
    ensures var types := TypesOf(items, key);
            var h := Tally(types);
            var lines := TypeLinesOf(items, key, prefix, suffix);
            && |lines| == |h.keys|
            && (forall t :: t in h.keys <==> t in types)
            && (forall a, b :: 0 <= a < b < |h.keys| ==> h.keys[a] != h.keys[b])
            && (forall a, b :: 0 <= a < b < |h.keys| ==> FirstIndex(types, h.keys[a]) < FirstIndex(types, h.keys[b]))
            && (forall k :: 0 <= k < |lines| ==> lines[k] == prefix + Str(h.keys[k]) + ": " + IntStr(multiset(types)[h.keys[k]]) + suffix)
            && (forall k :: 0 <= k < |h.keys| ==> h.keys[k] in h.counts)
            && Total(h.keys, h.counts) == |items|
  {
    var types := TypesOf(items, key);
    TallyKeys(types);
    TallyCounts(types);
    TallyOrder(types);
    TallyTotal(types);
    var h := Tally(types);
    var lines := TypeLinesOf(items, key, prefix, suffix);
    assert lines == HistogramLines(h, prefix, suffix);
    forall k | 0 <= k < |lines|
      ensures lines[k] == prefix + Str(h.keys[k]) + ": " + IntStr(multiset(types)[h.keys[k]]) + suffix
    {
      assert lines[k] == HistogramLine(prefix, h.keys[k], h.counts[h.keys[k]], suffix);
    }
  }

  // ---------------------------------------------------------------------
  // The opportunities section of the PDF
  // ---------------------------------------------------------------------

  const NoOpportunities: string := "No automation opportunities identified."

  function OpportunitySection(opps: seq<Record>): seq<Block>
  {
    [Para("Automation Opportunities Matrix")]
    + if opps == [] then [Para(NoOpportunities)]
      else [Grid(OpportunityTableOf(opps)), Para("Automation by Type:")]
           + Paras(TypeLinesOf(opps, "automation_type", "• ", " opportunities"))
  }

  /** The section's appends, in order. */
  method BuildOpportunitySection(opps: seq<Record>) returns (blocks: seq<Block>)
    requires Tabulable(opps)
    ensures blocks == OpportunitySection(opps)
  {
    blocks := [Para("Automation Opportunities Matrix")];
    if opps != [] {
      var rows := OpportunityTable(opps);
      blocks := blocks + [Grid(rows), Para("Automation by Type:")];
      var lines := TypeLines(opps, "automation_type", "• ", " opportunities");
      blocks := blocks + Paras(lines);
    } else {
      blocks := blocks + [Para(NoOpportunities)];
    }
  }

  /** The section has a table exactly when there are opportunities, and
      otherwise only the placeholder. */
  lemma OpportunitySectionPlaceholder(opps: seq<Record>)
    ensures (exists k :: 0 <= k < |OpportunitySection(opps)| && OpportunitySection(opps)[k].Grid?) <==> opps != []
    ensures opps == [] ==> OpportunitySection(opps) == [Para("Automation Opportunities Matrix"), Para(NoOpportunities)]
  {
    var s := OpportunitySection(opps);
    if opps != [] {
      assert s[1].Grid?;
    }
  }

  // ---------------------------------------------------------------------
  // Test cases (export_utils.py:216-294)
  // ---------------------------------------------------------------------

  const TestCaseHeader: seq<string> := ["ID", "Test Case", "Type", "Priority", "Status"]
  const TableLimit: nat := 20
  const ExampleLimit: nat := 3

  /** `'Auto-Ready' if test.get('automated', True) else 'Manual'`. */
  function Status(test: Record): (status: string)
    ensures status == "Manual" || status == "Auto-Ready"
    ensures status == "Manual" <==> Lookup(test, "automated").Some? && !Truthy(Lookup(test, "automated").value)
  {
    if Truthy(Get(test, "automated", JBool(true))) then "Auto-Ready" else "Manual"
  }

  /** The table row of the `i`-th test case (1-based). */
  function TestCaseRow(i: nat, test: Record): seq<string> {
    [RowId("TC-", i),
     Take(Text(test, "test_name", "N/A"), 50),
     Text(test, "test_type", "Functional"),
     Text(test, "priority", "Medium"),
     Status(test)]
  }

  /** A row has one cell per column: the numbered ID, the name cut to 50
      characters, the defaults for a missing type and priority, the status. */
  lemma TestCaseRowCells(i: nat, test: Record)
    ensures var row := TestCaseRow(i, test);
            && |row| == |TestCaseHeader|
            && row[0] == RowId("TC-", i)
            && |row[1]| <= 50
            && (Lookup(test, "test_type").None? ==> row[2] == "Functional")
            && (Lookup(test, "priority").None? ==> row[3] == "Medium")
            && row[4] == Status(test)
  {
  }

  /** The header, then one row for each of the first 20 test cases. */
  function TestCaseTableOf(tests: seq<Record>): seq<seq<string>> {
    [TestCaseHeader] + Enumerated(TestCaseRow, FirstN(tests, TableLimit))
  }

  /** The `for i, test in enumerate(test_cases[:20], 1)` loop. */
  method TestCaseTable(tests: seq<Record>) returns (rows: seq<seq<string>>)
    ensures rows == TestCaseTableOf(tests)
  {
    var shown := tests[..Min(|tests|, TableLimit)];
    rows := [TestCaseHeader];
    for i := 0 to |shown|
      invariant rows == [TestCaseHeader] + Enumerated(TestCaseRow, shown[..i])
    {
      HeadedSnoc(TestCaseHeader, TestCaseRow, shown, i);
      rows := rows + [TestCaseRow(i + 1, shown[i])];
    }
    assert shown[..|shown|] == shown;
  }

  /** At most 20 data rows, from the first test cases in order, with distinct IDs. */
  lemma TestCaseTableShape(tests: seq<Record>)
    ensures var rows := TestCaseTableOf(tests);
            && |rows| == 1 + Min(|tests|, TableLimit) && |rows| <= 21 && rows[0] == TestCaseHeader
            && (forall k :: 1 <= k < |rows| ==> rows[k] == TestCaseRow(k, tests[k - 1]))
            && (forall a, b :: 1 <= a < b < |rows| ==> rows[a][0] != rows[b][0])
  {
    var rows := TestCaseTableOf(tests);
    var shown := FirstN(tests, TableLimit);
    forall k | 1 <= k < |rows|
      ensures rows[k] == TestCaseRow(k, tests[k - 1]) && rows[k][0] == RowId("TC-", k)
    {
      EnumeratedAt(TestCaseRow, shown, k - 1);
      TestCaseRowCells(k, tests[k - 1]);
    }
    forall a, b | 1 <= a < b < |rows|
      ensures rows[a][0] != rows[b][0]
    {
      RowIdsDistinct("TC-", a, b);
    }
  }

  /** `f"• {pc}"` for every pre-condition. */
  function Bullets(items: seq<Json>): seq<string> {
    seq(|items|, k requires 0 <= k < |items| => "• " + Str(items[k]))
  }

  /** `f"{j}. {step}"` for every step, numbered from 1. */
  function Numbered(items: seq<Json>): seq<string> {
    seq(|items|, k requires 0 <= k < |items| => IntStr(k + 1) + ". " + Str(items[k]))
  }

  /** The paragraphs of one detailed example; `None` where iterating the
      pre-conditions or steps raises `TypeError`. */
  function TestDetail(i: nat, test: Record): Option<seq<string>> {
    var pre := Items(Get(test, "preconditions", JArr([JStr("System is available")])));
    var steps := Items(Get(test, "test_steps", JArr([JStr("Execute test")])));
    if pre.None? || steps.None? then None
    else
      Some(["<b>" + RowId("TC-", i) + ": " + Text(test, "test_name", "N/A") + "</b>",
            "<b>Type:</b> " + Text(test, "test_type", "Functional"),
            "<b>Priority:</b> " + Text(test, "priority", "Medium"),
            "<b>Process Step:</b> " + Text(test, "process_step", "N/A"),
            "<b>Description:</b>",
            Text(test, "description", "N/A"),
            "<b>Pre-conditions:</b>"]
           + Bullets(pre.value)
           + ["<b>Test Steps:</b>"]
           + Numbered(steps.value)
           + ["<b>Expected Result:</b>", Text(test, "expected_result", "Test passes")])
  }

  /** The detailed examples of `tests`, numbered from `first`. */
  function Details(tests: seq<Record>, first: nat): Option<seq<string>>
    decreases |tests|
  {
    if tests == [] then Some([])
    else
      match (TestDetail(first, tests[0]), Details(tests[1..], first + 1))
      case (Some(d), Some(rest)) => Some(d + rest)
      case _ => None
  }

  /** The example pages cover at most the first three test cases: the later
      ones cannot change them. */
  lemma ExamplesOnlyFirstThree(a: seq<Record>, b: seq<Record>)
    requires FirstN(a, ExampleLimit) == FirstN(b, ExampleLimit)
    ensures Details(FirstN(a, ExampleLimit), 1) == Details(FirstN(b, ExampleLimit), 1)
  {
  }

  const NoTestCases: string := "No test cases generated."

  /** The test-case part of the PDF; `None` where Python raises. */
  function TestSection(tests: seq<Record>): Option<seq<Block>> {
    if tests == [] then Some([Para("Test Cases"), Para(NoTestCases)])
    else
      match Details(FirstN(tests, ExampleLimit), 1)
      case None => None
      case Some(details) =>
        Some([Para("Test Cases"), Grid(TestCaseTableOf(tests)), Para("Detailed Test Case Examples")]
             + Paras(details) + [Para("Test Coverage Summary:")]
             + Paras(TypeLinesOf(tests, "test_type", "• ", " tests")))
  }

  /** The section has a table exactly when there are test cases, and
      otherwise only the placeholder. */
  lemma TestSectionPlaceholder(tests: seq<Record>)
    ensures tests == [] ==> TestSection(tests) == Some([Para("Test Cases"), Para(NoTestCases)])
    ensures TestSection(tests).Some? ==>
              ((exists k :: 0 <= k < |TestSection(tests).value| && TestSection(tests).value[k].Grid?) <==> tests != [])
  {
    if tests != [] && TestSection(tests).Some? {
      assert TestSection(tests).value[1].Grid?;
    }
  }

  // ---------------------------------------------------------------------
  // PowerPoint slides (export_utils.py:334-385)
  // ---------------------------------------------------------------------

  /** A slide paragraph and its indent level. */
  datatype Paragraph = Paragraph(text: string, level: nat)

  const TopLimit: nat := 5

  /** The two paragraphs of one top opportunity. */
  function OpportunityHeadline(opp: Record): (p: Paragraph)
    ensures p.level == 0
  {
    Paragraph(Text(opp, "description", "N/A") + " - " + SavingsCell(opp) + "/year", 0)
  }

  function OpportunityDetail(opp: Record): (p: Paragraph)
    ensures p.level == 1
  {
    Paragraph("Type: " + Text(opp, "automation_type", "N/A") + " | Complexity: " + Text(opp, "complexity", "N/A"), 1)
  }

  function OpportunityParagraphs(opp: Record): (ps: seq<Paragraph>)
    ensures |ps| == 2 && ps[0].level == 0 && ps[1].level == 1
  {
    [OpportunityHeadline(opp), OpportunityDetail(opp)]
  }

  /** What `tf.clear()` leaves in the text frame: one empty paragraph. */
  const Cleared: Paragraph := Paragraph("", 0)

  /** The "Top Automation Opportunities" slide: the empty paragraph left by
      clearing the frame, then the paragraphs of the first five
      opportunities. */
  function TopOpportunitiesOf(opps: seq<Record>): seq<Paragraph> {
    [Cleared] + FlatMap(OpportunityParagraphs, FirstN(opps, TopLimit))
  }

  /** `tf.clear()`, then the `for i, opp in enumerate(automation_opps[:5], 1)`
      loop of `add_paragraph()` calls. */
  method TopOpportunities(opps: seq<Record>) returns (paras: seq<Paragraph>)
    requires SummableSavings(opps)
    ensures paras == TopOpportunitiesOf(opps)
  {
    var top := opps[..Min(|opps|, TopLimit)];
    paras := [Cleared];
    for i := 0 to |top|
      invariant paras == [Cleared] + FlatMap(OpportunityParagraphs, top[..i])
    {
      var opp := top[i];
      FlatMapSnoc(OpportunityParagraphs, top, i);
      assert OpportunityParagraphs(opp) == [OpportunityHeadline(opp), OpportunityDetail(opp)];
      paras := paras + [OpportunityHeadline(opp), OpportunityDetail(opp)];
    }
    assert top[..|top|] == top;
  }

  /** The empty paragraph, then at most ten more: the headline and the
      detail of each of the first opportunities, in order. */
  lemma TopOpportunitiesShape(opps: seq<Record>)
    ensures var ps := TopOpportunitiesOf(opps);
            && |ps| == 1 + 2 * Min(|opps|, TopLimit) && |ps| <= 11 && ps[0] == Cleared
            && (forall i :: 0 <= i < Min(|opps|, TopLimit) ==>
                  ps[2 * i + 1] == OpportunityHeadline(opps[i]) && ps[2 * i + 2] == OpportunityDetail(opps[i]))
  {
    var top := FirstN(opps, TopLimit);
    ConsFlatMapPairs(Cleared, OpportunityParagraphs, top);
    assert forall i :: 0 <= i < |top| ==> top[i] == opps[i];
  }

  /** After the empty paragraph, headlines sit at level 0 and details at
      level 1, alternating. */
  lemma TopOpportunitiesLevels(opps: seq<Record>)
    ensures var ps := TopOpportunitiesOf(opps);
            forall j :: 1 <= j < |ps| ==> ps[j].level == (j - 1) % 2
  {
    var top := FirstN(opps, TopLimit);
    var ps := TopOpportunitiesOf(opps);
    ConsFlatMapPairs(Cleared, OpportunityParagraphs, top);
    forall j | 1 <= j < |ps|
      ensures ps[j].level == (j - 1) % 2
    {
      var i := (j - 1) / 2;
      if (j - 1) % 2 == 0 {
        assert j == 2 * i + 1 && ps[j] == OpportunityParagraphs(top[i])[0];
      } else {
        assert j == 2 * i + 2 && ps[j] == OpportunityParagraphs(top[i])[1];
      }
    }
  }

  /** The "Test Coverage" slide: the total, then one level-1 line per type. */
  function CoverageOf(tests: seq<Record>): seq<Paragraph> {
    CoverageSlide(|tests|, TypeLinesOf(tests, "test_type", "", " tests"))
  }

  /** The total at level 0, then the lines at level 1. */
  function CoverageSlide(total: nat, lines: seq<string>): (ps: seq<Paragraph>)
    ensures |ps| == 1 + |lines| && ps[0] == Paragraph("Total Test Cases: " + IntStr(total), 0)
    ensures forall k :: 1 <= k < |ps| ==> ps[k] == Paragraph(lines[k - 1], 1)
  {
    [Paragraph("Total Test Cases: " + IntStr(total), 0)]
    + seq(|lines|, k requires 0 <= k < |lines| => Paragraph(lines[k], 1))
  }

  /** The slide opens with the total at level 0; then comes one level-1 line
      per distinct test type, in order of first occurrence, giving the number
      of test cases of that type. */
  lemma CoverageShape(tests: seq<Record>)
    ensures var types := TypesOf(tests, "test_type");
            var h := Tally(types);
            var ps := CoverageOf(tests);
            && |ps| == 1 + |h.keys|
            && ps[0] == Paragraph("Total Test Cases: " + IntStr(|tests|), 0)
            && (forall k :: 1 <= k < |ps| ==>
                  ps[k] == Paragraph(Str(h.keys[k - 1]) + ": " + IntStr(multiset(types)[h.keys[k - 1]]) + " tests", 1))
  {
    TypeLinesCount(tests, "test_type", "", " tests");
    var types := TypesOf(tests, "test_type");
    var h := Tally(types);
    var ps := CoverageOf(tests);
    forall k | 1 <= k < |ps|
      ensures ps[k] == Paragraph(Str(h.keys[k - 1]) + ": " + IntStr(multiset(types)[h.keys[k - 1]]) + " tests", 1)
    {
      assert "" + Str(h.keys[k - 1]) == Str(h.keys[k - 1]);
    }
  }

  /** The "Executive Summary" slide: the same figures as the PDF summary table. */
  function SummarySlide(opps: seq<Record>, tests: seq<Record>): seq<Paragraph>
    requires SummableSavings(opps)
  {
    [Paragraph(Labelled("Automation Opportunities", IntStr(|opps|)), 0),
     Paragraph(Labelled("Test Cases Generated", IntStr(|tests|)), 0),
     Paragraph(Labelled("Estimated Annual Savings", Dollars(TotalSavings(opps))), 0),
     Paragraph(Labelled("Processing Time", "~14 minutes"), 0)]
  }

  /** `f"{name}: {value}"`. */
  function Labelled(name: string, value: string): string {
    name + ": " + value
  }

  /** Each slide line is the label and value of the matching row of the PDF
      summary table, all at level 0. */
  lemma SummarySlideMatchesTable(opps: seq<Record>, tests: seq<Record>)
    requires SummableSavings(opps)
    ensures var ps := SummarySlide(opps, tests);
            var rows := SummaryRows(opps, tests);
            && |ps| == |rows| - 1
            && forall k :: 0 <= k < |ps| ==> |rows[k + 1]| == 2 && ps[k] == Paragraph(Labelled(rows[k + 1][0], rows[k + 1][1]), 0)
  {
  }
}
