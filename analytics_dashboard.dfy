/** The computations of the analytics dashboard: the CSV export of the
    summary and category breakdown, the numbering of the top events and the
    colour of each pie slice. */
module AnalyticsDashboard {
  import opened Optional
  import opened Decimal

  datatype Category = Category(name: string, value: int)

  datatype TopEvent = TopEvent(title: string, category: string, registrations: int)

  /** The analytics summary as fetched; every field may be missing. A summary
      number that is missing or falsy is None. */
  datatype Analytics = Analytics(
    totalEvents: Option<int>,
    totalRegistrations: Option<int>,
    totalRevenue: Option<int>,
    activeUsers: Option<int>,
    categoryData: Option<seq<Category>>,
    topEvents: Option<seq<TopEvent>>)

  // ---------------------------------------------------------------------------
  // CSV report
  // ---------------------------------------------------------------------------

  const TITLE: string := "Event Analytics Report\n\n"
  const SUMMARY_HEADING: string := "Summary Statistics\n"
  const SUMMARY_KEYS: seq<string> := ["Total Events", "Total Registrations", "Total Revenue", "Active Users"]
  const CATEGORY_HEADING: string := "Category Breakdown\n"
  const CATEGORY_COLUMNS: string := "Category,Count\n"

  /** One `key,value` line; a missing value is written as 0 (`value || 0`). */
  function SummaryLine(key: string, v: Option<int>): string
  {
    key + "," + IntToString(OrElse(v, 0)) + "\n"
  }

  function CategoryLine(c: Category): string
  {
    c.name + "," + IntToString(c.value) + "\n"
  }

  function CategoryLines(cs: seq<Category>): string
  {
    if cs == [] then "" else CategoryLine(cs[0]) + CategoryLines(cs[1..])
  }

  /** The text `generateCSVReport` produces. */
  function ReportText(data: Option<Analytics>): (csv: string)
    ensures csv == "" <==> data.None?
    ensures data.Some? ==> TITLE + SUMMARY_HEADING <= csv
  {
    match data
    case None => ""
    case Some(a) =>
      TITLE + SUMMARY_HEADING
      + SummaryLine("Total Events", a.totalEvents)
      + SummaryLine("Total Registrations", a.totalRegistrations)
      + SummaryLine("Total Revenue", a.totalRevenue)
      + SummaryLine("Active Users", a.activeUsers) + "\n"
      + CATEGORY_HEADING + CATEGORY_COLUMNS + CategoryLines(OrElse(a.categoryData, []))
  }

  lemma {:induction false} CategoryLinesSnoc(cs: seq<Category>, c: Category)
    ensures CategoryLines(cs + [c]) == CategoryLines(cs) + CategoryLine(c)
  {
    if cs == [] {
      assert [c][1..] == [];
    } else {
      assert (cs + [c])[1..] == cs[1..] + [c];
      CategoryLinesSnoc(cs[1..], c);
    }
  }

  lemma Assoc(a: string, b: string, c: string)
    ensures (a + b) + c == a + (b + c)
  {
  }

  /** `generateCSVReport`: an accumulator extended line by line, one line per
      category in input order. */
  method GenerateCsvReport(data: Option<Analytics>) returns (csv: string)
    ensures csv == ReportText(data)
  {
    if data.None? {
      return "";
    }
    var a := data.value;
    csv := TITLE;
    csv := csv + SUMMARY_HEADING;
    csv := csv + SummaryLine("Total Events", a.totalEvents);
    csv := csv + SummaryLine("Total Registrations", a.totalRegistrations);
    csv := csv + SummaryLine("Total Revenue", a.totalRevenue);
    csv := csv + SummaryLine("Active Users", a.activeUsers) + "\n";
    csv := csv + CATEGORY_HEADING;
    csv := csv + CATEGORY_COLUMNS;
    var items := OrElse(a.categoryData, []);
    ghost var head := csv;
    for i := 0 to |items|
      invariant csv == head + CategoryLines(items[..i])
    {
      CategoryLinesSnoc(items[..i], items[i]);
      assert items[..i + 1] == items[..i] + [items[i]];
      Assoc(head, CategoryLines(items[..i]), CategoryLine(items[i]));
      csv := csv + CategoryLine(items[i]);
    }
    assert items[..|items|] == items;
  }

  // ---------------------------------------------------------------------------
  // Reading a report back
  // ---------------------------------------------------------------------------

  /** What a report states: the four summary numbers as written, and the categories. */
  datatype ReportContents = ReportContents(
    totalEvents: int,
    totalRegistrations: int,
    totalRevenue: int,
    activeUsers: int,
    categories: seq<Category>)

  function Contents(a: Analytics): ReportContents
  {
    ReportContents(
      OrElse(a.totalEvents, 0), OrElse(a.totalRegistrations, 0),
      OrElse(a.totalRevenue, 0), OrElse(a.activeUsers, 0),
      OrElse(a.categoryData, []))
  }

  /** The text before the first `sep` and the text after it; None when `sep` does not occur. */
  function SplitAt(s: string, sep: char): (r: Option<(string, string)>)
    ensures r.None? <==> sep !in s
    ensures r.Some? ==> s == r.value.0 + [sep] + r.value.1 && sep !in r.value.0
  {
    if s == [] then None
    else if s[0] == sep then Some(([], s[1..]))
    else match SplitAt(s[1..], sep)
      case None => None
      case Some((before, after)) => Some(([s[0]] + before, after))
  }

  lemma {:induction false} SplitAtFirst(before: string, sep: char, after: string)
    requires sep !in before
    ensures SplitAt(before + [sep] + after, sep) == Some((before, after))
  {
    if before != [] {
      assert before[0] != sep && sep !in before[1..];
      assert (before + [sep] + after)[0] == before[0];
      assert (before + [sep] + after)[1..] == before[1..] + [sep] + after;
      SplitAtFirst(before[1..], sep, after);
      assert [before[0]] + before[1..] == before;
    }
  }

  /** Reads one `key,value` line off the front of `s`. */
  function ParseLine(s: string): Option<(string, int, string)>
  {
    match SplitAt(s, '\n')
    case None => None
    case Some((line, rest)) =>
      match SplitAt(line, ',')
      case None => None
      case Some((key, value)) =>
        match ParseInt(value)
        case None => None
        case Some(v) => Some((key, v, rest))
  }

  lemma ParseLineOf(key: string, v: int, rest: string)
    requires ',' !in key && '\n' !in key
    ensures ParseLine(key + "," + IntToString(v) + "\n" + rest) == Some((key, v, rest))
  {
    var line := key + "," + IntToString(v);
    assert '\n' !in line;
    SplitAtFirst(line, '\n', rest);
    SplitAtFirst(key, ',', IntToString(v));
    ParseIntToString(v);
  }

  /** Reads a summary line with the given key; the number and what follows. */
  function ParseSummaryLine(key: string, s: string): Option<(int, string)>
  {
    match ParseLine(s)
    case None => None
    case Some((l, v, rest)) => if l == key then Some((v, rest)) else None
  }

  function ParseCategoryLines(s: string): Option<seq<Category>>
    decreases |s|
  {
    if s == [] then Some([])
    else match ParseLine(s)
      case None => None
      case Some((name, v, rest)) =>
        match ParseCategoryLines(rest)
        case None => None
        case Some(cs) => Some([Category(name, v)] + cs)
  }

  predicate PlainName(c: Category)
  {
    ',' !in c.name && '\n' !in c.name
  }

  lemma {:induction false} ParseCategoryLinesOf(cs: seq<Category>)
    requires forall c :: c in cs ==> PlainName(c)
    ensures ParseCategoryLines(CategoryLines(cs)) == Some(cs)
  {
    if cs != [] {
      assert PlainName(cs[0]);
      ParseLineOf(cs[0].name, cs[0].value, CategoryLines(cs[1..]));
      assert forall c :: c in cs[1..] ==> c in cs;
      ParseCategoryLinesOf(cs[1..]);
      assert [Category(cs[0].name, cs[0].value)] + cs[1..] == cs;
    }
  }

  const SECTION_BREAK: string := "\n" + CATEGORY_HEADING + CATEGORY_COLUMNS

  /** Reads the blank line, the category headings and one line per category. */
  function ParseCategorySection(s: string): Option<seq<Category>>
  {
    if SECTION_BREAK <= s then ParseCategoryLines(s[|SECTION_BREAK|..]) else None
  }

  /** Reads the four summary lines in order, then the category section. */
  function ParseBody(s: string): Option<ReportContents>
  {
    match ParseSummaryLine("Total Events", s)
    case None => None
    case Some((events, s1)) =>
      match ParseSummaryLine("Total Registrations", s1)
      case None => None
      case Some((registrations, s2)) =>
        match ParseSummaryLine("Total Revenue", s2)
        case None => None
        case Some((revenue, s3)) =>
          match ParseSummaryLine("Active Users", s3)
          case None => None
          case Some((users, s4)) =>
            match ParseCategorySection(s4)
            case None => None
            case Some(cs) => Some(ReportContents(events, registrations, revenue, users, cs))
  }

  /** Reads a report: the fixed headings, then the body. */
  function ParseReport(s: string): Option<ReportContents>
  {
    var head := TITLE + SUMMARY_HEADING;
    if head <= s then ParseBody(s[|head|..]) else None
  }

  /** The keys of the summary lines hold neither a comma nor a line break. */
  lemma SummaryKeysPlain()
    ensures forall key :: key in SUMMARY_KEYS ==> ',' !in key && '\n' !in key
  {
  }

  lemma ParseSummaryLineOf(key: string, v: Option<int>, rest: string)
    requires key in SUMMARY_KEYS
    ensures ParseSummaryLine(key, SummaryLine(key, v) + rest) == Some((OrElse(v, 0), rest))
  {
    SummaryKeysPlain();
    ParseLineOf(key, OrElse(v, 0), rest);
  }

  /** The report after its fixed head, grouped so that the parser can take
      the lines off one by one. */
  function Body(a: Analytics): string
  {
    SummaryLine("Total Events", a.totalEvents) +
    (SummaryLine("Total Registrations", a.totalRegistrations) +
    (SummaryLine("Total Revenue", a.totalRevenue) +
    (SummaryLine("Active Users", a.activeUsers) +
    (SECTION_BREAK + CategoryLines(OrElse(a.categoryData, []))))))
  }

  /** A step of the round trip: the report is its fixed head followed by `Body`. */
  lemma ReportLayout(a: Analytics)
    ensures ReportText(Some(a)) == (TITLE + SUMMARY_HEADING) + Body(a)
  {
    var head := TITLE + SUMMARY_HEADING;
    var middle := "\n" + CATEGORY_HEADING + CATEGORY_COLUMNS;
    var cats := CategoryLines(OrElse(a.categoryData, []));
    var l1, l2 := SummaryLine("Total Events", a.totalEvents), SummaryLine("Total Registrations", a.totalRegistrations);
    var l3, l4 := SummaryLine("Total Revenue", a.totalRevenue), SummaryLine("Active Users", a.activeUsers);
    var y := head + l1 + l2 + l3 + l4;
    calc {
      ReportText(Some(a));
      y + "\n" + CATEGORY_HEADING + CATEGORY_COLUMNS + cats;
      { Assoc(y, "\n", CATEGORY_HEADING); Assoc(y, "\n" + CATEGORY_HEADING, CATEGORY_COLUMNS); }
      y + middle + cats;
      { Assoc(y, middle, cats); }
      head + l1 + l2 + l3 + l4 + (middle + cats);
      { Assoc(head + l1 + l2 + l3, l4, middle + cats); }
      head + l1 + l2 + l3 + (l4 + (middle + cats));
      { Assoc(head + l1 + l2, l3, l4 + (middle + cats)); }
      head + l1 + l2 + (l3 + (l4 + (middle + cats)));
      { Assoc(head + l1, l2, l3 + (l4 + (middle + cats))); }
      head + l1 + (l2 + (l3 + (l4 + (middle + cats))));
      { Assoc(head, l1, l2 + (l3 + (l4 + (middle + cats)))); }
      head + (l1 + (l2 + (l3 + (l4 + (middle + cats)))));
    }
  }

  lemma ParseCategorySectionOf(cs: seq<Category>)
    requires forall c :: c in cs ==> PlainName(c)
    ensures ParseCategorySection(SECTION_BREAK + CategoryLines(cs)) == Some(cs)
  {
    assert (SECTION_BREAK + CategoryLines(cs))[|SECTION_BREAK|..] == CategoryLines(cs);
    ParseCategoryLinesOf(cs);
  }

  lemma ParseBodyOf(a: Analytics)
    requires forall c :: c in OrElse(a.categoryData, []) ==> PlainName(c)
    ensures ParseBody(Body(a)) == Some(Contents(a))
  {
    var s4 := SECTION_BREAK + CategoryLines(OrElse(a.categoryData, []));
    var s3 := SummaryLine("Active Users", a.activeUsers) + s4;
    var s2 := SummaryLine("Total Revenue", a.totalRevenue) + s3;
    var s1 := SummaryLine("Total Registrations", a.totalRegistrations) + s2;
    ParseSummaryLineOf("Total Events", a.totalEvents, s1);
    ParseSummaryLineOf("Total Registrations", a.totalRegistrations, s2);
    ParseSummaryLineOf("Total Revenue", a.totalRevenue, s3);
    ParseSummaryLineOf("Active Users", a.activeUsers, s4);
    ParseCategorySectionOf(OrElse(a.categoryData, []));
  }

  /** Every report can be read back into the numbers and categories it was
      made from, provided no category name holds a comma or a line break
      (the export does not quote fields). */
  lemma ReportRoundTrip(a: Analytics)
    requires forall c :: c in OrElse(a.categoryData, []) ==> PlainName(c)
    ensures ParseReport(ReportText(Some(a))) == Some(Contents(a))
  {
    var head := TITLE + SUMMARY_HEADING;
    ReportLayout(a);
    assert ReportText(Some(a)) == head + Body(a);
    assert (head + Body(a))[|head|..] == Body(a);
    ParseBodyOf(a);
  }

  // ---------------------------------------------------------------------------
  // Top events and pie colours
  // ---------------------------------------------------------------------------

  const TOP_COUNT: nat := 5

  /** Pairs each entry with its rank, counting from `first`. */
  function Ranked<T>(xs: seq<T>, first: nat): (r: seq<(nat, T)>)
    ensures |r| == |xs|
    ensures forall i :: 0 <= i < |xs| ==> r[i] == (first + i, xs[i])
  {
    if xs == [] then [] else [(first, xs[0])] + Ranked(xs[1..], first + 1)
  }

  /** The top-events list: at most the first five entries, numbered 1, 2, … in input order. */
  function TopEventsShown(topEvents: Option<seq<TopEvent>>): (r: seq<(nat, TopEvent)>)
    ensures var xs := OrElse(topEvents, []);
      |r| == (if |xs| < TOP_COUNT then |xs| else TOP_COUNT) &&
      forall i :: 0 <= i < |r| ==> r[i] == (i + 1, xs[i])
  {
    var xs := OrElse(topEvents, []);
    Ranked(xs[..if |xs| < TOP_COUNT then |xs| else TOP_COUNT], 1)
  }

  const COLORS: seq<string> := ["#8B5CF6", "#EC4899", "#3B82F6", "#10B981", "#F59E0B", "#EF4444", "#6366F1", "#14B8A6"]

  /** The fill of pie slice `index`. */
  function SliceColor(index: nat): (c: string)
    ensures c in COLORS
  {
    COLORS[index % |COLORS|]
  }

  /** Two slices share a colour exactly when their positions agree modulo 8. */
  lemma SliceColorsRepeatEvery8(i: nat, j: nat)
    ensures SliceColor(i) == SliceColor(j) <==> i % 8 == j % 8
  {
  }
}
