/**
  The demonstration routes the two built-in tools and the agent-message
  demo call: the sample-data catalogue with its category filter and
  title, and the in-memory report store whose records move from
  `processing` to `completed`.

  The completion timer is an explicit step, `Complete`; the clock and
  `Math.random()` are parameters. The `/api/time` route formats dates
  with time zones and is not part of this model.
 */
module ExampleRoutes {
  import opened Values
  import opened Text

  // ---------------------------------------------------------------------
  // Sample data

  datatype SampleItem = SampleItem(id: string, name: string, category: string,
                                   description: string, value: string, metadata: string)

  const AllItems: seq<SampleItem> := [
    SampleItem("1", "Introduction to React", "books",
               "A comprehensive guide to building modern web applications with React.",
               "$29.99", "Publisher: Tech Books Inc. | Pages: 450"),
    SampleItem("2", "Node.js Best Practices", "books",
               "Learn industry-standard patterns and practices for Node.js development.",
               "$34.99", "Publisher: Dev Press | Pages: 380"),
    SampleItem("3", "Cloud Computing Essentials", "books",
               "Master cloud infrastructure, deployment, and scaling strategies.",
               "$39.99", "Publisher: Cloud Masters | Pages: 520")]

  /**
    `req.query.category`: absent, one string, or the array or object the
    query parser builds from a repeated or bracketed key.
   */
  datatype QueryParam = Absent | Single(text: string) | Structured

  datatype SampleReply = SampleData(title: string, items: seq<SampleItem>) | SampleFailed(status: int, error: string)

  const SampleDataError: string := "Failed to get sample data"
  const AllItemsTitle: string := "All Items"

  /** The items whose category equals `category` ignoring case, in order. */
  function InCategory(items: seq<SampleItem>, category: string): seq<SampleItem>
    decreases |items|
  {
    if items == [] then []
    else (if ToLower(items[0].category) == ToLower(category) then [items[0]] else [])
         + InCategory(items[1..], category)
  }

  /** `category.charAt(0).toUpperCase() + category.slice(1)` */
  function CategoryTitle(category: string): (t: string)
    ensures |t| == |category|
    ensures category != "" ==> t[0] == UpperChar(category[0]) && t[1..] == category[1..]
  {
    if category == "" then "" else ToUpper([category[0]]) + category[1..]
  }

  /**
    `GET /api/sample-data`. Without a category (or with an empty one) it
    lists everything; a structured category has no `toLowerCase`, so the
    filter throws and the route answers 500.
   */
  function SampleDataRoute(category: QueryParam): (r: SampleReply)
    ensures r.SampleFailed? <==> category.Structured?
    ensures r.SampleFailed? ==> r.status == 500 && r.error == SampleDataError
    ensures r.SampleData? ==> forall x :: x in r.items ==> x in AllItems
    ensures category.Single? && category.text != "" ==>
              r.SampleData? && forall x :: x in r.items ==> ToLower(x.category) == ToLower(category.text)
  {
    match category
    case Absent => SampleData(AllItemsTitle, AllItems)
    case Structured => SampleFailed(500, SampleDataError)
    case Single(c) =>
      if c == "" then SampleData(AllItemsTitle, AllItems)
      else
        InCategoryIsFilter(AllItems, [], c);
        SampleData(CategoryTitle(c), InCategory(AllItems, c))
  }

  /** The filter keeps exactly the items of the category, ignoring case, and keeps their order. */
  lemma {:induction false} InCategoryIsFilter(items: seq<SampleItem>, more: seq<SampleItem>, category: string)
    ensures InCategory(items + more, category) == InCategory(items, category) + InCategory(more, category)
    ensures forall x :: x in InCategory(items, category) <==> x in items && ToLower(x.category) == ToLower(category)
    decreases |items|
  {
    if items == [] {
      assert items + more == more;
    } else {
      assert (items + more)[1..] == items[1..] + more;
      InCategoryIsFilter(items[1..], more, category);
      assert items == [items[0]] + items[1..];
    }
  }

  /** Categories that differ only in letter case select the same items. */
  lemma {:induction false} CategoryCaseInsensitive(items: seq<SampleItem>, a: string, b: string)
    requires ToLower(a) == ToLower(b)
    ensures InCategory(items, a) == InCategory(items, b)
    decreases |items|
  {
    if items != [] {
      CategoryCaseInsensitive(items[1..], a, b);
    }
  }

  /** The route's answer for a non-empty category: the category's title and the matching items. */
  lemma SampleDataForCategory(c: string)
    requires c != ""
    ensures var r := SampleDataRoute(Single(c));
            && r.SampleData?
            && |r.title| == |c| && r.title[0] == UpperChar(c[0]) && r.title[1..] == c[1..]
            && forall x :: x in r.items <==> x in AllItems && ToLower(x.category) == ToLower(c)
  {
    InCategoryIsFilter(AllItems, [], c);
  }

  /** Every sample item is a book. */
  lemma AllItemsAreBooks()
    ensures InCategory(AllItems, "books") == AllItems
  {
    assert ToLower("books") == "books";
    assert AllItems[1..][1..][1..] == [];
  }

  /** The tool's usual query: every book, under the title "Books"; "BOOKS" selects the same items under its own title. */
  lemma BooksQuery()
    ensures SampleDataRoute(Single("books")) == SampleData("Books", AllItems)
    ensures SampleDataRoute(Single("BOOKS")) == SampleData("BOOKS", AllItems)
  {
    AllItemsAreBooks();
    assert SampleDataRoute(Single("books")) == SampleData("Books", AllItems) by {
      assert ToUpper(['b']) == ['B'];
    }
    assert SampleDataRoute(Single("BOOKS")) == SampleData("BOOKS", AllItems) by {
      assert ToLower("BOOKS") == ToLower("books");
      CategoryCaseInsensitive(AllItems, "BOOKS", "books");
      assert ToUpper(['B']) == ['B'];
    }
  }

  /** A category no item has gives an empty list under its own title; an empty category lists everything, as an absent one does. */
  lemma OtherQueries()
    ensures SampleDataRoute(Single("movies")) == SampleData("Movies", [])
    ensures SampleDataRoute(Absent) == SampleDataRoute(Single(""))
  {
    assert InCategory(AllItems, "movies") == [] by {
      assert ToLower("movies")[0] == 'm';
      assert AllItems[1..][1..][1..] == [];
    }
    assert ToUpper(['m']) == ['M'];
  }

  // ---------------------------------------------------------------------
  // Reports

  /** A completed report's payload; its random metrics are not part of this model. */
  datatype ReportData = ReportData(summary: string, period: string)

  datatype Report = Report(id: string, reportType: Value, status: string, createdAt: string,
                           completedAt: Option<string>, data: Option<ReportData>)

  datatype GenerateReply = GenerateReply(reportId: string, status: string, estimatedTime: string)

  datatype StatusReply = ReportNotFound(status: int, error: string) | ReportFound(report: Report)

  const Processing: string := "processing"
  const Completed: string := "completed"
  const ReportPeriod: string := "Last 30 days"

  /** `report_${Date.now()}` */
  function ReportId(now: nat): string {
    "report_" + DecimalText(now)
  }

  /** `const { reportType = 'usage' } = req.body`: the default applies only when the property is `undefined`. */
  function ReportTypeOf(body: Value): Value {
    Default(Prop(body, "reportType"), Str("usage"))
  }

  /** `Math.ceil(processingTime / 1000)` for `processingTime = 3000 + random * 2000`. */
  function EstimatedSeconds(random: real): (n: int)
    requires 0.0 <= random < 1.0
    ensures 3 <= n <= 5
    ensures (n - 1) as real < (3000.0 + random * 2000.0) / 1000.0 <= n as real
  {
    var t := (3000.0 + random * 2000.0) / 1000.0;
    if t.Floor as real == t then t.Floor else t.Floor + 1
  }

  function NewReport(id: string, reportType: Value, createdAt: string): Report {
    Report(id, reportType, Processing, createdAt, None, None)
  }

  /** The summary line: `Usage` for the usage type, `Performance` for any other. */
  function Summary(reportType: Value, date: string): string {
    (if reportType == Str("usage") then "Usage" else "Performance") + " Report - " + date
  }

  /** What the completion callback makes of a stored record. */
  function CompletedReport(r: Report, reportType: Value, completedAt: string, date: string): Report {
    r.(status := Completed, completedAt := Some(completedAt), data := Some(ReportData(Summary(reportType, date), ReportPeriod)))
  }

  /** The store after `POST /api/reports/generate`. */
  function AfterGenerate(m: map<string, Report>, id: string, reportType: Value, createdAt: string): map<string, Report> {
    m[id := NewReport(id, reportType, createdAt)]
  }

  /** The store after the completion callback for `id`; nothing happens when the record is gone. */
  function AfterComplete(m: map<string, Report>, id: string, reportType: Value, completedAt: string, date: string): map<string, Report> {
    if id in m then m[id := CompletedReport(m[id], reportType, completedAt, date)] else m
  }

  /** `GET /api/reports/status/:reportId` */
  function StatusIn(m: map<string, Report>, id: string): (r: StatusReply)
    ensures r.ReportNotFound? <==> id !in m
    ensures r.ReportNotFound? ==> r == ReportNotFound(404, "Report not found")
    ensures r.ReportFound? ==> r.report == m[id]
  {
    if id in m then ReportFound(m[id]) else ReportNotFound(404, "Report not found")
  }

  /** A record is processing with no result, or completed with its completion time and data. */
  predicate WellFormed(id: string, r: Report) {
    && r.id == id
    && (|| (r.status == Processing && r.completedAt.None? && r.data.None?)
        || (r.status == Completed && r.completedAt.Some? && r.data.Some?))
  }

  predicate StoreWellFormed(m: map<string, Report>) {
    forall id :: id in m ==> WellFormed(id, m[id])
  }

  lemma TransitionsKeepWellFormed(m: map<string, Report>, id: string, reportType: Value, at: string, date: string)
    requires StoreWellFormed(m)
    ensures StoreWellFormed(AfterGenerate(m, id, reportType, at))
    ensures StoreWellFormed(AfterComplete(m, id, reportType, at, date))
  {
  }

  /**
    A generated report is reported as processing, then, once its callback
    has run, as completed with the same id, type and creation time, and a
    summary naming the usage or performance kind.
   */
  lemma ReportLifecycle(m: map<string, Report>, now: nat, body: Value, createdAt: string, completedAt: string, date: string)
    ensures var id := ReportId(now);
            var t := ReportTypeOf(body);
            var m1 := AfterGenerate(m, id, t, createdAt);
            var m2 := AfterComplete(m1, id, t, completedAt, date);
            && StatusIn(m1, id) == ReportFound(Report(id, t, Processing, createdAt, None, None))
            && StatusIn(m2, id).ReportFound?
            && var r := StatusIn(m2, id).report;
               && r.id == id && r.reportType == t && r.createdAt == createdAt
               && r.status == Completed && r.completedAt == Some(completedAt)
               && r.data == Some(ReportData(Summary(t, date), ReportPeriod))
               && (Prop(body, "reportType").Undefined? ==> r.data.value.summary == "Usage Report - " + date)
  {
  }

  /** Completion never undoes itself: a completed record stays completed under every later step except a new record with its id. */
  lemma CompletedStaysCompleted(m: map<string, Report>, id: string, other: string, reportType: Value, at: string, date: string)
    requires id in m && m[id].status == Completed
    ensures AfterComplete(m, other, reportType, at, date)[id].status == Completed
    ensures other != id ==> AfterGenerate(m, other, reportType, at)[id] == m[id]
  {
  }

  /** The module-level `reports` map. */
  class ReportStore {
    var reports: map<string, Report>

    ghost predicate Valid()
      reads this
    {
      StoreWellFormed(reports)
    }

    constructor ()
      ensures Valid() && reports == map[]
    {
      reports := map[];
    }

    /**
      `POST /api/reports/generate`. A `null` or `undefined` body cannot be
      destructured: the handler throws before storing anything.
     */
    method Generate(body: Value, now: nat, createdAt: string, random: real) returns (reply: Option<GenerateReply>)
      requires 0.0 <= random < 1.0
      requires Valid()
      modifies this
      ensures Valid()
      ensures Nullish(body) ==> reply.None? && reports == old(reports)
      ensures !Nullish(body) ==>
                && reports == AfterGenerate(old(reports), ReportId(now), ReportTypeOf(body), createdAt)
                && reply == Some(GenerateReply(ReportId(now), Processing, DecimalText(EstimatedSeconds(random)) + " seconds"))
    {
      if Nullish(body) {
        return None;
      }
      var reportId := ReportId(now);
      var reportType := ReportTypeOf(body);
      reports := reports[reportId := NewReport(reportId, reportType, createdAt)];
      var processingSeconds := EstimatedSeconds(random);
      reply := Some(GenerateReply(reportId, Processing, DecimalText(processingSeconds) + " seconds"));
    }

    /** The completion callback, with the report type its closure captured. */
    method Complete(reportId: string, reportType: Value, completedAt: string, date: string)
      requires Valid()
      modifies this
      ensures Valid()
      ensures reports == AfterComplete(old(reports), reportId, reportType, completedAt, date)
    {
      if reportId in reports {
        var report := reports[reportId];
        reports := reports[reportId := CompletedReport(report, reportType, completedAt, date)];
      }
    }

    /** `GET /api/reports/status/:reportId` */
    function Status(reportId: string): (r: StatusReply)
      reads this
      ensures r.ReportNotFound? <==> reportId !in reports
      ensures r.ReportFound? ==> r.report == reports[reportId]
    {
      StatusIn(reports, reportId)
    }
  }
}
