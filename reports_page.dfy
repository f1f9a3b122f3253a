/** The reports page (src/pages/ReportsPage.js): fetched reports normalised
    to a list and shown as a table with fallbacks for missing cells. */
module Reports {
  import opened Outcomes
  import opened JsValue

  const NotAvailable := Str("N/A")
  const NoData := Str("No data available")

  /** `Array.isArray(r) ? r : [r]` */
  function Normalize(response: Value): (reports: seq<Value>)
    ensures response.Arr? ==> reports == response.items
    ensures !response.Arr? ==> reports == [response]
  {
    if response.Arr? then response.items else [response]
  }

  /** Normalising a list that was already normalised changes nothing. */
  lemma NormalizeIdempotent(response: Value)
    ensures Normalize(Arr(Normalize(response))) == Normalize(response)
  {
  }


  /** One table row: the cells shown for a report, or the single
      placeholder row of an empty list. */
  datatype ReportRow =
    | ReportRow(reportId: Value, kind: Value, date: Value, data: Value)
    | NoReportsRow

  /** The cells of one report row: each property, or its fallback text when
      the property is falsy. */
  function RenderRow(report: Value): (row: ReportRow)
    ensures row.ReportRow?
    ensures row.reportId == (if Truthy(Prop(report, "report_id")) then Prop(report, "report_id") else NotAvailable)
    ensures row.kind == (if Truthy(Prop(report, "type")) then Prop(report, "type") else NotAvailable)
    ensures row.date == (if Truthy(Prop(report, "date")) then Prop(report, "date") else NotAvailable)
    ensures row.data == (if Truthy(Prop(report, "data")) then Prop(report, "data") else NoData)
  {
    ReportRow(Or(Prop(report, "report_id"), NotAvailable), Or(Prop(report, "type"), NotAvailable),
              Or(Prop(report, "date"), NotAvailable), Or(Prop(report, "data"), NoData))
  }

  /** React can show every cell of the row: a cell holding an object (a
      report whose `data` is a record, say) makes rendering throw. */
  predicate CellsRender(row: ReportRow) {
    row.ReportRow? ==> ValidChild(row.reportId) && ValidChild(row.kind) && ValidChild(row.date) && ValidChild(row.data)
  }

  /** A report can be rendered: it can be read, and each of its cells shown. */
  predicate Renders(report: Value) {
    !Nullish(report) && CellsRender(RenderRow(report))
  }

  /** The table body: the placeholder row for an empty list, otherwise one
      row per report in order; a nullish report, or a cell holding an object,
      makes rendering throw. */
  function RenderRows(reports: seq<Value>): (rows: Option<seq<ReportRow>>)
    ensures reports == [] ==> rows == Some([NoReportsRow])
    ensures reports != [] ==> (rows.Some? <==> forall i :: 0 <= i < |reports| ==> Renders(reports[i]))
    ensures reports != [] && rows.Some? ==>
              |rows.value| == |reports| && forall i :: 0 <= i < |reports| ==> rows.value[i] == RenderRow(reports[i])
  {
    if reports == [] then Some([NoReportsRow])
    else if forall i :: 0 <= i < |reports| ==> Renders(reports[i]) then
      Some(seq(|reports|, i requires 0 <= i < |reports| => RenderRow(reports[i])))
    else None
  }

  /** Every shown cell is non-blank: a falsy property is replaced by its
      truthy fallback. */
  lemma {:induction false} CellsAreTruthy(reports: seq<Value>)
    requires RenderRows(reports).Some? && reports != []
    ensures forall i :: 0 <= i < |reports| ==>
              var row := RenderRows(reports).value[i];
              Truthy(row.reportId) && Truthy(row.kind) && Truthy(row.date) && Truthy(row.data)
  {
    forall i | 0 <= i < |reports|
      ensures var row := RenderRows(reports).value[i];
              Truthy(row.reportId) && Truthy(row.kind) && Truthy(row.date) && Truthy(row.data)
    {
      assert RenderRows(reports).value[i] == RenderRow(reports[i]);
    }
  }

  /** A single report object fetched on its own renders as exactly one row
      when its cells can be shown, and makes the page throw otherwise. */
  lemma SingleReportOneRow(report: Value)
    requires report.Obj?
    ensures RenderRows(Normalize(report)) == if CellsRender(RenderRow(report)) then Some([RenderRow(report)]) else None
  {
    assert Normalize(report) == [report];
    var rows := RenderRows([report]);
    if CellsRender(RenderRow(report)) {
      assert rows.Some?;
      assert |rows.value| == 1 && rows.value[0] == RenderRow(report);
      assert rows.value == [RenderRow(report)];
    } else {
      assert !Renders([report][0]);
    }
  }

  /** A report whose `data` is a record cannot be shown. */
  lemma ObjectDataThrows()
    ensures RenderRows([Obj([("data", Obj([("sold", Num(5))]))])]).None?
    ensures Render(false, [Obj([("data", Obj([("sold", Num(5))]))])]).None?
  {
    var report := Obj([("data", Obj([("sold", Num(5))]))]);
    assert Prop(report, "data") == Obj([("sold", Num(5))]);
    assert !Renders([report][0]);
  }

  /** The placeholder row is shown exactly when the response is an empty
      list: any other response is normalised to at least one report, whose
      row is a report row (or whose rendering throws). */
  lemma PlaceholderOnlyForEmptyList(response: Value)
    ensures RenderRows(Normalize(response)) == Some([NoReportsRow]) <==> response == Arr([])
  {
    var reports := Normalize(response);
    if reports != [] {
      var rows := RenderRows(reports);
      if rows.Some? {
        assert rows.value[0] == RenderRow(reports[0]);
      }
    }
  }

  /** What the page shows: a loading message, or the table. */
  datatype View = LoadingView | TableView(rows: seq<ReportRow>)

  function Render(loading: bool, reports: seq<Value>): (v: Option<View>)
    ensures loading ==> v == Some(LoadingView)
    ensures !loading ==> v == (if RenderRows(reports).Some? then Some(TableView(RenderRows(reports).value)) else None)
  {
    if loading then Some(LoadingView)
    else match RenderRows(reports)
      case Some(rows) => Some(TableView(rows))
      case None => None
  }

  class ReportsPage {
    var reports: seq<Value>
    var loading: bool

    constructor ()
      ensures reports == [] && loading
    {
      reports := [];
      loading := true;
    }

    /** The mount effect: the normalised response on success, the reports
        kept on a failed fetch; loading stops either way. */
    method LoadReports(fetched: Outcome<Value>)
      modifies this
      ensures reports == if fetched.Ok? then Normalize(fetched.value) else old(reports)
      ensures !loading
    {
      if fetched.Ok? {
        reports := Normalize(fetched.value);
      }
      loading := false;
    }
  }

  /** From the initial state, a failed fetch leaves the page showing the
      single "No reports found" row. */
  method LoadFailureShowsPlaceholder() returns (view: Option<View>)
    ensures view == Some(TableView([NoReportsRow]))
  {
    var page := new ReportsPage();
    page.LoadReports(Failed);
    view := Render(page.loading, page.reports);
  }
}
