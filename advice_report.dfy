/**
 * The advisory-report review page: a list of AI-written reports that can be
 * narrowed by type and importance and reviewed (approved or rejected) one at
 * a time. Its `toggleFavorite` handler flips a report's favourite flag,
 * although no control on the page calls it.
 */
module AdviceReport {
  import opened Wrappers
  import opened Seqs

  /** A report's importance level, with the code the filter compares against. */
  datatype Importance = High | Medium | Low {
    function Code(): string {
      match this
      case High => "high"
      case Medium => "medium"
      case Low => "low"
    }
  }

  /** Review state: `待审核` (pending), `已审核` (approved), `已驳回` (rejected). */
  datatype ReviewStatus = Pending | Approved | Rejected

  /** The sentiment tag of a source message: `利好`, `利空` or `中性`. */
  datatype Sentiment = Bullish | Bearish | Neutral

  datatype OriginalMessage = OriginalMessage(
    id: string, title: string, content: string,
    sentiment: Sentiment, source: string, publishTime: string)

  /** One report; `kind` is the source's `type` field (a free string such as "crypto"). */
  datatype Report = Report(
    id: string, title: string, kind: string, date: string, summary: string,
    coreAdvice: string, isFavorite: bool, importance: Importance, author: string,
    status: ReviewStatus, originalMessages: seq<OriginalMessage>)

  /** The sentinel of both filter selects. */
  const All: string := "all"

  /** Number of filtered reports the list card shows. */
  const ListWindowSize: nat := 8

  /** Display label of a report type; unknown types read `其他`. */
  function TypeText(kind: string): (r: string)
    ensures kind == "crypto" ==> r == "加密货币"
    ensures kind == "macro" ==> r == "宏观经济"
    ensures kind == "market" ==> r == "市场展望"
    ensures kind == "industry" ==> r == "行业分析"
    ensures kind == "stock" ==> r == "个股推荐"
    ensures r == "其他" <==> kind !in ["crypto", "macro", "market", "industry", "stock"]
  {
    match kind
    case "crypto" => "加密货币"
    case "macro" => "宏观经济"
    case "market" => "市场展望"
    case "industry" => "行业分析"
    case "stock" => "个股推荐"
    case _ => "其他"
  }

  /** Display label of an importance level; every level has its own label. */
  function ImportanceText(level: Importance): (r: string)
    ensures r in ["重要", "一般", "参考"]
  {
    match level
    case High => "重要"
    case Medium => "一般"
    case Low => "参考"
  }

  /** No two importance levels share a label. */
  lemma ImportanceTextInjective(a: Importance, b: Importance)
    ensures ImportanceText(a) == ImportanceText(b) ==> a == b
  {
  }

  /** Both selects match: each either holds the sentinel or equals the report's value. */
  predicate MatchesFilters(report: Report, reportType: string, importance: string) {
    (reportType == All || report.kind == reportType) &&
    (importance == All || report.importance.Code() == importance)
  }

  function ReportFilter(reportType: string, importance: string): Report -> bool {
    report => MatchesFilters(report, reportType, importance)
  }

  /** `filteredReports`: the reports passing both selects, in list order. */
  function FilteredReports(reports: seq<Report>, reportType: string, importance: string): (r: seq<Report>)
    ensures forall i :: 0 <= i < |r| ==> MatchesFilters(r[i], reportType, importance) && r[i] in reports
    ensures forall i :: 0 <= i < |reports| && MatchesFilters(reports[i], reportType, importance) ==>
                        reports[i] in r
    ensures forall x :: multiset(r)[x] == if MatchesFilters(x, reportType, importance) then multiset(reports)[x] else 0
  {
    FilterCount(ReportFilter(reportType, importance), reports);
    Filter(ReportFilter(reportType, importance), reports)
  }

  /** The filtered list keeps the original order of the reports it keeps. */
  lemma FilteredReportsIsSubsequence(reports: seq<Report>, reportType: string, importance: string)
    ensures IsSubsequence(FilteredReports(reports, reportType, importance), reports)
  {
    FilterIsSubsequence(ReportFilter(reportType, importance), reports);
  }

  /** With both selects on `all` nothing is filtered out. */
  lemma FilteredReportsAllIsIdentity(reports: seq<Report>)
    ensures FilteredReports(reports, All, All) == reports
  {
    FilterKeepsAll(ReportFilter(All, All), reports);
  }

  /** `filteredReports.slice(0, 8)`: the reports the list card renders. */
  function VisibleReports(reports: seq<Report>, reportType: string, importance: string): (r: seq<Report>)
    ensures var f := FilteredReports(reports, reportType, importance);
            r <= f && |r| == if |f| < ListWindowSize then |f| else ListWindowSize
  {
    var f := FilteredReports(reports, reportType, importance);
    if |f| <= ListWindowSize then f else f[..ListWindowSize]
  }

  /** `toggleFavorite(id)`: flip `isFavorite` on the reports with that id. */
  function FavoriteToggled(reports: seq<Report>, id: string): (r: seq<Report>)
    ensures |r| == |reports|
    ensures forall i :: 0 <= i < |r| ==>
              r[i].isFavorite == (if reports[i].id == id then !reports[i].isFavorite else reports[i].isFavorite) &&
              r[i].(isFavorite := reports[i].isFavorite) == reports[i]
  {
    if reports == [] then []
    else
      var head := reports[0];
      [if head.id == id then head.(isFavorite := !head.isFavorite) else head] + FavoriteToggled(reports[1..], id)
  }

  /** Toggling the same id twice restores the list. */
  lemma {:induction false} FavoriteToggledTwice(reports: seq<Report>, id: string)
    ensures FavoriteToggled(FavoriteToggled(reports, id), id) == reports
  {
    if reports != [] {
      FavoriteToggledTwice(reports[1..], id);
      assert [reports[0]] + reports[1..] == reports;
    }
  }

  /** The `reports` update of `handleApprove`/`handleReject`: set `status` on the reports with that id. */
  function SetStatus(reports: seq<Report>, id: string, status: ReviewStatus): (r: seq<Report>)
    ensures |r| == |reports|
    ensures forall i :: 0 <= i < |r| ==>
              r[i].status == (if reports[i].id == id then status else reports[i].status) &&
              r[i].(status := reports[i].status) == reports[i]
  {
    if reports == [] then []
    else
      var head := reports[0];
      [if head.id == id then head.(status := status) else head] + SetStatus(reports[1..], id, status)
  }

  /** Reviewing is idempotent: setting the same status on the same id twice is setting it once. */
  lemma {:induction false} SetStatusIdempotent(reports: seq<Report>, id: string, status: ReviewStatus)
    ensures SetStatus(SetStatus(reports, id, status), id, status) == SetStatus(reports, id, status)
  {
    if reports != [] {
      SetStatusIdempotent(reports[1..], id, status);
    }
  }

  /** Approve/reject are enabled only while a pending report is selected. */
  predicate ReviewEnabled(selected: Option<Report>) {
    selected.Some? && selected.value.status == Pending
  }

  /** The selected report's status agrees with every list entry that has its id. */
  predicate SelectionInSync(reports: seq<Report>, selected: Option<Report>) {
    selected.Some? ==>
      forall i :: 0 <= i < |reports| && reports[i].id == selected.value.id ==>
        reports[i].status == selected.value.status
  }

  /** No two reports share an id. */
  predicate UniqueIds(reports: seq<Report>) {
    forall i, j :: 0 <= i < j < |reports| ==> reports[i].id != reports[j].id
  }

  /** Setting a status keeps every id in its place. */
  lemma SetStatusKeepsIds(reports: seq<Report>, id: string, status: ReviewStatus)
    ensures UniqueIds(reports) ==> UniqueIds(SetStatus(reports, id, status))
  {
    var r := SetStatus(reports, id, status);
    assert forall i :: 0 <= i < |r| ==> r[i].id == reports[i].id by {
      forall i | 0 <= i < |r| ensures r[i].id == reports[i].id {
        assert r[i].(status := reports[i].status) == reports[i];
      }
    }
  }

  /**
   * Through the gate, a review overwrites only pending reports: when the
   * selection is pending and in sync with the list, every approved or
   * rejected report keeps its status and its fields.
   */
  lemma GatedReviewKeepsSettled(reports: seq<Report>, selected: Report, status: ReviewStatus)
    requires ReviewEnabled(Some(selected)) && SelectionInSync(reports, Some(selected))
    ensures forall i :: 0 <= i < |reports| && reports[i].status != Pending ==>
              SetStatus(reports, selected.id, status)[i] == reports[i]
  {
    var r := SetStatus(reports, selected.id, status);
    forall i | 0 <= i < |reports| && reports[i].status != Pending ensures r[i] == reports[i] {
      assert reports[i].id != selected.id;
      assert r[i].(status := reports[i].status) == reports[i];
    }
  }

  /** The page's state: the report list, the selection and the two select values. */
  class ReportReviewPage {
    var reports: seq<Report>
    var selectedReport: Option<Report>
    var reportType: string
    var importance: string
    /** Set by the date picker and never read. */
    var dateRange: seq<string>

    constructor (initial: seq<Report>)
      ensures reports == initial && selectedReport == None
      ensures reportType == All && importance == All && dateRange == []
    {
      reports := initial;
      selectedReport := None;
      reportType := All;
      importance := All;
      dateRange := [];
    }

    /** What the list card shows. */
    function ListView(): (r: seq<Report>)
      reads this
      ensures r == VisibleReports(reports, reportType, importance)
      ensures r <= FilteredReports(reports, reportType, importance)
    {
      VisibleReports(reports, reportType, importance)
    }

    method SetReportType(value: string)
      modifies this`reportType
      ensures reportType == value
    {
      reportType := value;
    }

    method SetImportance(value: string)
      modifies this`importance
      ensures importance == value
    {
      importance := value;
    }

    method SetDateRange(value: seq<string>)
      modifies this`dateRange
      ensures dateRange == value
    {
      dateRange := value;
    }

    /** Clicking a card in the list selects that report (a copy of it). */
    method SelectReport(report: Report)
      requires report in ListView()
      modifies this`selectedReport
      ensures selectedReport == Some(report)
      ensures UniqueIds(reports) ==> SelectionInSync(reports, selectedReport)
    {
      selectedReport := Some(report);
      assert report in reports by {
        var f := FilteredReports(reports, reportType, importance);
        var shown := ListView();
        var k :| 0 <= k < |shown| && shown[k] == report;
        assert shown == f[..|shown|];
        assert f[k] == report;
      }
    }

    /** `toggleFavorite`, which no control on the page calls; the selected copy is not refreshed. */
    method ToggleFavorite(id: string)
      modifies this`reports
      ensures reports == FavoriteToggled(old(reports), id)
      ensures SelectionInSync(old(reports), selectedReport) ==> SelectionInSync(reports, selectedReport)
      ensures old(UniqueIds(reports)) ==> UniqueIds(reports)
    {
      reports := FavoriteToggled(reports, id);
    }

    /** `handleApprove`: it acts whenever a report is selected (the button's gate is `ReviewEnabled`). */
    method Approve()
      modifies this`reports, this`selectedReport
      ensures old(selectedReport).None? ==> reports == old(reports) && selectedReport == None
      ensures old(selectedReport).Some? ==>
                reports == SetStatus(old(reports), old(selectedReport).value.id, Approved) &&
                selectedReport == Some(old(selectedReport).value.(status := Approved))
      ensures old(selectedReport).Some? ==> SelectionInSync(reports, selectedReport) && !ReviewEnabled(selectedReport)
      ensures old(ReviewEnabled(selectedReport) && SelectionInSync(reports, selectedReport)) ==>
                |reports| == |old(reports)| &&
                forall i :: 0 <= i < |reports| && old(reports)[i].status != Pending ==> reports[i] == old(reports)[i]
      ensures old(UniqueIds(reports)) ==> UniqueIds(reports)
    {
      if selectedReport.Some? {
        var id := selectedReport.value.id;
        if ReviewEnabled(selectedReport) && SelectionInSync(reports, selectedReport) {
          GatedReviewKeepsSettled(reports, selectedReport.value, Approved);
        }
        SetStatusKeepsIds(reports, id, Approved);
        reports := SetStatus(reports, id, Approved);
        selectedReport := Some(selectedReport.value.(status := Approved));
      }
    }

    /** `handleReject`: it acts whenever a report is selected (the button's gate is `ReviewEnabled`). */
    method Reject()
      modifies this`reports, this`selectedReport
      ensures old(selectedReport).None? ==> reports == old(reports) && selectedReport == None
      ensures old(selectedReport).Some? ==>
                reports == SetStatus(old(reports), old(selectedReport).value.id, Rejected) &&
                selectedReport == Some(old(selectedReport).value.(status := Rejected))
      ensures old(selectedReport).Some? ==> SelectionInSync(reports, selectedReport) && !ReviewEnabled(selectedReport)
      ensures old(ReviewEnabled(selectedReport) && SelectionInSync(reports, selectedReport)) ==>
                |reports| == |old(reports)| &&
                forall i :: 0 <= i < |reports| && old(reports)[i].status != Pending ==> reports[i] == old(reports)[i]
      ensures old(UniqueIds(reports)) ==> UniqueIds(reports)
    {
      if selectedReport.Some? {
        var id := selectedReport.value.id;
        if ReviewEnabled(selectedReport) && SelectionInSync(reports, selectedReport) {
          GatedReviewKeepsSettled(reports, selectedReport.value, Rejected);
        }
        SetStatusKeepsIds(reports, id, Rejected);
        reports := SetStatus(reports, id, Rejected);
        selectedReport := Some(selectedReport.value.(status := Rejected));
      }
    }
  }

  /**
   * The review machine as a gated step: a pending report moves to the verdict's
   * status; approved and rejected reports have no enabled step.
   */
  function ReviewStep(status: ReviewStatus, approve: bool): (r: Option<ReviewStatus>)
    ensures r.Some? <==> status == Pending
    ensures r.Some? ==> r.value != Pending && (r.value == Approved <==> approve)
  {
    if status == Pending then Some(if approve then Approved else Rejected)
    else None
  }

  /** The buttons' gate on a selected report is exactly the review machine's enabled step. */
  lemma GateIsStep(s: Option<Report>, approve: bool)
    requires s.Some?
    ensures ReviewEnabled(s) <==> ReviewStep(s.value.status, approve).Some?
  {
  }

  /** After one review step no further step is enabled. */
  lemma ReviewIsFinal(status: ReviewStatus, first: bool, second: bool)
    requires ReviewStep(status, first).Some?
    ensures ReviewStep(ReviewStep(status, first).value, second).None?
  {
  }
}
