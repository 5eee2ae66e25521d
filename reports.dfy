/** The reports page (`src/pages/Reports.tsx`): the report-type filter,
    `generateReport` stamping one report, and the type colour and format
    icon mappings. */
module Reports {
  import opened Seqs

  datatype ReportType = Performance | Financial | Operational
  datatype Frequency = Daily | Weekly | Monthly
  datatype Format = Pdf | Excel | Csv

  /** The string each report type has in the source, matched against the select. */
  function TypeKey(t: ReportType): string
  {
    match t
    case Performance => "performance"
    case Financial => "financial"
    case Operational => "operational"
  }

  datatype ReportCard = ReportCard(
    id: string,
    title: string,
    description: string,
    reportType: ReportType,
    lastGenerated: string,
    frequency: Frequency,
    format: Format)

  const AvailableReports: seq<ReportCard> := [
    ReportCard("RPT-001", "Agent Performance Report", "Individual agent metrics, call volumes, and success rates", Performance, "2024-01-15 09:00", Daily, Pdf),
    ReportCard("RPT-002", "Collections Summary", "Daily collections totals and payment arrangements", Financial, "2024-01-15 08:30", Daily, Excel),
    ReportCard("RPT-003", "Call Volume Analysis", "Hourly call patterns and queue performance", Operational, "2024-01-14 23:59", Daily, Pdf),
    ReportCard("RPT-004", "Weekly KPI Dashboard", "Comprehensive performance metrics and trends", Performance, "2024-01-14 18:00", Weekly, Pdf),
    ReportCard("RPT-005", "Account Status Report", "Portfolio overview with aging and disposition analysis", Financial, "2024-01-15 07:00", Daily, Excel),
    ReportCard("RPT-006", "3CX Integration Log", "System integration status and call routing metrics", Operational, "2024-01-15 08:00", Daily, Csv)
  ]

  predicate OfSelectedType(r: ReportCard, selectedType: string)
  {
    selectedType == "all" || TypeKey(r.reportType) == selectedType
  }

  /** `filteredReports` */
  function FilteredReports(reports: seq<ReportCard>, selectedType: string): (r: seq<ReportCard>)
    ensures |r| <= |reports|
    ensures forall x :: x in r <==> x in reports && (selectedType == "all" || TypeKey(x.reportType) == selectedType)
  {
    FilterMembershipAll(reports, x => OfSelectedType(x, selectedType));
    Filter(reports, x => OfSelectedType(x, selectedType))
  }

  /** "all" shows every report in order. */
  lemma AllTypesShowsEverything(reports: seq<ReportCard>)
    ensures FilteredReports(reports, "all") == reports
  {
    FilterAllPass(reports, x => OfSelectedType(x, "all"));
  }

  /** The filtered list is an order-preserving subsequence of the reports. */
  lemma FilteredReportsIsSubsequence(reports: seq<ReportCard>, selectedType: string)
    ensures exists idx :: EmbedsBy(FilteredReports(reports, selectedType), reports, idx)
  {
    var p := x => OfSelectedType(x, selectedType);
    FilterIsSubsequence(reports, p);
    assert EmbedsBy(FilteredReports(reports, selectedType), reports, KeptIndices(reports, p));
  }

  /** The "No Reports Found" card is shown when the filtered list is empty. */
  predicate ShowsNoReports(reports: seq<ReportCard>, selectedType: string)
  {
    |FilteredReports(reports, selectedType)| == 0
  }

  /** The card appears iff no report passes the type select: with "all" only
      for an empty list, otherwise when no report has the selected type. */
  lemma NoReportsIff(reports: seq<ReportCard>, selectedType: string)
    ensures ShowsNoReports(reports, selectedType) <==>
      forall k :: 0 <= k < |reports| ==> selectedType != "all" && TypeKey(reports[k].reportType) != selectedType
  {
    FilterEmptyIff(reports, x => OfSelectedType(x, selectedType));
  }

  /** Every type of the seed data has reports, so only an unknown type string
      shows the card there. */
  lemma SeedShowsNoReportsOnlyForUnknownType(selectedType: string)
    ensures ShowsNoReports(AvailableReports, selectedType) <==>
      selectedType !in {"all", "performance", "financial", "operational"}
  {
    NoReportsIff(AvailableReports, selectedType);
    assert TypeKey(AvailableReports[0].reportType) == "performance";
    assert TypeKey(AvailableReports[1].reportType) == "financial";
    assert TypeKey(AvailableReports[2].reportType) == "operational";
  }

  /** `generateReport(reportId)`; `now` stands for `new Date().toLocaleString()`. */
  function GenerateReport(reports: seq<ReportCard>, reportId: string, now: string): (r: seq<ReportCard>)
    ensures |r| == |reports|
    ensures forall k :: 0 <= k < |reports| && reports[k].id != reportId ==> r[k] == reports[k]
    ensures forall k :: 0 <= k < |reports| && reports[k].id == reportId ==>
      r[k].lastGenerated == now && r[k].(lastGenerated := reports[k].lastGenerated) == reports[k]
  {
    seq(|reports|, k requires 0 <= k < |reports| =>
      if reports[k].id == reportId then reports[k].(lastGenerated := now) else reports[k])
  }

  /** An id no report carries leaves the list unchanged. */
  lemma GenerateUnknownIdIsIdentity(reports: seq<ReportCard>, reportId: string, now: string)
    requires forall k :: 0 <= k < |reports| ==> reports[k].id != reportId
    ensures GenerateReport(reports, reportId, now) == reports
  {
  }

  /** Generating twice is the same as generating once with the later stamp. */
  lemma GenerateTwiceKeepsLatest(reports: seq<ReportCard>, reportId: string, t1: string, t2: string)
    ensures GenerateReport(GenerateReport(reports, reportId, t1), reportId, t2) == GenerateReport(reports, reportId, t2)
  {
  }

  /** Generating a report never moves it in or out of a type filter. */
  lemma {:induction false} GenerateKeepsFilter(reports: seq<ReportCard>, reportId: string, now: string, selectedType: string)
    ensures |FilteredReports(GenerateReport(reports, reportId, now), selectedType)| == |FilteredReports(reports, selectedType)|
    decreases |reports|
  {
    if reports != [] {
      GenerateKeepsFilter(reports[1..], reportId, now, selectedType);
      assert GenerateReport(reports, reportId, now)[1..] == GenerateReport(reports[1..], reportId, now);
    }
  }

  /** The string each format has in the source. */
  function FormatKey(f: Format): string
  {
    match f
    case Pdf => "pdf"
    case Excel => "excel"
    case Csv => "csv"
  }

  const DefaultTypeColor := "bg-muted/10 text-muted-foreground border-muted/20"

  /** `getTypeColor`, over the type string so that its default branch is kept. */
  function TypeColor(typeKey: string): (r: string)
    ensures r == DefaultTypeColor <==> typeKey !in {"performance", "financial", "operational"}
  {
    if typeKey == "performance" then "bg-accent/10 text-accent border-accent/20"
    else if typeKey == "financial" then "bg-success/10 text-success border-success/20"
    else if typeKey == "operational" then "bg-warning/10 text-warning border-warning/20"
    else DefaultTypeColor
  }

  /** `getFormatIcon`; an unknown format falls back to the document icon. */
  function FormatIcon(formatKey: string): (r: string)
    ensures r in {"📄", "📊", "📋"}
    ensures r == "📄" <==> formatKey !in {"excel", "csv"}
  {
    if formatKey == "pdf" then "📄"
    else if formatKey == "excel" then "📊"
    else if formatKey == "csv" then "📋"
    else "📄"
  }

  /** Every report type gets its own colour, never the fallback, and any
      other string gets the fallback. */
  lemma TypeColorDistinct(t1: ReportType, t2: ReportType, other: string)
    requires other !in {"performance", "financial", "operational"}
    ensures TypeColor(TypeKey(t1)) != DefaultTypeColor
    ensures TypeColor(TypeKey(t1)) == TypeColor(TypeKey(t2)) <==> t1 == t2
    ensures TypeColor(other) == DefaultTypeColor
  {
  }

  /** Every format gets its own icon; an unknown format shares the pdf icon. */
  lemma FormatIconDistinct(f1: Format, f2: Format, other: string)
    requires other !in {"pdf", "excel", "csv"}
    ensures FormatIcon(FormatKey(f1)) == FormatIcon(FormatKey(f2)) <==> f1 == f2
    ensures FormatIcon(other) == FormatIcon(FormatKey(Pdf))
  {
  }
}
