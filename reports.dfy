/** src/app/services/report.service.ts: the report catalogue as lookup tables keyed by the
    report-type string: which endpoint produces the PDF, which filters a report takes, the
    file name of the download and the preview endpoint. Unknown keys throw. */
module Reports {
  import opened Wrappers

  /** The six report types the tables list. */
  datatype ReportType = LoansByPeriod | MostRequested | ActiveLoans | LowStock | Movements | NotReturned

  /** The key each table uses for a report type. */
  function ReportKey(t: ReportType): string
  {
    match t
    case LoansByPeriod => "loans-by-period"
    case MostRequested => "most-requested"
    case ActiveLoans => "active-loans"
    case LowStock => "low-stock"
    case Movements => "movements"
    case NotReturned => "not-returned"
  }

  /** Looking a key up in any of the tables: `Some` exactly for the six keys. */
  function ReportOf(key: string): (r: Option<ReportType>)
    ensures r.Some? ==> ReportKey(r.value) == key
  {
    if key == "loans-by-period" then Some(LoansByPeriod)
    else if key == "most-requested" then Some(MostRequested)
    else if key == "active-loans" then Some(ActiveLoans)
    else if key == "low-stock" then Some(LowStock)
    else if key == "movements" then Some(Movements)
    else if key == "not-returned" then Some(NotReturned)
    else None
  }

  /** Every report type is found under its own key, so the six keys are distinct. */
  lemma ReportOfKey(t: ReportType)
    ensures ReportOf(ReportKey(t)) == Some(t)
  {
    match t
    case LoansByPeriod =>
    case MostRequested =>
      assert ReportKey(t)[0] == 'm';
    case ActiveLoans =>
      assert ReportKey(t)[0] == 'a';
    case LowStock =>
      assert |ReportKey(t)| == 9 && ReportKey(t)[0] == 'l';
    case Movements =>
      assert |ReportKey(t)| == 9 && ReportKey(t)[0] == 'm';
    case NotReturned =>
      assert |ReportKey(t)| == 12 && ReportKey(t)[0] == 'n';
  }

  /** A key is known exactly when it is one of the six report keys. */
  lemma ReportOfKnown(key: string)
    ensures ReportOf(key).Some? <==> exists t :: ReportKey(t) == key
  {
    if exists t :: ReportKey(t) == key {
      var t :| ReportKey(t) == key;
      ReportOfKey(t);
    }
  }

  /** What a service call produces: a value, or an `Error` thrown with a message. */
  datatype Outcome<T> = Returned(value: T) | Raised(message: string)

  const InvalidReportMessage := "Tipo de reporte no válido"

  /** A GET on `${environment.apiUrl}/reports/<path>`, with the filters as query parameters;
      `blob` when the response is read as a file. */
  datatype ReportRequest = ReportRequest(path: string, params: map<string, string>, blob: bool)

  /** The endpoint each `get...Report` method uses. */
  function DownloadPath(t: ReportType): string
  {
    match t
    case LoansByPeriod => "loans-by-period"
    case MostRequested => "most-requested-components"
    case ActiveLoans => "active-loans"
    case LowStock => "low-stock"
    case Movements => "component-movements"
    case NotReturned => "not-returned"
  }

  /** `generateReport`: the known keys dispatch to their PDF endpoint; any other key throws. */
  function GenerateReport(key: string, filters: map<string, string>): (r: Outcome<ReportRequest>)
    ensures r.Raised? <==> ReportOf(key).None?
    ensures r.Raised? ==> r.message == InvalidReportMessage
    ensures r.Returned? ==> r.value.blob && r.value.params == filters && r.value.path == DownloadPath(ReportOf(key).value)
  {
    match ReportOf(key)
    case None => Raised(InvalidReportMessage)
    case Some(t) => Returned(ReportRequest(DownloadPath(t), filters, true))
  }

  /** The preview table (`reportEndpoints`). */
  function PreviewPath(t: ReportType): string
  {
    match t
    case LoansByPeriod => "loans-by-period/preview"
    case MostRequested => "most-requested-components/preview"
    case ActiveLoans => "active-loans/preview"
    case LowStock => "low-stock/preview"
    case Movements => "component-movements/preview"
    case NotReturned => "not-returned/preview"
  }

  /** `getReportPreview`: the known keys map to their preview endpoint; any other key throws. */
  function GetReportPreview(key: string, filters: map<string, string>): (r: Outcome<ReportRequest>)
    ensures r.Raised? <==> ReportOf(key).None?
    ensures r.Raised? ==> r.message == InvalidReportMessage
    ensures r.Returned? ==> !r.value.blob && r.value.params == filters && r.value.path == PreviewPath(ReportOf(key).value)
  {
    match ReportOf(key)
    case None => Raised(InvalidReportMessage)
    case Some(t) => Returned(ReportRequest(PreviewPath(t), filters, false))
  }

  /** Every preview endpoint is the report's PDF endpoint followed by `/preview`, and the
      preview is known for exactly the keys the PDF dispatch knows. */
  lemma PreviewBesideDownload(key: string, filters: map<string, string>)
    ensures GetReportPreview(key, filters).Raised? <==> GenerateReport(key, filters).Raised?
    ensures GenerateReport(key, filters).Returned? ==>
      GetReportPreview(key, filters).value.path == GenerateReport(key, filters).value.path + "/preview"
  {
    if ReportOf(key).Some? {
      var t := ReportOf(key).value;
      match t
      case LoansByPeriod =>
        assert PreviewPath(t) == "loans-by-period" + "/preview";
      case MostRequested =>
        assert PreviewPath(t) == "most-requested-components" + "/preview";
      case ActiveLoans =>
        assert PreviewPath(t) == "active-loans" + "/preview";
      case LowStock =>
        assert PreviewPath(t) == "low-stock" + "/preview";
      case Movements =>
        assert PreviewPath(t) == "component-movements" + "/preview";
      case NotReturned =>
        assert PreviewPath(t) == "not-returned" + "/preview";
    }
  }

  /** A `filterOptions` entry. An entry written without `required` (or `optional`) has that
      property `undefined`, which is `None` here. */
  datatype FilterSpec = FilterSpec(required: Option<seq<string>>, optional: Option<seq<string>>)

  /** The entry of the filter table for a report type. */
  function FilterTable(t: ReportType): FilterSpec
  {
    match t
    case LoansByPeriod => FilterSpec(Some(["academicPeriodId"]), Some(["startDate", "endDate", "status"]))
    case MostRequested => FilterSpec(None, Some(["startDate", "endDate", "category"]))
    case ActiveLoans => FilterSpec(None, Some(["userId", "componentId"]))
    case LowStock => FilterSpec(None, Some(["category"]))
    case Movements => FilterSpec(Some(["startDate", "endDate"]), Some(["componentId", "movementType"]))
    case NotReturned => FilterSpec(None, Some(["startDate", "endDate", "userId"]))
  }

  /** `getFilterOptions`: the table entry, or `{required: [], optional: []}` for an unknown key. */
  function GetFilterOptions(key: string): (r: FilterSpec)
    ensures ReportOf(key).None? ==> r == FilterSpec(Some([]), Some([]))
    ensures ReportOf(key).Some? ==> r == FilterTable(ReportOf(key).value)
    ensures r.optional.Some?
  {
    match ReportOf(key)
    case None => FilterSpec(Some([]), Some([]))
    case Some(t) => FilterTable(t)
  }

  /** `list?.…` on a possibly undefined list: an undefined list behaves as an empty one. */
  function Listed(list: Option<seq<string>>): seq<string>
  {
    if list.Some? then list.value else []
  }

  /** The required filters of a report. */
  function RequiredFilters(key: string): seq<string>
  {
    Listed(GetFilterOptions(key).required)
  }

  /** The optional filters of a report. */
  function OptionalFilters(key: string): seq<string>
  {
    Listed(GetFilterOptions(key).optional)
  }

  /** Only loans-by-period (the academic period) and movements (both dates) require filters. */
  lemma RequiredFiltersByReport(key: string)
    ensures RequiredFilters(key) != [] <==> ReportOf(key) == Some(LoansByPeriod) || ReportOf(key) == Some(Movements)
    ensures ReportOf(key) == Some(LoansByPeriod) ==> RequiredFilters(key) == ["academicPeriodId"]
    ensures ReportOf(key) == Some(Movements) ==> RequiredFilters(key) == ["startDate", "endDate"]
  {
  }

  /** For every report no filter is both required and optional. */
  lemma RequiredOptionalDisjoint(key: string, f: string)
    ensures !(f in RequiredFilters(key) && f in OptionalFilters(key))
  {
    if f in RequiredFilters(key) {
      match ReportOf(key).value
      case LoansByPeriod =>
        assert f == "academicPeriodId";
        assert |f| == 16;
      case Movements =>
        assert f == "startDate" || f == "endDate";
        assert f[0] == 's' || f[0] == 'e';
      case _ =>
    }
  }

  /** The prefix each report's file name starts with (`reportNames`); a key outside the table
      reads `undefined`, which the template string prints as such. */
  function FilePrefix(key: string): string
  {
    match ReportOf(key)
    case None => "undefined"
    case Some(LoansByPeriod) => "prestamos_periodo"
    case Some(MostRequested) => "componentes_solicitados"
    case Some(ActiveLoans) => "prestamos_activos"
    case Some(LowStock) => "bajo_stock"
    case Some(Movements) => "movimientos_componentes"
    case Some(NotReturned) => "prestamos_no_devueltos"
  }

  /** `.replace(/[:.]/g, '-')` on one character. */
  function DashChar(c: char): char
  {
    if c == ':' || c == '.' then '-' else c
  }

  /** `.replace(/[:.]/g, '-')`. */
  function Dashed(s: string): (r: string)
    ensures |r| == |s|
    ensures forall i :: 0 <= i < |s| ==> r[i] == DashChar(s[i])
  {
    if s == [] then [] else [DashChar(s[0])] + Dashed(s[1..])
  }

  /** The replaced timestamp has no ':' or '.', and every other character is kept. */
  lemma DashedMeaning(s: string)
    ensures ':' !in Dashed(s) && '.' !in Dashed(s)
    ensures forall i :: 0 <= i < |s| && s[i] != ':' && s[i] != '.' ==> Dashed(s)[i] == s[i]
    ensures Dashed(Dashed(s)) == Dashed(s)
  {
    var r := Dashed(s);
    forall i | 0 <= i < |r|
      ensures r[i] != ':' && r[i] != '.'
    {
      assert r[i] == DashChar(s[i]);
    }
    assert Dashed(r) == r;
  }

  /** `getReportFileName`, with the ISO timestamp of the moment as a parameter: the prefix,
      '_', the timestamp without ':' or '.', and the `.pdf` extension. */
  function GetReportFileName(key: string, timestamp: string): (r: string)
    ensures |r| == |FilePrefix(key)| + 1 + |timestamp| + 4
    ensures r[..|FilePrefix(key)|] == FilePrefix(key) && r[|FilePrefix(key)|] == '_'
    ensures r[|FilePrefix(key)| + 1..|r| - 4] == Dashed(timestamp)
    ensures r[|r| - 4..] == ".pdf"
  {
    FilePrefix(key) + "_" + Dashed(timestamp) + ".pdf"
  }

  /** Every table covers the same six keys: a key is known to the dispatch exactly when the
      preview knows it, it has a filter entry of its own and its file name has a real prefix. */
  lemma TablesShareKeys(key: string, filters: map<string, string>)
    ensures GenerateReport(key, filters).Returned? <==> GetReportPreview(key, filters).Returned?
    ensures GenerateReport(key, filters).Returned? <==> FilePrefix(key) != "undefined"
    ensures GenerateReport(key, filters).Raised? ==> GetFilterOptions(key) == FilterSpec(Some([]), Some([]))
    ensures GenerateReport(key, filters).Returned? ==> GetFilterOptions(key).optional.value != []
  {
    if ReportOf(key).Some? {
      match ReportOf(key).value
      case LoansByPeriod => assert FilePrefix(key)[0] == 'p';
      case MostRequested => assert FilePrefix(key)[0] == 'c';
      case ActiveLoans => assert FilePrefix(key)[0] == 'p';
      case LowStock => assert FilePrefix(key)[0] == 'b';
      case Movements => assert FilePrefix(key)[0] == 'm';
      case NotReturned => assert FilePrefix(key)[0] == 'p';
    }
  }
}
