/** src/app/pages/admin/loans/loans.component.ts: the reports page. Choosing a report builds
    a filter form from the report's required and optional filters; the form is checked
    (required fields and the date range) before a preview or a PDF is requested. */
module Loans {
  import opened Wrappers
  import opened Text
  import opened Seqs
  import opened Ui
  import opened Reports
  import opened Users

  /** `filterTypes`, in the order `Object.entries` visits it. */
  const FilterTypes: seq<(string, seq<string>)> := [
    ("date", ["startDate", "endDate", "returnDate"]),
    ("select", ["status", "movementType", "category", "componentId", "academicPeriodId", "userId"]),
    ("number", [""])
  ]

  /** The kind of the first entry whose list holds `name`, or 'text'. */
  function FirstListing(entries: seq<(string, seq<string>)>, name: string): string
  {
    if entries == [] then "text"
    else if name in entries[0].1 then entries[0].0
    else FirstListing(entries[1..], name)
  }

  /** `getFilterType`: the loop over the entries of `filterTypes`, returning at the first list
      that includes the name. */
  method GetFilterType(name: string) returns (kind: string)
    ensures kind == FirstListing(FilterTypes, name)
  {
    var i := 0;
    while i < |FilterTypes|
      invariant 0 <= i <= |FilterTypes|
      invariant FirstListing(FilterTypes[i..], name) == FirstListing(FilterTypes, name)
    {
      var (k, filters) := FilterTypes[i];
      if name in filters {
        return k;
      }
      assert FilterTypes[i..][1..] == FilterTypes[i + 1..];
      i := i + 1;
    }
    return "text";
  }

  /** The kinds the filter table gives: three date filters, six selects, a number type that
      only the empty name has, and text for everything else. */
  lemma FilterTypeCases(name: string)
    ensures name in ["startDate", "endDate", "returnDate"] ==> FirstListing(FilterTypes, name) == "date"
    ensures name in ["status", "movementType", "category", "componentId", "academicPeriodId", "userId"] ==>
      FirstListing(FilterTypes, name) == "select"
    ensures name == "" ==> FirstListing(FilterTypes, name) == "number"
    ensures (name !in ["startDate", "endDate", "returnDate"] &&
             name !in ["status", "movementType", "category", "componentId", "academicPeriodId", "userId"] && name != "") ==>
      FirstListing(FilterTypes, name) == "text"
  {
    var e := FilterTypes;
    assert e[1..][0] == e[1] && e[1..][1..] == e[2..] && e[2..][0] == e[2] && e[2..][1..] == [];
    assert FirstListing(e[2..], name) == if name == "" then "number" else "text";
    assert FirstListing(e[1..], name) == if name in e[1].1 then "select" else FirstListing(e[2..], name);
    if name in e[1].1 {
      assert name[0] in {'s', 'm', 'c', 'a', 'u'};
    }
  }

  /** The labels of `getFilterLabel`. */
  const FilterLabels: map<string, string> := map[
    "startDate" := "Fecha inicial",
    "endDate" := "Fecha final",
    "academicPeriodId" := "Período académico",
    "status" := "Estado",
    "componentId" := "Componente",
    "userId" := "Usuario",
    "movementType" := "Tipo de movimiento",
    "category" := "Categoría",
    "returnDate" := "Fecha de devolución"
  ]

  /** `getFilterLabel`: the label of a known filter (every label is a non-empty string, so
      `||` never falls through), the name itself otherwise. */
  function GetFilterLabel(name: string): (caption: string)
    ensures name in FilterLabels ==> caption == FilterLabels[name]
    ensures name !in FilterLabels ==> caption == name
  {
    if name in FilterLabels && FilterLabels[name] != "" then FilterLabels[name] else name
  }

  /** A filter keeps its own name as label exactly when it has no fixed label. */
  lemma GetFilterLabelMeaning(name: string)
    ensures GetFilterLabel(name) == name <==> name !in FilterLabels
  {
    if name in FilterLabels {
      assert FilterLabels[name][0] in {'F', 'P', 'E', 'C', 'U', 'T'};
      assert name[0] in {'s', 'e', 'a', 'c', 'u', 'm', 'r'};
    }
  }

  /** One form control: its value ('' when empty or reset), whether it has
      `Validators.required`, and whether it was touched. */
  datatype Control = Control(value: string, required: bool, touched: bool)

  /** `Validators.required` fails on an empty value. */
  predicate ControlInvalid(c: Control)
  {
    c.required && c.value == ""
  }

  /** A control's value, `undefined` (here '') when the form has no such control. */
  function ValueOf(form: map<string, Control>, name: string): string
  {
    if name in form then form[name].value else ""
  }

  /** `dateRangeValidator`: both dates set and the end before the start. Date inputs hold
      'YYYY-MM-DD' strings, whose order as dates is their order as strings. */
  predicate DateRangeError(form: map<string, Control>)
  {
    var start := ValueOf(form, "startDate");
    var end := ValueOf(form, "endDate");
    start != "" && end != "" && LexLess(end, start)
  }

  /** The range is flagged exactly when both dates are set and the end is earlier: equal
      dates and a later end pass. */
  lemma DateRangeMeaning(form: map<string, Control>)
    ensures DateRangeError(form) ==> ValueOf(form, "startDate") != "" && ValueOf(form, "endDate") != ""
    ensures ValueOf(form, "startDate") == ValueOf(form, "endDate") ==> !DateRangeError(form)
    ensures LexLess(ValueOf(form, "startDate"), ValueOf(form, "endDate")) ==> !DateRangeError(form)
  {
    LexTrichotomy(ValueOf(form, "startDate"), ValueOf(form, "endDate"));
  }

  /** A control is invalid by its own validator, or, for `endDate`, by the range error the
      group validator sets on it. */
  predicate ControlIsInvalid(form: map<string, Control>, name: string)
    requires name in form
  {
    ControlInvalid(form[name]) || (name == "endDate" && DateRangeError(form))
  }

  /** `filterForm.invalid`. */
  predicate FormInvalid(form: map<string, Control>)
  {
    (exists name :: name in form && ControlIsInvalid(form, name)) || DateRangeError(form)
  }

  /** `filterForm.value`. */
  function FormValues(form: map<string, Control>): (values: map<string, string>)
    ensures values.Keys == form.Keys
    ensures forall name :: name in form ==> values[name] == form[name].value
  {
    map name | name in form :: form[name].value
  }

  /** The loop of `generateReport` that marks each invalid control as touched. */
  function MarkInvalidTouched(form: map<string, Control>): (marked: map<string, Control>)
    ensures marked.Keys == form.Keys
    ensures forall name :: name in form && ControlIsInvalid(form, name) ==> marked[name] == form[name].(touched := true)
    ensures forall name :: name in form && !ControlIsInvalid(form, name) ==> marked[name] == form[name]
  {
    map name | name in form :: if ControlIsInvalid(form, name) then form[name].(touched := true) else form[name]
  }

  /** `filterForm.reset()`: every control empty and untouched, validators kept. */
  function ResetForm(form: map<string, Control>): (reset: map<string, Control>)
    ensures reset.Keys == form.Keys
    ensures forall name :: name in form ==> reset[name] == Control("", form[name].required, false)
  {
    map name | name in form :: Control("", form[name].required, false)
  }

  /** An entry of `availableReports`. */
  datatype ReportInfo = ReportInfo(id: string, description: string)

  /** The body of a preview response. */
  datatype Preview = Preview(headers: seq<string>, data: seq<map<string, string>>)

  class LoansPage {
    var availableReports: seq<ReportInfo>
    var previewData: seq<map<string, string>>
    var previewHeaders: seq<string>
    var selectedReport: string
    var filterForm: map<string, Control>
    var isLoading: bool
    var showFilters: bool
    var users: seq<UserRecord>
    var filteredUsers: seq<UserRecord>
    var searchTerm: string

    constructor ()
      ensures availableReports == [] && previewData == [] && previewHeaders == [] && selectedReport == ""
      ensures filterForm == map[] && !isLoading && !showFilters
      ensures users == [] && filteredUsers == [] && searchTerm == ""
    {
      availableReports := [];
      previewData := [];
      previewHeaders := [];
      selectedReport := "";
      filterForm := map[];
      isLoading := false;
      showFilters := false;
      users := [];
      filteredUsers := [];
      searchTerm := "";
    }

    /** `loadUsers`: the fetched list is both the list and the filtered list; a failed fetch
        changes nothing. */
    method OnUsersLoaded(response: Result<seq<UserRecord>>)
      modifies this`users, this`filteredUsers
      ensures response.Ok? ==> users == response.value && filteredUsers == response.value
      ensures response.Err? ==> users == old(users) && filteredUsers == old(filteredUsers)
      ensures filterForm == old(filterForm) && selectedReport == old(selectedReport)
    {
      if response.Ok? {
        users := response.value;
        filteredUsers := response.value;
      }
    }

    /** `filterUsers`. */
    method FilterUsers()
      modifies this`filteredUsers
      ensures filteredUsers == FilterUsersByName(users, searchTerm)
      ensures users == old(users) && searchTerm == old(searchTerm) && filterForm == old(filterForm)
    {
      filteredUsers := FilterUsersByName(users, searchTerm);
    }

    /** `loadAvailableReports`: the list of reports, or an error notice. */
    method OnAvailableReportsLoaded(response: Result<seq<ReportInfo>>) returns (notices: seq<Notice>)
      modifies this`availableReports
      ensures response.Ok? ==> availableReports == response.value && notices == []
      ensures response.Err? ==>
        (availableReports == old(availableReports) && notices == [Error("Error al cargar los reportes disponibles")])
      ensures selectedReport == old(selectedReport) && filterForm == old(filterForm)
    {
      if response.Ok? {
        availableReports := response.value;
        notices := [];
      } else {
        notices := [Error("Error al cargar los reportes disponibles")];
      }
    }

    /** `initializeFilters`: one empty control per required filter, with the required
        validator, then one per optional filter, without it. */
    method InitializeFilters(reportId: string)
      modifies this`filterForm
      ensures filterForm.Keys == set f | f in RequiredFilters(reportId) + OptionalFilters(reportId)
      ensures forall f :: f in filterForm ==> filterForm[f].value == "" && !filterForm[f].touched
      ensures forall f :: f in filterForm ==> (filterForm[f].required <==> f in RequiredFilters(reportId))
    {
      var filterOptions := GetFilterOptions(reportId);
      var required := Listed(filterOptions.required);
      var optional := Listed(filterOptions.optional);
      var formGroup: map<string, Control> := map[];
      var i := 0;
      while i < |required|
        invariant 0 <= i <= |required|
        invariant formGroup.Keys == set f | f in required[..i]
        invariant forall f :: f in formGroup ==> formGroup[f] == Control("", true, false)
      {
        formGroup := formGroup[required[i] := Control("", true, false)];
        assert required[..i + 1] == required[..i] + [required[i]];
        i := i + 1;
      }
      assert required[..i] == required;
      var j := 0;
      while j < |optional|
        invariant 0 <= j <= |optional|
        invariant formGroup.Keys == set f | f in required + optional[..j]
        invariant forall f :: f in formGroup ==> formGroup[f] == if f in optional[..j] then Control("", false, false) else Control("", true, false)
      {
        formGroup := formGroup[optional[j] := Control("", false, false)];
        assert optional[..j + 1] == optional[..j] + [optional[j]];
        j := j + 1;
      }
      assert optional[..j] == optional;
      forall f | f in required
        ensures f !in optional
      {
        RequiredOptionalDisjoint(reportId, f);
      }
      filterForm := formGroup;
    }

    /** `onReportTypeChange`: the report is selected, its filter form built and shown, and
        the previous preview dropped. */
    method OnReportTypeChange(value: string)
      modifies this`selectedReport, this`showFilters, this`filterForm, this`previewData, this`previewHeaders
      ensures selectedReport == value && showFilters && previewData == [] && previewHeaders == []
      ensures filterForm.Keys == set f | f in RequiredFilters(value) + OptionalFilters(value)
      ensures forall f :: f in filterForm ==> filterForm[f].value == "" && !filterForm[f].touched
      ensures forall f :: f in filterForm ==> (filterForm[f].required <==> IsFilterRequired(f))
      ensures isLoading == old(isLoading)
    {
      selectedReport := value;
      showFilters := true;
      InitializeFilters(value);
      previewData := [];
      previewHeaders := [];
    }

    /** `isFilterRequired`: the name is in the selected report's required list (an undefined
        list includes nothing). */
    predicate IsFilterRequired(name: string)
      reads this
    {
      var options := GetFilterOptions(selectedReport);
      options.required.Some? && name in options.required.value
    }

    /** `getReportDescription`: the description of the first report whose id is the selected
        one, or ''. */
    function GetReportDescription(): (description: string)
      reads this
      ensures (forall i :: 0 <= i < |availableReports| ==> availableReports[i].id != selectedReport) ==> description == ""
      ensures (exists i :: 0 <= i < |availableReports| && availableReports[i].id == selectedReport) ==>
        exists i :: 0 <= i < |availableReports| && availableReports[i].id == selectedReport &&
          description == availableReports[i].description &&
          forall j :: 0 <= j < i ==> availableReports[j].id != selectedReport
    {
      var selected := selectedReport;
      var k := FindIndex((r: ReportInfo) => r.id == selected, availableReports);
      if k >= 0 then availableReports[k].description else ""
    }

    /** `generateReport`: an invalid form marks its invalid controls touched and shows an
        error without a request. Otherwise loading starts and the preview of the selected
        report is requested with the form's values; an unknown report throws before any
        request and loading never ends. The response fills the preview or shows an error;
        either way loading ends. */
    method GenerateReport(response: Result<Preview>) returns (notices: seq<Notice>, request: Option<ReportRequest>)
      modifies this`filterForm, this`isLoading, this`previewData, this`previewHeaders
      ensures FormInvalid(old(filterForm)) ==>
        (filterForm == MarkInvalidTouched(old(filterForm)) && request == None && isLoading == old(isLoading) &&
         notices == [Error("Por favor complete todos los campos requeridos")] &&
         previewData == old(previewData) && previewHeaders == old(previewHeaders))
      ensures !FormInvalid(old(filterForm)) && ReportOf(selectedReport).None? ==>
        (request == None && notices == [] && isLoading && filterForm == old(filterForm) &&
         previewData == old(previewData) && previewHeaders == old(previewHeaders))
      ensures !FormInvalid(old(filterForm)) && ReportOf(selectedReport).Some? ==>
        request == Some(GetReportPreview(selectedReport, FormValues(filterForm)).value) && !isLoading &&
        filterForm == old(filterForm) &&
        (response.Ok? ==> notices == [] && previewData == response.value.data && previewHeaders == response.value.headers) &&
        (response.Err? ==>
          (notices == [Error("Error al obtener vista previa de datos")] &&
           previewData == old(previewData) && previewHeaders == old(previewHeaders)))
      ensures selectedReport == old(selectedReport)
    {
      if FormInvalid(filterForm) {
        filterForm := MarkInvalidTouched(filterForm);
        return [Error("Por favor complete todos los campos requeridos")], None;
      }
      isLoading := true;
      var filters := FormValues(filterForm);
      var call := GetReportPreview(selectedReport, filters);
      if call.Raised? {
        return [], None;
      }
      request := Some(call.value);
      if response.Ok? {
        previewData := response.value.data;
        previewHeaders := response.value.headers;
        notices := [];
      } else {
        notices := [Error("Error al obtener vista previa de datos")];
      }
      isLoading := false;
    }

    /** `generatePDF`: the PDF of the selected report is requested with the form's values
        (an unknown report throws and loading never ends). A response names the download
        after the report and the moment, `timestamp`, and shows success; a failure shows an
        error. Either way loading ends. */
    method GeneratePdf(response: Result<()>, timestamp: string) returns (notices: seq<Notice>, request: Option<ReportRequest>, fileName: Option<string>)
      modifies this`isLoading
      ensures ReportOf(selectedReport).None? ==> request == None && fileName == None && notices == [] && isLoading
      ensures ReportOf(selectedReport).Some? ==>
        request == Some(Reports.GenerateReport(selectedReport, FormValues(filterForm)).value) && !isLoading &&
        (response.Ok? ==>
          (fileName == Some(GetReportFileName(selectedReport, timestamp)) &&
           notices == [SuccessAlert("Reporte PDF generado exitosamente")])) &&
        (response.Err? ==> fileName == None && notices == [Error("Error al generar el PDF")])
      ensures selectedReport == old(selectedReport) && filterForm == old(filterForm)
      ensures previewData == old(previewData) && previewHeaders == old(previewHeaders)
    {
      isLoading := true;
      var filters := FormValues(filterForm);
      var call := Reports.GenerateReport(selectedReport, filters);
      if call.Raised? {
        return [], None, None;
      }
      request := Some(call.value);
      if response.Ok? {
        fileName := Some(GetReportFileName(selectedReport, timestamp));
        notices := [SuccessAlert("Reporte PDF generado exitosamente")];
      } else {
        fileName := None;
        notices := [Error("Error al generar el PDF")];
      }
      isLoading := false;
    }

    /** `resetFilters`. */
    method ResetFilters()
      modifies this`filterForm
      ensures filterForm == ResetForm(old(filterForm))
      ensures selectedReport == old(selectedReport) && previewData == old(previewData)
    {
      filterForm := ResetForm(filterForm);
    }
  }

  /** After a reset no control is touched, and only a required control can be invalid. */
  lemma ResetFormInvalidity(form: map<string, Control>)
    ensures forall name :: name in ResetForm(form) ==> !ResetForm(form)[name].touched
    ensures !DateRangeError(ResetForm(form))
    ensures FormInvalid(ResetForm(form)) <==> exists name :: name in form && form[name].required
  {
    var reset := ResetForm(form);
    if exists name :: name in form && form[name].required {
      var name :| name in form && form[name].required;
      assert ControlIsInvalid(reset, name);
    }
  }

  /** A freshly built form is invalid exactly when the selected report has a required filter:
      every control starts empty. */
  lemma FreshFormInvalidity(reportId: string, form: map<string, Control>)
    requires form.Keys == set f | f in RequiredFilters(reportId) + OptionalFilters(reportId)
    requires forall f :: f in form ==> form[f].value == "" && (form[f].required <==> f in RequiredFilters(reportId))
    ensures FormInvalid(form) <==> RequiredFilters(reportId) != []
  {
    if RequiredFilters(reportId) != [] {
      var f := RequiredFilters(reportId)[0];
      assert f in form;
      assert ControlIsInvalid(form, f);
    }
  }
}
