/** src/app/pages/admin/academic-periods/academic-periods.component.ts: the active period and
    the list of inactive ones, and the form that edits the active period or creates (and then
    activates) a new one. */
module AcademicPeriods {
  import opened Wrappers
  import opened Text
  import opened Seqs
  import opened Ui

  /** An academic period as the server lists it; dates are ISO strings. */
  datatype Period = Period(id: int, name: string, startDate: string, endDate: string, isActive: bool)

  /** The values of `periodForm` ('' when empty or reset). */
  datatype PeriodForm = PeriodForm(name: string, startDate: string, endDate: string)

  const EmptyPeriodForm := PeriodForm("", "", "")

  /** `Validators.required` with `Validators.minLength(3)`: minLength lets an empty value
      through, required does not, so together they ask for three characters. */
  predicate NameValid(name: string)
  {
    name != "" && |name| >= 3
  }

  /** `dateRangeValidator`: the end strictly after the start. A date input holds
      'YYYY-MM-DD', ordered as its string; an empty value is an invalid date, and a
      comparison with an invalid date is false. */
  predicate DateRangeValid(startDate: string, endDate: string)
  {
    startDate != "" && endDate != "" && LexLess(startDate, endDate)
  }

  /** The order is strict: equal dates fail, and a valid range reversed is not valid. */
  lemma DateRangeStrict(startDate: string, endDate: string)
    ensures !DateRangeValid(startDate, startDate)
    ensures DateRangeValid(startDate, endDate) ==> !DateRangeValid(endDate, startDate)
    ensures startDate != "" && endDate != "" && startDate != endDate ==>
      (DateRangeValid(startDate, endDate) || DateRangeValid(endDate, startDate))
  {
    LexTrichotomy(startDate, endDate);
  }

  /** `periodForm.valid`: the name, both required dates and the range. */
  predicate PeriodFormValid(f: PeriodForm)
  {
    NameValid(f.name) && f.startDate != "" && f.endDate != "" && DateRangeValid(f.startDate, f.endDate)
  }

  /** A reset form is never valid. */
  lemma EmptyFormInvalid()
    ensures !PeriodFormValid(EmptyPeriodForm)
  {
  }

  /** The date part of an ISO timestamp, `.split('T')[0]`. */
  function DatePart(iso: string): (d: string)
    ensures |d| <= |iso| && d == iso[..|d|]
    ensures 'T' !in d
    ensures 'T' in iso ==> |d| < |iso| && iso[|d|] == 'T'
  {
    var k := IndexOf(iso, 'T');
    if k == -1 then iso else iso[..k]
  }

  predicate IsActivePeriod(p: Period) { p.isActive }
  predicate IsInactivePeriod(p: Period) { !p.isActive }

  /** `find(p => p.isActive) || null`. */
  function ActiveOf(periods: seq<Period>): (r: Option<Period>)
    ensures r.Some? <==> exists i :: 0 <= i < |periods| && periods[i].isActive
    ensures r.Some? ==> r.value.isActive && r.value in periods
    ensures r.Some? ==> exists i :: 0 <= i < |periods| && periods[i] == r.value && forall j :: 0 <= j < i ==> !periods[j].isActive
  {
    var k := FindIndex(IsActivePeriod, periods);
    if k >= 0 then Some(periods[k]) else None
  }

  /** `filter(p => !p.isActive)`. */
  function InactiveOf(periods: seq<Period>): (r: seq<Period>)
  {
    Filter(IsInactivePeriod, periods)
  }

  /** The inactive list holds exactly the inactive periods, and none of them is the active one. */
  lemma InactiveOfMeaning(periods: seq<Period>)
    ensures forall p :: p in InactiveOf(periods) <==> p in periods && !p.isActive
    ensures ActiveOf(periods).Some? ==> ActiveOf(periods).value !in InactiveOf(periods)
  {
    forall p ensures p in InactiveOf(periods) <==> p in periods && !p.isActive {
      FilterMembership(IsInactivePeriod, periods, p);
    }
  }

  /** Every period is either active or listed as inactive: the inactive list is as long as
      the list without its active periods. */
  lemma {:induction false} PartitionCount(periods: seq<Period>)
    ensures |Filter(IsActivePeriod, periods)| + |InactiveOf(periods)| == |periods|
  {
    if periods != [] {
      PartitionCount(periods[1..]);
    }
  }

  /** A service call. */
  datatype ServiceCall =
    | GetPeriodsCall
    | UpdatePeriodCall(id: int, data: PeriodForm)
    | CreatePeriodCall(data: PeriodForm)
    | ActivatePeriodCall(id: int)

  class AcademicPeriodsPage {
    var academicPeriods: seq<Period>
    var activePeriod: Option<Period>
    var inactivePeriods: seq<Period>
    var isEdit: bool
    var showInactiveTable: bool
    var periodForm: PeriodForm

    constructor ()
      ensures academicPeriods == [] && activePeriod == None && inactivePeriods == []
      ensures !isEdit && !showInactiveTable && periodForm == EmptyPeriodForm
    {
      academicPeriods := [];
      activePeriod := None;
      inactivePeriods := [];
      isEdit := false;
      showInactiveTable := false;
      periodForm := EmptyPeriodForm;
    }

    /** `loadPeriods`: the list, its first active period (or none) and its inactive periods
        in order; a failed fetch shows an error and keeps the old state. */
    method OnPeriodsLoaded(response: Result<seq<Period>>) returns (notices: seq<Notice>)
      modifies this
      ensures response.Ok? ==>
        (academicPeriods == response.value && activePeriod == ActiveOf(response.value) &&
         inactivePeriods == InactiveOf(response.value) && notices == [])
      ensures response.Err? ==>
        (academicPeriods == old(academicPeriods) && activePeriod == old(activePeriod) &&
         inactivePeriods == old(inactivePeriods) && notices == [Error("Error al cargar los períodos académicos.")])
      ensures isEdit == old(isEdit) && showInactiveTable == old(showInactiveTable) && periodForm == old(periodForm)
    {
      if response.Ok? {
        academicPeriods := response.value;
        activePeriod := ActiveOf(academicPeriods);
        inactivePeriods := InactiveOf(academicPeriods);
        notices := [];
      } else {
        notices := [Error("Error al cargar los períodos académicos.")];
      }
    }

    /** `openCreateForm`. */
    method OpenCreateForm()
      modifies this`isEdit, this`showInactiveTable, this`periodForm
      ensures !isEdit && !showInactiveTable && periodForm == EmptyPeriodForm
      ensures activePeriod == old(activePeriod) && inactivePeriods == old(inactivePeriods)
    {
      isEdit := false;
      showInactiveTable := false;
      periodForm := EmptyPeriodForm;
    }

    /** `openEditForm`: edit mode; the form takes the active period's name and dates only
        when there is an active period. */
    method OpenEditForm()
      modifies this`isEdit, this`showInactiveTable, this`periodForm
      ensures isEdit && !showInactiveTable
      ensures activePeriod.Some? ==>
        periodForm == PeriodForm(activePeriod.value.name, DatePart(activePeriod.value.startDate), DatePart(activePeriod.value.endDate))
      ensures activePeriod.None? ==> periodForm == old(periodForm)
      ensures activePeriod == old(activePeriod) && inactivePeriods == old(inactivePeriods)
    {
      isEdit := true;
      showInactiveTable := false;
      if activePeriod.Some? {
        var p := activePeriod.value;
        periodForm := PeriodForm(p.name, DatePart(p.startDate), DatePart(p.endDate));
      }
    }

    /** `toggleInactiveTable`: flips the table; opening it also leaves edit mode and resets
        the form. */
    method ToggleInactiveTable()
      modifies this`isEdit, this`showInactiveTable, this`periodForm
      ensures showInactiveTable == !old(showInactiveTable)
      ensures showInactiveTable ==> !isEdit && periodForm == EmptyPeriodForm
      ensures !showInactiveTable ==> isEdit == old(isEdit) && periodForm == old(periodForm)
      ensures activePeriod == old(activePeriod) && inactivePeriods == old(inactivePeriods)
    {
      showInactiveTable := !showInactiveTable;
      if showInactiveTable {
        isEdit := false;
        periodForm := EmptyPeriodForm;
      }
    }

    /** The edit branch of `savePeriod`: the active period is updated (without an active
        period, reading its id throws and nothing is sent); success reloads the list. */
    method SaveEdit(periodData: PeriodForm, updateResponse: Result<()>) returns (notices: seq<Notice>, calls: seq<ServiceCall>)
      ensures activePeriod.None? ==> notices == [] && calls == []
      ensures activePeriod.Some? && updateResponse.Ok? ==>
        (calls == [UpdatePeriodCall(activePeriod.value.id, periodData), GetPeriodsCall] &&
         notices == [SuccessAlert("Período actualizado con éxito.")])
      ensures activePeriod.Some? && updateResponse.Err? ==>
        (calls == [UpdatePeriodCall(activePeriod.value.id, periodData)] &&
         notices == [Error("Error al actualizar el período académico.")])
    {
      if activePeriod.None? {
        return [], [];
      }
      calls := [UpdatePeriodCall(activePeriod.value.id, periodData)];
      if updateResponse.Ok? {
        calls := calls + [GetPeriodsCall];
        notices := [SuccessAlert("Período actualizado con éxito.")];
      } else {
        notices := [Error("Error al actualizar el período académico.")];
      }
    }

    /** The create branch of `savePeriod`: the period is created and, only once that
        succeeds, the new period's id is activated; activation success reloads the list. */
    method SaveCreate(periodData: PeriodForm, createResponse: Result<int>, activateResponse: Result<()>)
      returns (notices: seq<Notice>, calls: seq<ServiceCall>)
      ensures createResponse.Err? ==>
        (calls == [CreatePeriodCall(periodData)] && notices == [Error("Error al crear el período académico.")])
      ensures createResponse.Ok? && activateResponse.Ok? ==>
        (calls == [CreatePeriodCall(periodData), ActivatePeriodCall(createResponse.value), GetPeriodsCall] &&
         notices == [SuccessAlert("Nuevo período creado y activado con éxito.")])
      ensures createResponse.Ok? && activateResponse.Err? ==>
        (calls == [CreatePeriodCall(periodData), ActivatePeriodCall(createResponse.value)] &&
         notices == [Error("Error al activar el nuevo período académico.")])
    {
      calls := [CreatePeriodCall(periodData)];
      if createResponse.Err? {
        return [Error("Error al crear el período académico.")], calls;
      }
      calls := calls + [ActivatePeriodCall(createResponse.value)];
      if activateResponse.Ok? {
        calls := calls + [GetPeriodsCall];
        notices := [SuccessAlert("Nuevo período creado y activado con éxito.")];
      } else {
        notices := [Error("Error al activar el nuevo período académico.")];
      }
    }

    /** `savePeriod`: an invalid form shows an error and makes no call; otherwise the form's
        values go to the edit or the create branch. */
    method SavePeriod(updateResponse: Result<()>, createResponse: Result<int>, activateResponse: Result<()>)
      returns (notices: seq<Notice>, calls: seq<ServiceCall>)
      ensures !PeriodFormValid(periodForm) ==>
        (notices == [Error("Por favor, completa todos los campos correctamente.")] && calls == [])
      ensures PeriodFormValid(periodForm) && isEdit && activePeriod.None? ==> notices == [] && calls == []
      ensures PeriodFormValid(periodForm) && isEdit && activePeriod.Some? ==>
        (|calls| >= 1 && calls[0] == UpdatePeriodCall(activePeriod.value.id, periodForm) &&
         (updateResponse.Ok? <==> GetPeriodsCall in calls))
      ensures PeriodFormValid(periodForm) && !isEdit ==>
        (|calls| >= 1 && calls[0] == CreatePeriodCall(periodForm) &&
         (createResponse.Ok? ==> ActivatePeriodCall(createResponse.value) in calls) &&
         (createResponse.Err? ==> calls == [CreatePeriodCall(periodForm)]) &&
         (GetPeriodsCall in calls <==> createResponse.Ok? && activateResponse.Ok?))
    {
      if !PeriodFormValid(periodForm) {
        return [Error("Por favor, completa todos los campos correctamente.")], [];
      }
      var periodData := periodForm;
      if isEdit {
        notices, calls := SaveEdit(periodData, updateResponse);
      } else {
        notices, calls := SaveCreate(periodData, createResponse, activateResponse);
      }
    }

    /** `activatePeriod`: activates the given period; success reloads the list. */
    method ActivatePeriod(periodId: int, response: Result<()>) returns (notices: seq<Notice>, calls: seq<ServiceCall>)
      ensures response.Ok? ==>
        (calls == [ActivatePeriodCall(periodId), GetPeriodsCall] && notices == [SuccessAlert("Período activado con éxito.")])
      ensures response.Err? ==>
        (calls == [ActivatePeriodCall(periodId)] && notices == [Error("Error al activar el período académico.")])
    {
      calls := [ActivatePeriodCall(periodId)];
      if response.Ok? {
        calls := calls + [GetPeriodsCall];
        notices := [SuccessAlert("Período activado con éxito.")];
      } else {
        notices := [Error("Error al activar el período académico.")];
      }
    }
  }
}
