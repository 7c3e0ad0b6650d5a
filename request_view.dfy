/** src/app/pages/user/request-view/request-view.component.ts: the user's own requests by
    status, numbered for display, and the dialog that asks for a new return date. */
module RequestView {
  import opened Wrappers
  import opened Seqs
  import opened Dates
  import opened Ui
  import opened Requests

  /** `{...request, displayId}`. */
  datatype NumberedRequest = NumberedRequest(request: LoanRequest, displayId: int)

  /** `filterRequests`: the requests with the selected status, in order, numbered from 1. */
  function Numbered(requests: seq<LoanRequest>, status: string): (r: seq<NumberedRequest>)
  {
    var kept := Filter((x: LoanRequest) => StatusText(x.status) == status, requests);
    seq(|kept|, i requires 0 <= i < |kept| => NumberedRequest(kept[i], i + 1))
  }

  /** The display ids are exactly 1..n, and a request is listed exactly when it has the status. */
  lemma NumberedMeaning(requests: seq<LoanRequest>, status: string, x: LoanRequest)
    ensures forall i :: 0 <= i < |Numbered(requests, status)| ==> Numbered(requests, status)[i].displayId == i + 1
    ensures (exists i :: 0 <= i < |Numbered(requests, status)| && Numbered(requests, status)[i].request == x) <==>
      x in requests && StatusText(x.status) == status
  {
    var f := (x: LoanRequest) => StatusText(x.status) == status;
    var kept := Filter(f, requests);
    FilterMembership(f, requests, x);
    if x in kept {
      var i :| 0 <= i < |kept| && kept[i] == x;
      assert Numbered(requests, status)[i].request == x;
    }
  }

  /** Numbering a concatenation continues the count of the first part. */
  lemma NumberedConcat(a: seq<LoanRequest>, b: seq<LoanRequest>, status: string)
    ensures |Numbered(a + b, status)| == |Numbered(a, status)| + |Numbered(b, status)|
    ensures forall i :: 0 <= i < |Numbered(b, status)| ==>
      Numbered(a + b, status)[|Numbered(a, status)| + i] ==
        Numbered(b, status)[i].(displayId := |Numbered(a, status)| + i + 1)
  {
    FilterConcat((x: LoanRequest) => StatusText(x.status) == status, a, b);
  }

  /** The error `validateDate` sets; `None` when the date is accepted. `parsed` is
      `new Date(selectedDate)` and `now` the current time: only a date strictly before now is
      refused, so an unparsable one passes. */
  function DateError(selectedDate: Option<string>, parsed: Instant, now: int): Option<string>
  {
    if selectedDate.None? || selectedDate.value == "" then Some("La fecha es requerida.")
    else if Before(parsed, At(now)) then Some("La fecha debe ser igual o mayor a la fecha actual.")
    else None
  }

  /** A date is accepted exactly when one is given and it is not a valid date before now. */
  lemma DateErrorMeaning(selectedDate: Option<string>, parsed: Instant, now: int)
    ensures DateError(selectedDate, parsed, now).None? <==>
      selectedDate.Some? && selectedDate.value != "" && (parsed.InvalidDate? || parsed.ms >= now)
    ensures selectedDate.Some? && selectedDate.value != "" && parsed.InvalidDate? ==> DateError(selectedDate, parsed, now).None?
  {
  }

  /** A call made on `RequestService`. */
  datatype ServiceCall =
    | GetRequestsByFilterCall(filters: RequestFilters)
    | UpdateReturnDateCall(id: int, newReturnDate: string)

  class RequestViewPage {
    var requests: seq<LoanRequest>
    var filteredRequests: seq<NumberedRequest>
    var selectedStatus: string
    var userId: Option<int>
    var isModalOpen: bool
    var selectedDate: Option<string>
    var dateError: Option<string>
    var isDateValid: bool
    var selectedRequest: Option<LoanRequest>
    var requestInProgress: bool

    constructor ()
      ensures requests == [] && filteredRequests == [] && selectedStatus == "pendiente" && userId == None
      ensures !isModalOpen && selectedDate == None && dateError == None && !isDateValid
      ensures selectedRequest == None && !requestInProgress
    {
      requests := [];
      filteredRequests := [];
      selectedStatus := "pendiente";
      userId := None;
      isModalOpen := false;
      selectedDate := None;
      dateError := None;
      isDateValid := false;
      selectedRequest := None;
      requestInProgress := false;
    }

    /** `loadRequests`: without a truthy user id an error and no fetch; otherwise the fetch of
        this user's requests with the selected status. */
    method LoadRequests() returns (notices: seq<Notice>, calls: seq<ServiceCall>)
      ensures !Truthy(userId) ==> notices == [Error("Usuario no autenticado.")] && calls == []
      ensures Truthy(userId) ==>
        notices == [] && calls == [GetRequestsByFilterCall(RequestFilters(Some(selectedStatus), None, userId))]
    {
      if !Truthy(userId) {
        return [Error("Usuario no autenticado.")], [];
      }
      notices := [];
      calls := [GetRequestsByFilterCall(RequestFilters(Some(selectedStatus), None, userId))];
    }

    /** The answer to the fetch `loadRequests` made. */
    method OnRequestsLoaded(response: Result<seq<LoanRequest>>) returns (notices: seq<Notice>)
      modifies this
      ensures response.Ok? ==> requests == response.value && filteredRequests == Numbered(requests, selectedStatus) && notices == []
      ensures response.Err? ==> requests == old(requests) && filteredRequests == old(filteredRequests)
      ensures response.Err? ==> notices == [Error("Error al cargar las solicitudes.")]
      ensures selectedStatus == old(selectedStatus) && userId == old(userId) && isModalOpen == old(isModalOpen)
      ensures selectedDate == old(selectedDate) && dateError == old(dateError) && isDateValid == old(isDateValid)
      ensures selectedRequest == old(selectedRequest) && requestInProgress == old(requestInProgress)
    {
      if response.Err? {
        return [Error("Error al cargar las solicitudes.")];
      }
      requests := response.value;
      FilterRequests();
      notices := [];
    }

    method FilterRequests()
      modifies this
      ensures filteredRequests == Numbered(requests, selectedStatus)
      ensures requests == old(requests) && selectedStatus == old(selectedStatus) && userId == old(userId)
      ensures isModalOpen == old(isModalOpen) && selectedDate == old(selectedDate) && dateError == old(dateError)
      ensures isDateValid == old(isDateValid) && selectedRequest == old(selectedRequest)
      ensures requestInProgress == old(requestInProgress)
    {
      filteredRequests := Numbered(requests, selectedStatus);
    }

    /** `loadUserDetails`: on success the user id is stored and the requests fetched; on
        failure an error and no id. */
    method LoadUserDetails(me: Result<Option<int>>) returns (notices: seq<Notice>, calls: seq<ServiceCall>)
      modifies this`userId
      ensures me.Ok? ==> userId == me.value
      ensures me.Ok? && Truthy(userId) ==>
        notices == [] && calls == [GetRequestsByFilterCall(RequestFilters(Some(selectedStatus), None, userId))]
      ensures me.Ok? && !Truthy(userId) ==> notices == [Error("Usuario no autenticado.")] && calls == []
      ensures me.Err? ==> userId == None && notices == [Error("Error al obtener los detalles del usuario.")] && calls == []
      ensures selectedStatus == old(selectedStatus) && requests == old(requests) && filteredRequests == old(filteredRequests)
    {
      if me.Err? {
        userId := None;
        return [Error("Error al obtener los detalles del usuario.")], [];
      }
      userId := me.value;
      notices, calls := LoadRequests();
    }

    /** `onStatusChange`: a new status refetches. */
    method OnStatusChange(value: string) returns (notices: seq<Notice>, calls: seq<ServiceCall>)
      modifies this`selectedStatus
      ensures selectedStatus == value && userId == old(userId)
      ensures Truthy(userId) ==> notices == [] && calls == [GetRequestsByFilterCall(RequestFilters(Some(value), None, userId))]
      ensures !Truthy(userId) ==> calls == [] && notices == [Error("Usuario no autenticado.")]
      ensures requests == old(requests) && filteredRequests == old(filteredRequests)
    {
      selectedStatus := value;
      notices, calls := LoadRequests();
    }

    method OpenModal(request: LoanRequest)
      modifies this`selectedRequest, this`isModalOpen
      ensures selectedRequest == Some(request) && isModalOpen
      ensures selectedDate == old(selectedDate) && dateError == old(dateError) && isDateValid == old(isDateValid)
      ensures requests == old(requests) && filteredRequests == old(filteredRequests) && requestInProgress == old(requestInProgress)
    {
      selectedRequest := Some(request);
      isModalOpen := true;
    }

    /** `closeModal`: the dialog closes and its date, error, validity and request are reset. */
    method CloseModal()
      modifies this`isModalOpen, this`selectedDate, this`dateError, this`isDateValid, this`selectedRequest
      ensures !isModalOpen && selectedDate == None && dateError == None && !isDateValid && selectedRequest == None
      ensures requests == old(requests) && filteredRequests == old(filteredRequests) && selectedStatus == old(selectedStatus)
      ensures userId == old(userId) && requestInProgress == old(requestInProgress)
    {
      isModalOpen := false;
      selectedDate := None;
      dateError := None;
      isDateValid := false;
      selectedRequest := None;
    }

    /** `validateDate`: the error is `DateError`, and the date is valid exactly when there is none. */
    method ValidateDate(parsed: Instant, now: int)
      modifies this`dateError, this`isDateValid
      ensures dateError == DateError(selectedDate, parsed, now)
      ensures isDateValid <==> dateError == None
      ensures selectedDate == old(selectedDate) && selectedRequest == old(selectedRequest) && isModalOpen == old(isModalOpen)
      ensures requests == old(requests) && filteredRequests == old(filteredRequests) && requestInProgress == old(requestInProgress)
    {
      if selectedDate.None? || selectedDate.value == "" {
        dateError := Some("La fecha es requerida.");
        isDateValid := false;
        return;
      }
      if Before(parsed, At(now)) {
        dateError := Some("La fecha debe ser igual o mayor a la fecha actual.");
        isDateValid := false;
      } else {
        dateError := None;
        isDateValid := true;
      }
    }

    /** `submitReturnDate`: without a request and a date, an error, no call, and
        `requestInProgress` untouched; otherwise the new date is sent, and on success the
        dialog closes and the requests are refetched. Either answer ends the request. */
    method SubmitReturnDate(response: Result<()>) returns (notices: seq<Notice>, calls: seq<ServiceCall>)
      modifies this`requestInProgress, this`isModalOpen, this`selectedDate, this`dateError, this`isDateValid,
              this`selectedRequest
      ensures old(selectedRequest).None? || old(selectedDate).None? || old(selectedDate).value == "" ==>
        notices == [Error("Debe seleccionar una solicitud y una fecha válida.")] && calls == [] &&
        requestInProgress == old(requestInProgress) && isModalOpen == old(isModalOpen) && selectedRequest == old(selectedRequest) &&
        selectedDate == old(selectedDate) && dateError == old(dateError) && isDateValid == old(isDateValid)
      ensures old(selectedRequest).Some? && old(selectedDate).Some? && old(selectedDate).value != "" ==>
        !requestInProgress && |calls| >= 1 &&
        calls[0] == UpdateReturnDateCall(old(selectedRequest).value.requestId, old(selectedDate).value)
      ensures old(selectedRequest).Some? && old(selectedDate).Some? && old(selectedDate).value != "" && response.Ok? ==>
        notices == [SuccessAlert("Fecha de retorno actualizada con éxito.")] +
          (if Truthy(userId) then [] else [Error("Usuario no autenticado.")]) &&
        calls == [UpdateReturnDateCall(old(selectedRequest).value.requestId, old(selectedDate).value)] +
          (if Truthy(userId) then [GetRequestsByFilterCall(RequestFilters(Some(selectedStatus), None, userId))] else []) &&
        !isModalOpen && selectedDate == None && dateError == None && !isDateValid && selectedRequest == None
      ensures old(selectedRequest).Some? && old(selectedDate).Some? && old(selectedDate).value != "" && response.Err? ==>
        notices == [Error(ServerMessageOr(response.error, "Ocurrió un error al actualizar la fecha de retorno."))] &&
        calls == [UpdateReturnDateCall(old(selectedRequest).value.requestId, old(selectedDate).value)] &&
        isModalOpen == old(isModalOpen) && selectedRequest == old(selectedRequest) && selectedDate == old(selectedDate) &&
        dateError == old(dateError) && isDateValid == old(isDateValid)
      ensures requests == old(requests) && filteredRequests == old(filteredRequests) && selectedStatus == old(selectedStatus)
    {
      if selectedRequest.None? || selectedDate.None? || selectedDate.value == "" {
        return [Error("Debe seleccionar una solicitud y una fecha válida.")], [];
      }
      requestInProgress := true;
      calls := [UpdateReturnDateCall(selectedRequest.value.requestId, selectedDate.value)];
      if response.Ok? {
        notices := [SuccessAlert("Fecha de retorno actualizada con éxito.")];
        CloseModal();
        var more, fetch := LoadRequests();
        notices := notices + more;
        calls := calls + fetch;
        requestInProgress := false;
      } else {
        notices := [Error(ServerMessageOr(response.error, "Ocurrió un error al actualizar la fecha de retorno."))];
        requestInProgress := false;
      }
    }
  }
}
