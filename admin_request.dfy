/** src/app/pages/admin/request/request.component.ts: the administrator's request list, its
    status filter, and the accept / reject / finalize / mark-not-returned dialogs with the
    notes modal. */
module AdminRequest {
  import opened Wrappers
  import opened Seqs
  import opened Text
  import opened Ui
  import opened Requests

  // ---------------------------------------------------------------------------------------
  // The status filter

  /** `filterRequests`: 'todo' keeps the active requests, any other filter the requests whose
      status text equals it; order is kept. */
  function AdminFiltered(requests: seq<LoanRequest>, filter: string): seq<LoanRequest>
  {
    if filter == "todo" then Filter((r: LoanRequest) => IsActiveStatus(r.status), requests)
    else Filter((r: LoanRequest) => StatusText(r.status) == filter, requests)
  }

  /** Membership in the filtered list, for both kinds of filter. */
  lemma AdminFilteredMembership(requests: seq<LoanRequest>, filter: string, r: LoanRequest)
    ensures filter == "todo" ==>
      (r in AdminFiltered(requests, filter) <==> r in requests && r.status in {Pendiente, Prestamo, NoDevuelto})
    ensures filter != "todo" ==>
      (r in AdminFiltered(requests, filter) <==> r in requests && StatusText(r.status) == filter)
  {
    if filter == "todo" {
      FilterMembership((r: LoanRequest) => IsActiveStatus(r.status), requests, r);
    } else {
      FilterMembership((r: LoanRequest) => StatusText(r.status) == filter, requests, r);
    }
  }

  /** Filtering keeps the relative order: filtering a concatenation filters each part. */
  lemma AdminFilteredConcat(a: seq<LoanRequest>, b: seq<LoanRequest>, filter: string)
    ensures AdminFiltered(a + b, filter) == AdminFiltered(a, filter) + AdminFiltered(b, filter)
  {
    if filter == "todo" {
      FilterConcat((r: LoanRequest) => IsActiveStatus(r.status), a, b);
    } else {
      FilterConcat((r: LoanRequest) => StatusText(r.status) == filter, a, b);
    }
  }

  /** A filter naming one of the five statuses keeps exactly the requests with that status. */
  lemma AdminFilteredByStatus(requests: seq<LoanRequest>, s: Status, r: LoanRequest)
    requires WellFormedStatus(r.status) && !s.Other?
    ensures r in AdminFiltered(requests, StatusText(s)) <==> r in requests && r.status == s
  {
    AdminFilteredMembership(requests, StatusText(s), r);
  }

  // ---------------------------------------------------------------------------------------
  // Server error classification

  const AcceptNoPeriodMessage := "No hay un periodo académico activo. No se puede aceptar la solicitud."

  /** One bullet of the insufficient-stock alert. */
  function StockBullet(e: StockError): string
  {
    "• " + e.componentName + ":\n" +
    "  - Cantidad solicitada: " + IntToString(e.requestedQuantity) + "\n" +
    "  - Cantidad disponible: " + IntToString(e.availableQuantity)
  }

  function StockDescription(errors: seq<StockError>): string
  {
    "Los siguientes componentes no tienen stock suficiente:\n\n" + JoinWith(MapSeq(StockBullet, errors), "\n")
  }

  /** The alert for a failed accept. The exact no-period message gives the period notice; any
      `stockErrors` array, even an empty one, gives 'Stock insuficiente'; otherwise the
      server's message, or the default. */
  function AcceptErrorNotice(e: HttpError): (n: Notice)
    ensures ServerMessageOr(e, "Error al aceptar la solicitud") == AcceptNoPeriodMessage ==> n == Error(NoActivePeriodNotice)
    ensures ServerMessageOr(e, "Error al aceptar la solicitud") != AcceptNoPeriodMessage && e.body.Some? && e.body.value.stockErrors.Some? ==>
      n == ErrorAlert("Stock insuficiente", Some(StockDescription(e.body.value.stockErrors.value)))
    ensures ServerMessageOr(e, "Error al aceptar la solicitud") != AcceptNoPeriodMessage && !(e.body.Some? && e.body.value.stockErrors.Some?) ==>
      n == Error(ServerMessageOr(e, "Error al aceptar la solicitud"))
  {
    var m := ServerMessageOr(e, "Error al aceptar la solicitud");
    if m == AcceptNoPeriodMessage then Error(NoActivePeriodNotice)
    else if e.body.Some? && e.body.value.stockErrors.Some? then
      ErrorAlert("Stock insuficiente", Some(StockDescription(e.body.value.stockErrors.value)))
    else Error(m)
  }

  /** The stock alert names every component the server listed, with both quantities. */
  lemma StockAlertListsEveryComponent(e: HttpError, k: int)
    requires ServerMessageOr(e, "Error al aceptar la solicitud") != AcceptNoPeriodMessage
    requires e.body.Some? && e.body.value.stockErrors.Some? && 0 <= k < |e.body.value.stockErrors.value|
    ensures AcceptErrorNotice(e).description.Some?
    ensures Contains(AcceptErrorNotice(e).description.value, StockBullet(e.body.value.stockErrors.value[k]))
  {
    var errors := e.body.value.stockErrors.value;
    var bullets := MapSeq(StockBullet, errors);
    JoinContainsParts(bullets, "\n", k);
    var joined := JoinWith(bullets, "\n");
    var head := "Los siguientes componentes no tienen stock suficiente:\n\n";
    var i :| 0 <= i <= |joined| - |bullets[k]| && OccursAt(joined, bullets[k], i);
    OccursWithin(head, joined, [], bullets[k], i);
    assert head + joined + [] == StockDescription(errors);
    assert OccursAt(StockDescription(errors), bullets[k], |head| + i);
  }

  /** The alert for a failed finalize: any message containing the no-period phrase gives the
      period notice. */
  function FinalizeErrorNotice(e: HttpError): (n: Notice)
    ensures Contains(ServerMessageOr(e, "Error al finalizar la solicitud"), "No hay un periodo académico activo") ==>
      n == Error(NoActivePeriodNotice)
    ensures !Contains(ServerMessageOr(e, "Error al finalizar la solicitud"), "No hay un periodo académico activo") ==>
      n == Error(ServerMessageOr(e, "Error al finalizar la solicitud"))
  {
    var m := ServerMessageOr(e, "Error al finalizar la solicitud");
    if Contains(m, "No hay un periodo académico activo") then Error(NoActivePeriodNotice) else Error(m)
  }

  /** The alert for a failed reject or cancel: only the exact message 'No hay un periodo
      académico activo.' gives the period notice. */
  function ExactPeriodErrorNotice(e: HttpError, default: string): (n: Notice)
    ensures ServerMessageOr(e, default) == "No hay un periodo académico activo." ==> n == Error(NoActivePeriodNotice)
    ensures ServerMessageOr(e, default) != "No hay un periodo académico activo." ==> n == Error(ServerMessageOr(e, default))
  {
    var m := ServerMessageOr(e, default);
    if m == "No hay un periodo académico activo." then Error(NoActivePeriodNotice) else Error(m)
  }

  // ---------------------------------------------------------------------------------------
  // The notes modal dispatch

  /** The confirmation `saveAdminNotes` goes on to. */
  datatype NotesTarget = RejectTarget | MarkNotReturnedTarget | FinalizeTarget

  /** Rejection when the flag is set; otherwise by the status of the first listed request with
      the id: on loan goes to mark-not-returned, anything else (or no such request) to finalize.
      Which button opened the modal plays no part. */
  function NotesTargetFor(isRejectionAction: bool, requests: seq<LoanRequest>, id: int): NotesTarget
  {
    if isRejectionAction then RejectTarget
    else
      var found := Find((r: LoanRequest) => r.requestId == id, requests);
      if found.Some? && found.value.status == Prestamo then MarkNotReturnedTarget else FinalizeTarget
  }

  /** Mark-not-returned is chosen exactly for a request found on loan; finalize otherwise. */
  lemma NotesTargetMeaning(isRejectionAction: bool, requests: seq<LoanRequest>, id: int)
    ensures NotesTargetFor(isRejectionAction, requests, id) == RejectTarget <==> isRejectionAction
    ensures NotesTargetFor(isRejectionAction, requests, id) == MarkNotReturnedTarget <==>
      !isRejectionAction &&
      (exists i ::
         0 <= i < |requests| && requests[i].requestId == id && requests[i].status == Prestamo &&
         forall j :: 0 <= j < i ==> requests[j].requestId != id)
  {
  }

  /** The dispatch never sends a request that cannot be finalized to mark-not-returned:
      mark-not-returned implies the request can be marked (and so finalized). */
  lemma NotesTargetMarkIsAllowed(requests: seq<LoanRequest>, id: int)
    requires NotesTargetFor(false, requests, id) == MarkNotReturnedTarget
    ensures exists r :: r in requests && r.requestId == id && CanMarkAsNotReturned(r) && CanFinalize(r)
  {
    var found := Find((r: LoanRequest) => r.requestId == id, requests);
    assert found.value in requests;
  }

  // ---------------------------------------------------------------------------------------
  // The page

  /** A call made on `RequestService`. */
  datatype ServiceCall =
    | UpdateRequestCall(id: int)
    | RejectRequestCall(id: int, rejectionNotes: string)
    | FinalizeRequestCall(id: int, body: Option<string>)
    | MarkAsNotReturnedCall(id: int, body: Option<string>)
    | DeleteRequestCall(id: int)
    | FetchActiveRequestsCall

  const InvalidIdMessage := "ID de solicitud no válido"

  class RequestPage {
    var requests: seq<LoanRequest>
    var filteredRequests: seq<LoanRequest>
    var selectedFilter: string
    var isLoading: bool
    var adminNotes: string
    var isAdminNotesModalOpen: bool
    var currentRequestId: Option<int>
    var isRejectionAction: bool

    constructor ()
      ensures requests == [] && filteredRequests == [] && selectedFilter == "todo" && !isLoading
      ensures adminNotes == "" && !isAdminNotesModalOpen && currentRequestId == None && !isRejectionAction
    {
      requests := [];
      filteredRequests := [];
      selectedFilter := "todo";
      isLoading := false;
      adminNotes := "";
      isAdminNotesModalOpen := false;
      currentRequestId := None;
      isRejectionAction := false;
    }

    method FilterRequests()
      modifies this
      ensures filteredRequests == AdminFiltered(requests, selectedFilter)
      ensures requests == old(requests) && selectedFilter == old(selectedFilter) && isLoading == old(isLoading)
      ensures adminNotes == old(adminNotes) && isAdminNotesModalOpen == old(isAdminNotesModalOpen)
      ensures currentRequestId == old(currentRequestId) && isRejectionAction == old(isRejectionAction)
    {
      filteredRequests := AdminFiltered(requests, selectedFilter);
    }

    /** `fetchActiveRequests` once the server answered. */
    method OnActiveRequestsLoaded(response: Result<seq<LoanRequest>>) returns (notices: seq<Notice>)
      modifies this
      ensures !isLoading
      ensures response.Ok? ==> requests == response.value && filteredRequests == AdminFiltered(requests, selectedFilter) && notices == []
      ensures response.Err? ==> requests == old(requests) && filteredRequests == old(filteredRequests)
      ensures response.Err? ==> notices == [Error("No se pudieron obtener las solicitudes activas.")]
      ensures selectedFilter == old(selectedFilter) && adminNotes == old(adminNotes)
      ensures isAdminNotesModalOpen == old(isAdminNotesModalOpen) && currentRequestId == old(currentRequestId)
      ensures isRejectionAction == old(isRejectionAction)
    {
      if response.Ok? {
        requests := response.value;
        FilterRequests();
        isLoading := false;
        notices := [];
      } else {
        isLoading := false;
        notices := [Error("No se pudieron obtener las solicitudes activas.")];
      }
    }

    /** `onFilterChange`. */
    method OnFilterChange(value: string)
      modifies this
      ensures selectedFilter == value && filteredRequests == AdminFiltered(requests, value)
      ensures requests == old(requests) && isLoading == old(isLoading) && adminNotes == old(adminNotes)
      ensures isAdminNotesModalOpen == old(isAdminNotesModalOpen) && currentRequestId == old(currentRequestId)
      ensures isRejectionAction == old(isRejectionAction)
    {
      selectedFilter := value;
      FilterRequests();
    }

    /** `acceptRequest`: a falsy id is refused with no call; after confirmation the request is
        accepted and, on success, the list refetched; on failure the classified alert. */
    method AcceptRequest(requestId: Option<int>, confirmed: bool, response: Result<()>) returns (notices: seq<Notice>, calls: seq<ServiceCall>)
      ensures !Truthy(requestId) ==> notices == [Error(InvalidIdMessage)] && calls == []
      ensures Truthy(requestId) && !confirmed ==> notices == [] && calls == []
      ensures Truthy(requestId) && confirmed && response.Ok? ==>
        notices == [SuccessAlert("Solicitud aceptada con éxito")] && calls == [UpdateRequestCall(requestId.value), FetchActiveRequestsCall]
      ensures Truthy(requestId) && confirmed && response.Err? ==>
        notices == [AcceptErrorNotice(response.error)] && calls == [UpdateRequestCall(requestId.value)]
    {
      if !Truthy(requestId) {
        return [Error(InvalidIdMessage)], [];
      }
      notices, calls := [], [];
      if confirmed {
        calls := [UpdateRequestCall(requestId.value)];
        if response.Ok? {
          notices := [SuccessAlert("Solicitud aceptada con éxito")];
          calls := calls + [FetchActiveRequestsCall];
        } else {
          notices := [AcceptErrorNotice(response.error)];
        }
      }
    }

    /** `rejectRequest`: after confirmation the notes modal opens for a rejection. */
    method RejectRequest(requestId: Option<int>, confirmed: bool) returns (notices: seq<Notice>)
      modifies this
      ensures !Truthy(requestId) ==> notices == [Error(InvalidIdMessage)]
      ensures Truthy(requestId) ==> notices == []
      ensures Truthy(requestId) && confirmed ==>
        currentRequestId == requestId && isAdminNotesModalOpen && isRejectionAction
      ensures !(Truthy(requestId) && confirmed) ==>
        currentRequestId == old(currentRequestId) && isAdminNotesModalOpen == old(isAdminNotesModalOpen) &&
        isRejectionAction == old(isRejectionAction)
      ensures requests == old(requests) && filteredRequests == old(filteredRequests) && selectedFilter == old(selectedFilter)
      ensures isLoading == old(isLoading) && adminNotes == old(adminNotes)
    {
      if !Truthy(requestId) {
        return [Error(InvalidIdMessage)];
      }
      notices := [];
      if confirmed {
        currentRequestId := requestId;
        isAdminNotesModalOpen := true;
        isRejectionAction := true;
      }
    }

    /** `confirmFinalizeRequest`: finalize with the notes as body, when confirmed. */
    method ConfirmFinalizeRequest(requestId: int, confirmed: bool, response: Result<()>) returns (notices: seq<Notice>, calls: seq<ServiceCall>)
      ensures !confirmed ==> notices == [] && calls == []
      ensures confirmed && response.Ok? ==>
        notices == [SuccessAlert("Solicitud finalizada con éxito")] &&
        calls == [FinalizeRequestCall(requestId, NotesBody(adminNotes)), FetchActiveRequestsCall]
      ensures confirmed && response.Err? ==>
        notices == [FinalizeErrorNotice(response.error)] && calls == [FinalizeRequestCall(requestId, NotesBody(adminNotes))]
    {
      notices, calls := [], [];
      if confirmed {
        calls := [FinalizeRequestCall(requestId, NotesBody(adminNotes))];
        if response.Ok? {
          notices := [SuccessAlert("Solicitud finalizada con éxito")];
          calls := calls + [FetchActiveRequestsCall];
        } else {
          notices := [FinalizeErrorNotice(response.error)];
        }
      }
    }

    /** `confirmMarkAsNotReturned`: mark as not returned with the notes as body, when confirmed. */
    method ConfirmMarkAsNotReturned(requestId: int, confirmed: bool, response: Result<()>) returns (notices: seq<Notice>, calls: seq<ServiceCall>)
      ensures !confirmed ==> notices == [] && calls == []
      ensures confirmed && response.Ok? ==>
        notices == [SuccessAlert("Solicitud marcada como no devuelta con éxito")] &&
        calls == [MarkAsNotReturnedCall(requestId, NotesBody(adminNotes)), FetchActiveRequestsCall]
      ensures confirmed && response.Err? ==>
        notices == [Error("Error al marcar la solicitud como no devuelta")] &&
        calls == [MarkAsNotReturnedCall(requestId, NotesBody(adminNotes))]
    {
      notices, calls := [], [];
      if confirmed {
        calls := [MarkAsNotReturnedCall(requestId, NotesBody(adminNotes))];
        if response.Ok? {
          notices := [SuccessAlert("Solicitud marcada como no devuelta con éxito")];
          calls := calls + [FetchActiveRequestsCall];
        } else {
          notices := [Error("Error al marcar la solicitud como no devuelta")];
        }
      }
    }

    /** `confirmRejectRequest`: reject with the notes when confirmed; in either case the
        rejection flag and the notes are reset afterwards. */
    method ConfirmRejectRequest(requestId: int, confirmed: bool, response: Result<()>) returns (notices: seq<Notice>, calls: seq<ServiceCall>)
      modifies this
      ensures !isRejectionAction && adminNotes == ""
      ensures !confirmed ==> notices == [] && calls == []
      ensures confirmed && response.Ok? ==>
        notices == [SuccessAlert("Solicitud rechazada con éxito")] &&
        calls == [RejectRequestCall(requestId, old(adminNotes)), FetchActiveRequestsCall]
      ensures confirmed && response.Err? ==>
        notices == [ExactPeriodErrorNotice(response.error, "Error al rechazar la solicitud")] &&
        calls == [RejectRequestCall(requestId, old(adminNotes))]
      ensures requests == old(requests) && filteredRequests == old(filteredRequests) && selectedFilter == old(selectedFilter)
      ensures isLoading == old(isLoading) && isAdminNotesModalOpen == old(isAdminNotesModalOpen)
      ensures currentRequestId == old(currentRequestId)
    {
      notices, calls := [], [];
      if confirmed {
        calls := [RejectRequestCall(requestId, adminNotes)];
        if response.Ok? {
          notices := [SuccessAlert("Solicitud rechazada con éxito")];
          calls := calls + [FetchActiveRequestsCall];
        } else {
          notices := [ExactPeriodErrorNotice(response.error, "Error al rechazar la solicitud")];
        }
      }
      isRejectionAction := false;
      adminNotes := "";
    }

    /** `finalizeRequest`: wanting to add notes opens the modal; otherwise straight to the
        finalize confirmation. */
    method FinalizeRequest(requestId: Option<int>, addNotes: bool, confirmed: bool, response: Result<()>)
      returns (notices: seq<Notice>, calls: seq<ServiceCall>)
      modifies this
      ensures !Truthy(requestId) ==> notices == [Error(InvalidIdMessage)] && calls == [] && currentRequestId == old(currentRequestId)
      ensures Truthy(requestId) && addNotes ==>
        notices == [] && calls == [] && currentRequestId == requestId && isAdminNotesModalOpen
      ensures Truthy(requestId) && !addNotes ==> currentRequestId == old(currentRequestId)
      ensures Truthy(requestId) && !addNotes && !confirmed ==> notices == [] && calls == []
      ensures Truthy(requestId) && !addNotes && confirmed && response.Ok? ==>
        notices == [SuccessAlert("Solicitud finalizada con éxito")] &&
        calls == [FinalizeRequestCall(requestId.value, NotesBody(adminNotes)), FetchActiveRequestsCall]
      ensures Truthy(requestId) && !addNotes && confirmed && response.Err? ==>
        notices == [FinalizeErrorNotice(response.error)] && calls == [FinalizeRequestCall(requestId.value, NotesBody(adminNotes))]
      ensures !(Truthy(requestId) && addNotes) ==> isAdminNotesModalOpen == old(isAdminNotesModalOpen)
      ensures requests == old(requests) && filteredRequests == old(filteredRequests) && selectedFilter == old(selectedFilter)
      ensures isLoading == old(isLoading) && adminNotes == old(adminNotes) && isRejectionAction == old(isRejectionAction)
    {
      if !Truthy(requestId) {
        return [Error(InvalidIdMessage)], [];
      }
      if addNotes {
        currentRequestId := requestId;
        isAdminNotesModalOpen := true;
        return [], [];
      }
      notices, calls := ConfirmFinalizeRequest(requestId.value, confirmed, response);
    }

    /** `markAsNotReturned`: the same two-step flow as finalize, ending in mark-not-returned. */
    method MarkAsNotReturned(requestId: Option<int>, addNotes: bool, confirmed: bool, response: Result<()>)
      returns (notices: seq<Notice>, calls: seq<ServiceCall>)
      modifies this
      ensures !Truthy(requestId) ==> notices == [Error(InvalidIdMessage)] && calls == [] && currentRequestId == old(currentRequestId)
      ensures Truthy(requestId) && addNotes ==>
        notices == [] && calls == [] && currentRequestId == requestId && isAdminNotesModalOpen
      ensures Truthy(requestId) && !addNotes ==> currentRequestId == old(currentRequestId)
      ensures Truthy(requestId) && !addNotes && !confirmed ==> notices == [] && calls == []
      ensures Truthy(requestId) && !addNotes && confirmed && response.Ok? ==>
        notices == [SuccessAlert("Solicitud marcada como no devuelta con éxito")] &&
        calls == [MarkAsNotReturnedCall(requestId.value, NotesBody(adminNotes)), FetchActiveRequestsCall]
      ensures Truthy(requestId) && !addNotes && confirmed && response.Err? ==>
        notices == [Error("Error al marcar la solicitud como no devuelta")] &&
        calls == [MarkAsNotReturnedCall(requestId.value, NotesBody(adminNotes))]
      ensures !(Truthy(requestId) && addNotes) ==> isAdminNotesModalOpen == old(isAdminNotesModalOpen)
      ensures requests == old(requests) && filteredRequests == old(filteredRequests) && selectedFilter == old(selectedFilter)
      ensures isLoading == old(isLoading) && adminNotes == old(adminNotes) && isRejectionAction == old(isRejectionAction)
    {
      if !Truthy(requestId) {
        return [Error(InvalidIdMessage)], [];
      }
      if addNotes {
        currentRequestId := requestId;
        isAdminNotesModalOpen := true;
        return [], [];
      }
      notices, calls := ConfirmMarkAsNotReturned(requestId.value, confirmed, response);
    }

    /** `cancelRequest`: delete after confirmation; a failure is classified like a reject. */
    method CancelRequest(id: int, confirmed: bool, response: Result<()>) returns (notices: seq<Notice>, calls: seq<ServiceCall>)
      ensures !confirmed ==> notices == [] && calls == []
      ensures confirmed && response.Ok? ==>
        notices == [SuccessAlert("Solicitud cancelada exitosamente.")] && calls == [DeleteRequestCall(id), FetchActiveRequestsCall]
      ensures confirmed && response.Err? ==>
        notices == [ExactPeriodErrorNotice(response.error, "Hubo un error al cancelar la solicitud.")] && calls == [DeleteRequestCall(id)]
    {
      notices, calls := [], [];
      if confirmed {
        calls := [DeleteRequestCall(id)];
        if response.Ok? {
          notices := [SuccessAlert("Solicitud cancelada exitosamente.")];
          calls := calls + [FetchActiveRequestsCall];
        } else {
          notices := [ExactPeriodErrorNotice(response.error, "Hubo un error al cancelar la solicitud.")];
        }
      }
    }

    /** `closeAdminNotesModal`. */
    method CloseAdminNotesModal()
      modifies this
      ensures !isAdminNotesModalOpen && adminNotes == "" && currentRequestId == None && !isRejectionAction
      ensures requests == old(requests) && filteredRequests == old(filteredRequests)
      ensures selectedFilter == old(selectedFilter) && isLoading == old(isLoading)
    {
      isAdminNotesModalOpen := false;
      adminNotes := "";
      currentRequestId := None;
      isRejectionAction := false;
    }

    /** `saveAdminNotes`: without a truthy current id nothing happens; otherwise the modal
        closes and the confirmation chosen by `NotesTargetFor` follows, with the notes typed. */
    method SaveAdminNotes(confirmed: bool, response: Result<()>) returns (notices: seq<Notice>, calls: seq<ServiceCall>)
      modifies this
      ensures !Truthy(old(currentRequestId)) ==>
        notices == [] && calls == [] && isAdminNotesModalOpen == old(isAdminNotesModalOpen) &&
        adminNotes == old(adminNotes) && isRejectionAction == old(isRejectionAction)
      ensures Truthy(old(currentRequestId)) ==> !isAdminNotesModalOpen
      ensures Truthy(old(currentRequestId)) ==>
        var id := old(currentRequestId).value;
        match NotesTargetFor(old(isRejectionAction), requests, id)
        case RejectTarget =>
          !isRejectionAction && adminNotes == "" &&
          (confirmed && response.Ok? ==>
             notices == [SuccessAlert("Solicitud rechazada con éxito")] &&
             calls == [RejectRequestCall(id, old(adminNotes)), FetchActiveRequestsCall]) &&
          (confirmed && response.Err? ==>
             notices == [ExactPeriodErrorNotice(response.error, "Error al rechazar la solicitud")] &&
             calls == [RejectRequestCall(id, old(adminNotes))])
        case MarkNotReturnedTarget =>
          adminNotes == old(adminNotes) && isRejectionAction == old(isRejectionAction) &&
          (confirmed && response.Ok? ==>
             notices == [SuccessAlert("Solicitud marcada como no devuelta con éxito")] &&
             calls == [MarkAsNotReturnedCall(id, NotesBody(old(adminNotes))), FetchActiveRequestsCall]) &&
          (confirmed && response.Err? ==>
             notices == [Error("Error al marcar la solicitud como no devuelta")] &&
             calls == [MarkAsNotReturnedCall(id, NotesBody(old(adminNotes)))])
        case FinalizeTarget =>
          adminNotes == old(adminNotes) && isRejectionAction == old(isRejectionAction) &&
          (confirmed && response.Ok? ==>
             notices == [SuccessAlert("Solicitud finalizada con éxito")] &&
             calls == [FinalizeRequestCall(id, NotesBody(old(adminNotes))), FetchActiveRequestsCall]) &&
          (confirmed && response.Err? ==>
             notices == [FinalizeErrorNotice(response.error)] &&
             calls == [FinalizeRequestCall(id, NotesBody(old(adminNotes)))])
      ensures !confirmed ==> notices == [] && calls == []
      ensures currentRequestId == old(currentRequestId)
      ensures requests == old(requests) && filteredRequests == old(filteredRequests)
      ensures selectedFilter == old(selectedFilter) && isLoading == old(isLoading)
    {
      notices, calls := [], [];
      if Truthy(currentRequestId) {
        var id := currentRequestId.value;
        isAdminNotesModalOpen := false;
        var target := NotesTargetFor(isRejectionAction, requests, id);
        match target
        case RejectTarget =>
          notices, calls := ConfirmRejectRequest(id, confirmed, response);
        case MarkNotReturnedTarget =>
          notices, calls := ConfirmMarkAsNotReturned(id, confirmed, response);
        case FinalizeTarget =>
          notices, calls := ConfirmFinalizeRequest(id, confirmed, response);
      }
    }
  }
}
