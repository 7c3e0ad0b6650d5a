/** src/app/pages/user/loans-summary/loans-summary.component.ts: the user's cart page, where
    quantities are edited, entries removed and the loan request is submitted. */
module LoansSummary {
  import opened Wrappers
  import opened Seqs
  import opened Text
  import opened Catalog
  import opened Ui
  import opened Storage
  import opened Requests

  /** The reactive form. `comprobante` records whether a receipt file was patched in; a
      reset or never-filled control is the empty string. */
  datatype LoanForm = LoanForm(typeRequest: string, responsible: string, returnDate: string, comprobante: bool, description: string)

  const EmptyForm := LoanForm("", "", "", false, "")

  /** `dateValidator`: an empty value passes; otherwise the ISO date must not sort before
      today's ISO date (`today` is `new Date().toISOString().split('T')[0]`). */
  predicate DateValid(value: string, today: string)
  {
    value == "" || !LexLess(value, today)
  }

  /** For a non-empty value the validator accepts exactly today and the dates after it. */
  lemma DateValidMeaning(value: string, today: string)
    requires value != ""
    ensures DateValid(value, today) <==> value == today || LexLess(today, value)
  {
    LexTrichotomy(value, today);
  }

  /** `formGroup.valid`: the four required controls are filled and the date validator passes. */
  predicate FormValid(f: LoanForm, today: string)
  {
    f.typeRequest != "" && f.responsible != "" && f.returnDate != "" && DateValid(f.returnDate, today) && f.comprobante
  }

  /** The result of the three checks in `updateQuantity`, in the order they are made. */
  datatype QuantityCheck = NotInteger | NotPositive | AboveAvailable(available: int) | Accepted

  function CheckQuantity(q: real, available: int): QuantityCheck
  {
    if !IsWhole(q) then NotInteger
    else if q <= 0.0 then NotPositive
    else if q > available as real then AboveAvailable(available)
    else Accepted
  }

  /** A quantity is accepted exactly when it is a whole number from 1 to the stock available. */
  lemma CheckQuantityAccepted(q: real, available: int)
    ensures CheckQuantity(q, available) == Accepted <==> IsWhole(q) && 1.0 <= q <= available as real
  {
    if IsWhole(q) && q > 0.0 {
      assert q.Floor as real == q;
      assert q.Floor >= 1;
    }
  }

  /** On an integer entry only the range checks decide: 0 or less is refused, more than the
      stock is refused with the stock, anything else is accepted. */
  lemma CheckQuantityOfInteger(n: int, available: int)
    ensures CheckQuantity(n as real, available) ==
      if n <= 0 then NotPositive else if n > available then AboveAvailable(available) else Accepted
  {
    WholeOfInt(n);
  }

  /** An entry strictly between two consecutive integers is refused as not an integer, whatever
      the stock. */
  lemma CheckQuantityOfFraction(n: int, q: real, available: int)
    requires n as real < q < (n + 1) as real
    ensures CheckQuantity(q, available) == NotInteger
  {
    FractionNotWhole(n, q);
  }

  /** The error shown for a rejected quantity. */
  function QuantityMessage(c: QuantityCheck): string
    requires c != Accepted
  {
    match c
    case NotInteger => "Solo se permiten números enteros."
    case NotPositive => "La cantidad no puede ser menor o igual a 0."
    case AboveAvailable(a) => AboveAvailablePrefix + IntToString(a) + ")."
  }

  const AboveAvailablePrefix := "La cantidad no puede exceder el máximo disponible ("

  /** The message tells which check failed and, for the stock check, the stock itself: two
      rejections with the same message are the same rejection. */
  lemma QuantityMessageInjective(c: QuantityCheck, d: QuantityCheck)
    requires c != Accepted && d != Accepted
    requires QuantityMessage(c) == QuantityMessage(d)
    ensures c == d
  {
    var m := QuantityMessage(c);
    if c.AboveAvailable? && d.AboveAvailable? {
      var k := |AboveAvailablePrefix|;
      assert IntToString(c.available) == m[k..|m| - 2];
      assert IntToString(d.available) == m[k..|m| - 2];
      IntToStringInjective(c.available, d.available);
    } else if c.NotInteger? || d.NotInteger? {
      // The texts differ in their first character unless both are NotInteger.
      assert QuantityMessage(c)[0] != QuantityMessage(d)[0] || c == d;
    } else {
      // Otherwise they differ right after "La cantidad no puede " unless the checks agree.
      assert QuantityMessage(c)[21] != QuantityMessage(d)[21] || c == d;
    }
  }

  /** The messages `submitRequest` shows. */
  const IncompleteFormMessage := "Debe completar todos los campos requeridos."
  const NoComponentMessage := "Debe seleccionar al menos un componente."
  const NoValidComponentMessage := "Debe seleccionar al menos un componente válido."
  const SendingMessage := "Enviando solicitud..."
  const SentMessage := "Solicitud enviada correctamente."
  const SendFailedMessage := "Error al enviar la solicitud."

  /** `selectedComponents.filter(c => c.quantity > 0).map(c => ({componentId, quantity}))`. */
  function PayloadLines(s: seq<ComponentRecord>): (r: seq<RequestLine>)
    ensures |r| <= |s|
    ensures forall i :: 0 <= i < |r| ==> r[i].quantity > 0.0
  {
    MapSeq((c: ComponentRecord) => RequestLine(c.id, c.quantity), Filter((c: ComponentRecord) => c.quantity > 0.0, s))
  }

  /** Every entry with a positive quantity gives a line, and every line comes from such an entry. */
  lemma PayloadLinesMembership(s: seq<ComponentRecord>, l: RequestLine)
    ensures l in PayloadLines(s) <==> exists c :: c in s && c.quantity > 0.0 && l == RequestLine(c.id, c.quantity)
  {
    var f := (c: ComponentRecord) => c.quantity > 0.0;
    var kept := Filter(f, s);
    if l in PayloadLines(s) {
      var i :| 0 <= i < |kept| && PayloadLines(s)[i] == l;
      FilterMembership(f, s, kept[i]);
    }
    if exists c :: c in s && c.quantity > 0.0 && l == RequestLine(c.id, c.quantity) {
      var c :| c in s && c.quantity > 0.0 && l == RequestLine(c.id, c.quantity);
      FilterMembership(f, s, c);
      var i :| 0 <= i < |kept| && kept[i] == c;
      assert PayloadLines(s)[i] == l;
    }
  }

  /** There is no line exactly when no entry has a positive quantity. */
  lemma PayloadLinesEmpty(s: seq<ComponentRecord>)
    ensures PayloadLines(s) == [] <==> forall i :: 0 <= i < |s| ==> s[i].quantity <= 0.0
  {
    var f := (c: ComponentRecord) => c.quantity > 0.0;
    if forall i :: 0 <= i < |s| ==> s[i].quantity <= 0.0 {
      FilterDropsAll(f, s);
    } else {
      var i :| 0 <= i < |s| && s[i].quantity > 0.0;
      FilterMembership(f, s, s[i]);
    }
  }

  /** ['image/png', 'image/jpeg', 'image/jpg', 'application/pdf'] */
  predicate AllowedReceipt(mimeType: string)
  {
    mimeType in {"image/png", "image/jpeg", "image/jpg", "application/pdf"}
  }

  class LoansSummaryPage {
    const service: RequestService
    var selectedComponents: seq<ComponentRecord>
    var totalAmount: real
    var selectedFile: Option<FileInfo>
    var isSubmitting: bool
    var form: LoanForm
    /** Set by `markAllAsTouched`. */
    var touched: bool

    constructor (service: RequestService)
      ensures this.service == service
      ensures selectedComponents == [] && totalAmount == 0.0 && selectedFile == None
      ensures !isSubmitting && form == EmptyForm && !touched
    {
      this.service := service;
      selectedComponents := [];
      totalAmount := 0.0;
      selectedFile := None;
      isSubmitting := false;
      form := EmptyForm;
      touched := false;
    }

    /** `calculateTotal`: the total is the sum of the list's quantities. */
    method CalculateTotal()
      modifies this
      ensures totalAmount == TotalQuantity(selectedComponents)
      ensures selectedComponents == old(selectedComponents) && selectedFile == old(selectedFile)
      ensures isSubmitting == old(isSubmitting) && form == old(form) && touched == old(touched)
    {
      totalAmount := ReduceQuantity(0.0, selectedComponents);
    }

    /** `loadSelectedComponents` (also run by `ngOnInit`): the list is the stored cart. */
    method LoadSelectedComponents()
      modifies this
      ensures selectedComponents == service.GetSelectedComponents()
      ensures totalAmount == TotalQuantity(selectedComponents)
      ensures selectedFile == old(selectedFile) && isSubmitting == old(isSubmitting)
      ensures form == old(form) && touched == old(touched)
    {
      selectedComponents := service.GetSelectedComponents();
      CalculateTotal();
    }

    predicate HasSelectedComponents()
      reads this
    {
      |selectedComponents| > 0
    }

    /** `updateQuantity`. An unknown id does nothing. A rejected quantity shows its error and
        reloads the list from storage (discarding the edit); an accepted one stores the list as
        it is (the template has already written the quantity into it) and recomputes the total. */
    method UpdateQuantity(componentId: int, quantity: real) returns (notices: seq<Notice>)
      modifies this, service.storage
      ensures var found := Find((c: ComponentRecord) => c.id == componentId, old(selectedComponents));
        if found.None? then
          notices == [] && selectedComponents == old(selectedComponents) && totalAmount == old(totalAmount) &&
          service.storage.selectedComponents == old(service.storage.selectedComponents)
        else if CheckQuantity(quantity, found.value.availableQuantity) != Accepted then
          notices == [Error(QuantityMessage(CheckQuantity(quantity, found.value.availableQuantity)))] &&
          service.storage.selectedComponents == old(service.storage.selectedComponents) &&
          selectedComponents == service.GetSelectedComponents() && totalAmount == TotalQuantity(selectedComponents)
        else
          notices == [] && selectedComponents == old(selectedComponents) &&
          service.storage.selectedComponents == Some(selectedComponents) && totalAmount == TotalQuantity(selectedComponents)
      ensures selectedFile == old(selectedFile) && isSubmitting == old(isSubmitting)
      ensures form == old(form) && touched == old(touched)
    {
      var found := Find((c: ComponentRecord) => c.id == componentId, selectedComponents);
      if found.None? {
        return [];
      }
      var check := CheckQuantity(quantity, found.value.availableQuantity);
      if check != Accepted {
        notices := [Error(QuantityMessage(check))];
        LoadSelectedComponents();
        return;
      }
      service.SetSelectedComponents(selectedComponents);
      CalculateTotal();
      notices := [];
    }

    /** `removeComponent`: after confirmation, every entry with the id is dropped from the list
        and from storage, the total is recomputed and an info toast shown; otherwise nothing. */
    method RemoveComponent(componentId: int, confirmed: bool) returns (notices: seq<Notice>)
      modifies this, service.storage
      ensures confirmed ==>
        selectedComponents == RemoveId(old(selectedComponents), componentId) &&
        service.storage.selectedComponents == Some(selectedComponents) &&
        totalAmount == TotalQuantity(selectedComponents) &&
        notices == [Toast("info", "Componente eliminado")]
      ensures !confirmed ==>
        selectedComponents == old(selectedComponents) && totalAmount == old(totalAmount) &&
        service.storage.selectedComponents == old(service.storage.selectedComponents) && notices == []
      ensures selectedFile == old(selectedFile) && isSubmitting == old(isSubmitting)
      ensures form == old(form) && touched == old(touched)
    {
      if !confirmed {
        return [];
      }
      selectedComponents := RemoveId(selectedComponents, componentId);
      service.SetSelectedComponents(selectedComponents);
      CalculateTotal();
      notices := [Toast("info", "Componente eliminado")];
    }

    /** `onFileChange`: a file of an allowed type becomes the receipt; any other type is refused
        with an error and leaves the form as it was; no file does nothing. */
    method OnFileChange(file: Option<FileInfo>) returns (notices: seq<Notice>)
      modifies this
      ensures file.Some? && AllowedReceipt(file.value.mimeType) ==>
        selectedFile == file && form == old(form).(comprobante := true) && notices == []
      ensures file.Some? && !AllowedReceipt(file.value.mimeType) ==>
        selectedFile == old(selectedFile) && form == old(form) &&
        notices == [Error("Solo se permiten archivos PNG, JPG, JPEG y PDF.")]
      ensures file.None? ==> selectedFile == old(selectedFile) && form == old(form) && notices == []
      ensures selectedComponents == old(selectedComponents) && totalAmount == old(totalAmount)
      ensures isSubmitting == old(isSubmitting) && touched == old(touched)
    {
      notices := [];
      if file.Some? {
        if !AllowedReceipt(file.value.mimeType) {
          notices := [Error("Solo se permiten archivos PNG, JPG, JPEG y PDF.")];
        } else {
          selectedFile := file;
          form := form.(comprobante := true);
        }
      }
    }

    /** `submitRequest`. The guards run in order: invalid form, empty list, no line with a
        positive quantity; each shows its error and sends nothing. Then the loading alert is
        shown and `isSubmitting` set. `sent` is the body posted, `None` when nothing was posted
        (a guard failed, or `createRequest` threw because the user id is unknown, which leaves
        the page submitting). On success the list, the total, the form and the stored cart are
        cleared (`reset` also un-touches the controls) and `isSubmitting` is reset by `complete`; on error only the error is shown and
        `isSubmitting` stays set, because `complete` does not run after `error`. */
    method SubmitRequest(today: string, response: Result<()>) returns (notices: seq<Notice>, sent: Option<RequestPayload>)
      modifies this, service.storage
      ensures !FormValid(old(form), today) ==>
        touched && notices == [Error(IncompleteFormMessage)] && sent.None? &&
        isSubmitting == old(isSubmitting) && selectedComponents == old(selectedComponents) &&
        totalAmount == old(totalAmount) && form == old(form)
      ensures FormValid(old(form), today) && old(selectedComponents) == [] ==>
        notices == [Error(NoComponentMessage)] && sent.None? && isSubmitting == old(isSubmitting)
      ensures FormValid(old(form), today) && old(selectedComponents) != [] && PayloadLines(old(selectedComponents)) == [] ==>
        notices == [Error(NoValidComponentMessage)] && sent.None? && isSubmitting == old(isSubmitting)
      ensures FormValid(old(form), today) && PayloadLines(old(selectedComponents)) == [] ==>
        selectedComponents == old(selectedComponents) && totalAmount == old(totalAmount) &&
        form == old(form) && touched == old(touched)
      ensures FormValid(old(form), today) && PayloadLines(old(selectedComponents)) != [] && !service.IsAuthenticated() ==>
        notices == [LoadingAlert(SendingMessage)] && sent.None? && isSubmitting &&
        selectedComponents == old(selectedComponents) && totalAmount == old(totalAmount) &&
        form == old(form) && touched == old(touched)
      ensures sent.Some? ==>
        FormValid(old(form), today) && service.IsAuthenticated() &&
        sent == service.CreateRequestPayload(
          RequestData(old(form).description, old(form).typeRequest, old(form).returnDate, old(form).responsible, ""),
          PayloadLines(old(selectedComponents)), old(selectedFile).Some?)
      ensures FormValid(old(form), today) && PayloadLines(old(selectedComponents)) != [] && service.IsAuthenticated() ==>
        sent.Some? &&
        if response.Ok? then
          notices == [LoadingAlert(SendingMessage), SuccessAlert(SentMessage)] &&
          selectedComponents == [] && totalAmount == 0.0 && form == EmptyForm && !touched &&
          service.storage.selectedComponents == Some([]) && !isSubmitting
        else
          notices == [LoadingAlert(SendingMessage), Error(SendFailedMessage)] &&
          selectedComponents == old(selectedComponents) && totalAmount == old(totalAmount) &&
          form == old(form) && touched == old(touched) && isSubmitting
      ensures sent.None? ==> service.storage.selectedComponents == old(service.storage.selectedComponents)
      ensures selectedFile == old(selectedFile)
    {
      sent := None;
      if !FormValid(form, today) {
        touched := true;
        return [Error(IncompleteFormMessage)], None;
      }
      if !HasSelectedComponents() {
        return [Error(NoComponentMessage)], None;
      }
      var lines := PayloadLines(selectedComponents);
      if |lines| == 0 {
        return [Error(NoValidComponentMessage)], None;
      }
      notices := [LoadingAlert(SendingMessage)];
      isSubmitting := true;
      var data := RequestData(form.description, form.typeRequest, form.returnDate, form.responsible, "");
      sent := service.CreateRequestPayload(data, lines, selectedFile.Some?);
      if sent.None? {
        return;
      }
      if response.Ok? {
        notices := notices + [SuccessAlert(SentMessage)];
        selectedComponents := [];
        totalAmount := 0.0;
        form := EmptyForm;
        touched := false;
        service.SetSelectedComponents([]);
        isSubmitting := false;
      } else {
        notices := notices + [Error(SendFailedMessage)];
      }
    }
  }
}
