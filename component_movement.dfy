/** src/app/pages/admin/component-movement/component-movement.component.ts: recording a stock
    movement (ingreso / egreso) for an existing component, or creating a new component with
    its first ingreso, with the field-by-field validity flags. */
module ComponentMovement {
  import opened Wrappers
  import opened Text
  import opened Catalog
  import opened Ui

  /** The messages the page shows. */
  const IncompleteFormMessage := "Por favor complete todos los campos obligatorios correctamente."
  const MissingImageMessage := "Debe seleccionar una imagen."
  const ComponentCreatedMessage := "Componente y movimiento de ingreso creados satisfactoriamente."
  const CreateFailedMessage := "Hubo un error al intentar crear el componente."
  const MovementFailedMessage := "Hubo un error al procesar el movimiento."
  const WholeQuantityMessage := "La cantidad debe ser un número entero."
  const ReasonRequiredMessage := "La razón del movimiento es obligatoria."
  const ImageTypeMessage := "Solo se permiten archivos JPEG, JPG y PNG."

  /** A field that has a character other than whitespace, scanned from the front. */
  predicate NonBlank(s: string)
  {
    s != [] && (!IsSpace(s[0]) || NonBlank(s[1..]))
  }

  /** The scan finds a non-whitespace character exactly when the string is not blank. */
  lemma {:induction false} NonBlankNotBlank(s: string)
    ensures NonBlank(s) <==> !IsBlank(s)
  {
    if s != [] {
      NonBlankNotBlank(s[1..]);
      if IsSpace(s[0]) && !IsBlank(s[1..]) {
        var i :| 0 <= i < |s[1..]| && !IsSpace(s[1..][i]);
        assert !IsSpace(s[i + 1]);
      }
      if IsBlank(s) {
        assert forall i :: 0 <= i < |s[1..]| ==> s[1..][i] == s[i + 1];
      }
    }
  }

  /** The source's `s.trim().length > 0` holds exactly for the non-blank strings. */
  lemma NonBlankMeaning(s: string)
    ensures NonBlank(s) <==> |Trim(s)| > 0
  {
    NonBlankNotBlank(s);
    TrimEmptyIffBlank(s);
  }

  /** The `trim().length > 0` check of one field. */
  method CheckText(s: string) returns (filled: bool)
    ensures filled <==> NonBlank(s)
  {
    NonBlankMeaning(s);
    filled := |Trim(s)| > 0;
  }

  /** `validateForm`: a quantity above 0 and a reason. */
  predicate MovementFormValid(quantity: Option<real>, reason: string)
  {
    quantity.Some? && quantity.value > 0.0 && NonBlank(reason)
  }

  /** The new-component form; `categoryId` is `None` for the empty choice. */
  datatype NewComponent = NewComponent(name: string, categoryId: Option<int>, quantity: Option<real>, description: string, isActive: bool)

  const BlankNewComponent := NewComponent("", None, None, "", false)

  /** `validateForm2`: the six conditions for creating a component. */
  predicate NewComponentFormValid(c: NewComponent, reason: string, image: Option<FileInfo>)
  {
    NonBlank(c.name) && Truthy(c.categoryId) && c.quantity.Some? && c.quantity.value > 0.0 &&
    NonBlank(c.description) && NonBlank(reason) && image.Some?
  }

  /** The five text and number flags of `validateForm2`, as they should stand for the given new
      component and reason. */
  predicate FlagsFor(name: bool, category: bool, quantity: bool, description: bool, reasonFlag: bool,
                     c: NewComponent, reason: string)
  {
    (name <==> NonBlank(c.name)) &&
    (category <==> Truthy(c.categoryId)) &&
    (quantity <==> c.quantity.Some? && c.quantity.value > 0.0) &&
    (description <==> NonBlank(c.description)) &&
    (reasonFlag <==> NonBlank(reason))
  }

  /** The second guard of `createComponent` (a blank reason) cannot fire once `validateForm2`
      has passed: the first guard already requires a reason. */
  lemma CreateComponentReasonGuardRedundant(c: NewComponent, reason: string, image: Option<FileInfo>)
    requires NewComponentFormValid(c, reason, image)
    ensures |Trim(reason)| != 0
  {
    NonBlankMeaning(reason);
  }

  /** The quantity checks of `onQuantityChange`: `None` when the value is not an integer
      (a null included); otherwise whether it is above 0. */
  function QuantityFlag(quantity: Option<real>): Option<bool>
  {
    if quantity.None? || !IsWhole(quantity.value) then None else Some(quantity.value > 0.0)
  }

  /** On `onQuantityChange` a quantity is flagged valid exactly when it is a positive integer. */
  lemma QuantityFlagMeaning(quantity: Option<real>)
    ensures QuantityFlag(quantity) == Some(true) <==> quantity.Some? && IsWhole(quantity.value) && quantity.value >= 1.0
  {
    if quantity.Some? && IsWhole(quantity.value) && quantity.value > 0.0 {
      assert quantity.value.Floor as real == quantity.value;
      assert quantity.value.Floor >= 1;
    }
  }

  /** An integer entry is never reported: it is flagged by its sign alone. A fractional entry
      is always reported. */
  lemma QuantityFlagOfNumber(n: int, q: real)
    ensures QuantityFlag(Some(n as real)) == Some(n > 0)
    ensures n as real < q < (n + 1) as real ==> QuantityFlag(Some(q)) == None
  {
    WholeOfInt(n);
    if n as real < q < (n + 1) as real {
      FractionNotWhole(n, q);
    }
  }

  /** ['image/jpeg', 'image/jpg', 'image/png'] */
  predicate AllowedImage(mimeType: string)
  {
    mimeType in {"image/jpeg", "image/jpg", "image/png"}
  }

  /** The alert for a failed movement or creation: a message mentioning the reason, the exact
      no-period message, or the server's message (with the default). */
  function MovementErrorNotice(e: HttpError, default: string): (n: Notice)
    ensures Contains(ServerMessageOr(e, default), "razón del movimiento") ==> n == Error(ReasonRequiredMessage)
    ensures !Contains(ServerMessageOr(e, default), "razón del movimiento") && ServerMessageOr(e, default) == "No hay un periodo académico activo disponible." ==>
      n == Error(NoActivePeriodNotice)
    ensures !Contains(ServerMessageOr(e, default), "razón del movimiento") && ServerMessageOr(e, default) != "No hay un periodo académico activo disponible." ==>
      n == Error(ServerMessageOr(e, default))
  {
    var m := ServerMessageOr(e, default);
    if Contains(m, "razón del movimiento") then Error(ReasonRequiredMessage)
    else if m == "No hay un periodo académico activo disponible." then Error(NoActivePeriodNotice)
    else Error(m)
  }

  /** The body of `createComponentMovement`. */
  datatype Movement = Movement(componentId: Option<int>, quantity: Option<real>, reason: string, movementType: string)

  /** A call made on a service. */
  datatype ServiceCall =
    | CreateMovementCall(movement: Movement)
    | CreateComponentCall(component: NewComponent, reason: string, image: Option<FileInfo>)
    | SearchByNameCall(term: string)
    | GetComponentsCall

  class ComponentMovementPage {
    var searchTerm: string
    var showComponentList: bool
    var isAddingComponent: bool
    var selectedType: string
    var selectedComponent: Option<ComponentRecord>
    var quantity: Option<real>
    var reason: string
    var newComponent: NewComponent
    var selectedImage: Option<FileInfo>
    var showErrors: bool
    var quantityValid: bool
    var reasonValid: bool
    var nameValid: bool
    var categoryValid: bool
    var quantityValid2: bool
    var descriptionValid: bool
    var imageValid: bool

    constructor ()
      ensures searchTerm == "" && !showComponentList && !isAddingComponent && selectedType == "Ingreso"
      ensures selectedComponent == None && quantity == None && reason == "" && newComponent == BlankNewComponent
      ensures selectedImage == None && !showErrors
      ensures quantityValid && reasonValid && nameValid && categoryValid && quantityValid2 && descriptionValid && imageValid
    {
      searchTerm := "";
      showComponentList := false;
      isAddingComponent := false;
      selectedType := "Ingreso";
      selectedComponent := None;
      quantity := None;
      reason := "";
      newComponent := BlankNewComponent;
      selectedImage := None;
      showErrors := false;
      quantityValid := true;
      reasonValid := true;
      nameValid := true;
      categoryValid := true;
      quantityValid2 := true;
      descriptionValid := true;
      imageValid := true;
    }

    /** `validateForm`: sets the two flags it checks and returns their conjunction. */
    method ValidateForm() returns (valid: bool)
      modifies this`quantityValid, this`reasonValid
      ensures quantityValid <==> quantity.Some? && quantity.value > 0.0
      ensures reasonValid <==> NonBlank(reason)
      ensures valid <==> MovementFormValid(quantity, reason)
    {
      quantityValid := quantity.Some? && quantity.value > 0.0;
      reasonValid := CheckText(reason);
      valid := quantityValid && reasonValid;
    }

    /** The three text checks of `validateForm2`. */
    method ValidateTextFields()
      modifies this`nameValid, this`descriptionValid, this`reasonValid
      ensures nameValid <==> NonBlank(newComponent.name)
      ensures descriptionValid <==> NonBlank(newComponent.description)
      ensures reasonValid <==> NonBlank(reason)
      ensures categoryValid == old(categoryValid) && imageValid == old(imageValid)
      ensures searchTerm == old(searchTerm) && isAddingComponent == old(isAddingComponent)
    {
      nameValid := CheckText(newComponent.name);
      descriptionValid := CheckText(newComponent.description);
      reasonValid := CheckText(reason);
    }

    /** `validateForm2`: sets the six flags; a missing image is reported when errors are shown. */
    method ValidateForm2() returns (valid: bool, notices: seq<Notice>)
      modifies this`nameValid, this`categoryValid, this`quantityValid2, this`descriptionValid
      modifies this`reasonValid, this`imageValid
      ensures nameValid <==> NonBlank(newComponent.name)
      ensures categoryValid <==> Truthy(newComponent.categoryId)
      ensures quantityValid2 <==> newComponent.quantity.Some? && newComponent.quantity.value > 0.0
      ensures descriptionValid <==> NonBlank(newComponent.description)
      ensures reasonValid <==> NonBlank(reason)
      ensures imageValid <==> selectedImage.Some?
      ensures FlagsFor(nameValid, categoryValid, quantityValid2, descriptionValid, reasonValid, newComponent, reason)
      ensures valid <==> NewComponentFormValid(newComponent, reason, selectedImage)
      ensures notices == if selectedImage.None? && showErrors then [Error(MissingImageMessage)] else []
    {
      categoryValid := Truthy(newComponent.categoryId);
      quantityValid2 := newComponent.quantity.Some? && newComponent.quantity.value > 0.0;
      imageValid := selectedImage.Some?;
      ValidateTextFields();
      notices := [];
      if !imageValid && showErrors {
        notices := [Error(MissingImageMessage)];
      }
      valid := nameValid && categoryValid && quantityValid2 && descriptionValid && reasonValid && imageValid;
    }

    /** `onQuantityChange`: a non-integer (or null) is reported and flagged invalid; an integer
        is flagged valid exactly when above 0. */
    method OnQuantityChange() returns (notices: seq<Notice>)
      modifies this`quantityValid
      ensures QuantityFlag(quantity) == None ==> !quantityValid && notices == [Error(WholeQuantityMessage)]
      ensures QuantityFlag(quantity).Some? ==> quantityValid == QuantityFlag(quantity).value && notices == []
    {
      if quantity.None? || !IsWhole(quantity.value) {
        quantityValid := false;
        return [Error(WholeQuantityMessage)];
      }
      quantityValid := quantity.value > 0.0;
      notices := [];
    }

    /** `onQuantityChange2`: the same checks on the new component's quantity. */
    method OnQuantityChange2() returns (notices: seq<Notice>)
      modifies this`quantityValid2
      ensures QuantityFlag(newComponent.quantity) == None ==> !quantityValid2 && notices == [Error(WholeQuantityMessage)]
      ensures QuantityFlag(newComponent.quantity).Some? ==> quantityValid2 == QuantityFlag(newComponent.quantity).value && notices == []
    {
      if newComponent.quantity.None? || !IsWhole(newComponent.quantity.value) {
        quantityValid2 := false;
        return [Error(WholeQuantityMessage)];
      }
      quantityValid2 := newComponent.quantity.value > 0.0;
      notices := [];
    }

    /** The state `resetForm` leaves: no component, quantity, reason, search or image, the
        type back to 'Ingreso', a blank new component and no errors shown. */
    predicate FormReset()
      reads this
    {
      quantity == None && reason == "" && selectedComponent == None && searchTerm == "" &&
      selectedType == "Ingreso" && newComponent == BlankNewComponent && selectedImage == None &&
      imageValid && !showErrors
    }

    /** `resetForm`. */
    method ResetForm()
      modifies this`quantity, this`reason, this`selectedComponent, this`searchTerm, this`selectedType
      modifies this`newComponent, this`selectedImage, this`imageValid, this`showErrors
      ensures quantity == None && reason == "" && selectedComponent == None && searchTerm == ""
      ensures selectedType == "Ingreso" && newComponent == BlankNewComponent
      ensures selectedImage == None && imageValid && !showErrors
      ensures FormReset()
    {
      quantity := None;
      reason := "";
      selectedComponent := None;
      searchTerm := "";
      selectedType := "Ingreso";
      newComponent := BlankNewComponent;
      selectedImage := None;
      imageValid := true;
      showErrors := false;
    }

    /** `selectComponent`. */
    method SelectComponent(component: ComponentRecord)
      modifies this`selectedComponent, this`isAddingComponent, this`searchTerm, this`showComponentList
      ensures selectedComponent == Some(component) && !isAddingComponent
      ensures searchTerm == component.name && !showComponentList
      ensures quantity == old(quantity) && reason == old(reason) && selectedType == old(selectedType)
      ensures newComponent == old(newComponent) && selectedImage == old(selectedImage)
    {
      selectedComponent := Some(component);
      isAddingComponent := false;
      searchTerm := component.name;
      showComponentList := false;
    }

    /** `openAddComponentForm`. */
    method OpenAddComponentForm()
      modifies this`isAddingComponent, this`selectedComponent, this`showComponentList, this`searchTerm
      ensures isAddingComponent && selectedComponent == None && !showComponentList && searchTerm == ""
      ensures quantity == old(quantity) && reason == old(reason) && newComponent == old(newComponent)
    {
      isAddingComponent := true;
      selectedComponent := None;
      showComponentList := false;
      searchTerm := "";
    }

    /** `searchComponents`: a search by the (untrimmed) term when it is not blank, else the
        full list. */
    method SearchComponents() returns (calls: seq<ServiceCall>)
      ensures NonBlank(searchTerm) ==> calls == [SearchByNameCall(searchTerm)]
      ensures !NonBlank(searchTerm) ==> calls == [GetComponentsCall]
    {
      var filled := CheckText(searchTerm);
      if filled {
        calls := [SearchByNameCall(searchTerm)];
      } else {
        calls := [GetComponentsCall];
      }
    }

    /** `onImageSelected`: only JPEG, JPG and PNG are kept; anything else, or no file, clears
        the image and flags it invalid. */
    method OnImageSelected(file: Option<FileInfo>) returns (notices: seq<Notice>)
      modifies this`selectedImage, this`imageValid
      ensures file.None? ==> selectedImage == None && !imageValid && notices == [Error(MissingImageMessage)]
      ensures file.Some? && !AllowedImage(file.value.mimeType) ==>
        selectedImage == None && !imageValid && notices == [Error(ImageTypeMessage)]
      ensures file.Some? && AllowedImage(file.value.mimeType) ==> selectedImage == file && imageValid && notices == []
    {
      if file.None? {
        selectedImage := None;
        imageValid := false;
        return [Error(MissingImageMessage)];
      }
      if !AllowedImage(file.value.mimeType) {
        selectedImage := None;
        imageValid := false;
        return [Error(ImageTypeMessage)];
      }
      selectedImage := file;
      imageValid := true;
      notices := [];
    }

    /** `submitMovement`: errors are shown; an invalid form stops before any call. Otherwise,
        after confirmation, the movement is sent with the lowercased type; success resets the
        form and reloads the list, failure shows the classified alert. */
    method SubmitMovement(confirmed: bool, response: Result<()>) returns (notices: seq<Notice>, calls: seq<ServiceCall>)
      modifies this`showErrors, this`quantityValid, this`reasonValid
      modifies this`quantity, this`reason, this`selectedComponent, this`searchTerm, this`selectedType
      modifies this`newComponent, this`selectedImage, this`imageValid
      ensures quantityValid <==> old(quantity).Some? && old(quantity).value > 0.0
      ensures reasonValid <==> NonBlank(old(reason))
      ensures !(MovementFormValid(old(quantity), old(reason)) && confirmed && response.Ok?) ==>
        showErrors && quantity == old(quantity) && reason == old(reason) && selectedComponent == old(selectedComponent) &&
        searchTerm == old(searchTerm) && selectedType == old(selectedType) && newComponent == old(newComponent) &&
        selectedImage == old(selectedImage) && imageValid == old(imageValid)
      ensures !MovementFormValid(old(quantity), old(reason)) ==> calls == [] && notices == []
      ensures MovementFormValid(old(quantity), old(reason)) && !confirmed ==> calls == [] && notices == []
      ensures MovementFormValid(old(quantity), old(reason)) && confirmed ==>
        var movementType := Lower(old(selectedType));
        |calls| >= 1 &&
        calls[0] == CreateMovementCall(Movement(
          if old(selectedComponent).Some? then Some(old(selectedComponent).value.id) else None,
          old(quantity), old(reason), movementType)) &&
        (response.Ok? ==>
          notices == [LoadingAlert("Procesando " + movementType + "..."), SuccessAlert("Movimiento de " + movementType + " realizado con éxito.")] &&
          calls == [calls[0], GetComponentsCall] && quantity == None && reason == "" && selectedComponent == None &&
          searchTerm == "" && selectedType == "Ingreso" && newComponent == BlankNewComponent &&
          selectedImage == None && imageValid && !showErrors) &&
        (response.Err? ==>
          notices == [LoadingAlert("Procesando " + movementType + "..."), MovementErrorNotice(response.error, MovementFailedMessage)] &&
          calls == [calls[0]])
    {
      showErrors := true;
      var valid := ValidateForm();
      if !valid {
        return [], [];
      }
      var movementType := Lower(selectedType);
      var movement := Movement(if selectedComponent.Some? then Some(selectedComponent.value.id) else None, quantity, reason, movementType);
      notices, calls := [], [];
      if confirmed {
        notices := [LoadingAlert("Procesando " + movementType + "...")];
        calls := [CreateMovementCall(movement)];
        if response.Ok? {
          notices := notices + [SuccessAlert("Movimiento de " + movementType + " realizado con éxito.")];
          ResetForm();
          calls := calls + [GetComponentsCall];
        } else {
          notices := notices + [MovementErrorNotice(response.error, MovementFailedMessage)];
        }
      }
    }

    /** The two callbacks of the `createComponent` request: on success the form is closed
        and reset and the list reloaded; on failure the classified alert is shown. */
    method OnCreateResponse(response: Result<()>) returns (notices: seq<Notice>, calls: seq<ServiceCall>)
      modifies this`quantity, this`reason, this`selectedComponent, this`searchTerm, this`selectedType,
              this`newComponent, this`selectedImage, this`imageValid, this`showErrors, this`isAddingComponent
      ensures response.Ok? ==>
        notices == [SuccessAlert(ComponentCreatedMessage)] &&
        calls == [GetComponentsCall] && !isAddingComponent && FormReset()
      ensures response.Err? ==>
        notices == [MovementErrorNotice(response.error, CreateFailedMessage)] &&
        calls == [] && showErrors == old(showErrors) &&
        unchanged(this`quantity, this`reason, this`selectedComponent, this`searchTerm, this`selectedType,
                  this`newComponent, this`selectedImage, this`imageValid, this`isAddingComponent)
    {
      if response.Ok? {
        notices := [SuccessAlert(ComponentCreatedMessage)];
        calls := [GetComponentsCall];
        isAddingComponent := false;
        ResetForm();
      } else {
        notices := [MovementErrorNotice(response.error, CreateFailedMessage)];
        calls := [];
      }
    }

    /** The request `createComponent` sends once the form is accepted, and its callbacks. */
    method SendNewComponent(response: Result<()>) returns (notices: seq<Notice>, calls: seq<ServiceCall>)
      modifies this`quantity, this`reason, this`selectedComponent, this`searchTerm, this`selectedType,
              this`newComponent, this`selectedImage, this`imageValid, this`showErrors, this`isAddingComponent
      ensures response.Ok? ==>
        calls == [CreateComponentCall(old(newComponent), old(reason), old(selectedImage)), GetComponentsCall] &&
        notices == [SuccessAlert(ComponentCreatedMessage)] &&
        !isAddingComponent && FormReset()
      ensures response.Err? ==>
        calls == [CreateComponentCall(old(newComponent), old(reason), old(selectedImage))] &&
        notices == [MovementErrorNotice(response.error, CreateFailedMessage)] &&
        showErrors == old(showErrors) &&
        unchanged(this`quantity, this`reason, this`selectedComponent, this`searchTerm, this`selectedType,
                  this`newComponent, this`selectedImage, this`imageValid, this`isAddingComponent)
    {
      var sent := CreateComponentCall(newComponent, reason, selectedImage);
      var reload;
      notices, reload := OnCreateResponse(response);
      calls := [sent] + reload;
    }

    /** The checks `createComponent` starts with: errors are shown, `validateForm2` runs, and
        a rejected form adds the general error. */
    method CheckNewComponent() returns (valid: bool, notices: seq<Notice>)
      modifies this`showErrors, this`nameValid, this`categoryValid, this`quantityValid2, this`descriptionValid
      modifies this`reasonValid, this`imageValid
      ensures showErrors && FlagsFor(nameValid, categoryValid, quantityValid2, descriptionValid, reasonValid, newComponent, reason) && (imageValid <==> selectedImage.Some?)
      ensures valid <==> NewComponentFormValid(newComponent, reason, selectedImage)
      ensures notices == (if selectedImage.None? then [Error(MissingImageMessage)] else []) +
        (if valid then [] else [Error(IncompleteFormMessage)])
    {
      showErrors := true;
      valid, notices := ValidateForm2();
      if !valid {
        notices := notices + [Error(IncompleteFormMessage)];
      }
    }

    /** `createComponent`: errors are shown; the form must pass `validateForm2` (reported with
        an error otherwise) and the reason must not be blank before the component is created
        together with the reason. */
    method CreateComponent(response: Result<()>) returns (notices: seq<Notice>, calls: seq<ServiceCall>)
      modifies this`quantity, this`reason, this`selectedComponent, this`searchTerm, this`selectedType,
              this`newComponent, this`selectedImage, this`imageValid, this`showErrors, this`isAddingComponent,
              this`nameValid, this`categoryValid, this`quantityValid2, this`descriptionValid, this`reasonValid
      ensures !NewComponentFormValid(old(newComponent), old(reason), old(selectedImage)) ==>
        (calls == [] &&
         notices == (if old(selectedImage).None? then [Error(MissingImageMessage)] else []) +
           [Error(IncompleteFormMessage)])
      ensures FlagsFor(nameValid, categoryValid, quantityValid2, descriptionValid, reasonValid, old(newComponent), old(reason)) && (imageValid <==> old(selectedImage).Some?)
      ensures NewComponentFormValid(old(newComponent), old(reason), old(selectedImage)) && response.Ok? ==>
        calls == [CreateComponentCall(old(newComponent), old(reason), old(selectedImage)), GetComponentsCall] &&
        notices == [SuccessAlert(ComponentCreatedMessage)] &&
        !isAddingComponent && FormReset()
      ensures !(NewComponentFormValid(old(newComponent), old(reason), old(selectedImage)) && response.Ok?) ==>
        showErrors &&
        unchanged(this`quantity, this`reason, this`selectedComponent, this`searchTerm, this`selectedType,
                  this`newComponent, this`selectedImage, this`isAddingComponent)
      ensures NewComponentFormValid(old(newComponent), old(reason), old(selectedImage)) && response.Err? ==>
        calls == [CreateComponentCall(old(newComponent), old(reason), old(selectedImage))] &&
        notices == [MovementErrorNotice(response.error, CreateFailedMessage)]
    {
      var valid;
      valid, notices := CheckNewComponent();
      if !valid {
        return notices, [];
      }
      notices, calls := SendNewComponent(response);
    }
  }
}
