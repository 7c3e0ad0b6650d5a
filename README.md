# Inventory and loan client: a Dafny model

This project models the client-side rules of an inventory and loan management web client. The client is an Angular application for a university electronics lab. Students browse the component catalogue, collect components in a cart and ask for a loan. Administrators keep the stock, accept, reject or close requests, manage academic periods and print reports.

Most of the client is glue around REST calls. The model keeps the deterministic rules underneath that glue:

- the selection cart kept in the browser's storage: upsert by id, remove by id and the total count, with the quantity checks of the catalogue and loan-summary pages;
- the request statuses and what each one allows, the status filters and numbering of the request lists, the administrator's notes dialog and the classification of server errors;
- the filter pipelines of the component list, the user search and the split of academic periods into active and inactive;
- the form validators: the institutional e-mail pattern, the generic e-mail pattern, passwords, quantities, required fields and date ranges;
- the report lookup tables (endpoints, filters, file names) and the report page's filter form;
- the two route guards, the route table they stand on, and the module chooser's role-based navigation.

Each core source file is one Dafny module, in the form the source has.

- **Pages and services that update fields** are classes. A method's `modifies` clause names the object, or only the fields the handler may change. Its `ensures` give, outcome by outcome, the new value of each field the handler assigns on that path.
- **Server responses and confirmation dialogs** are parameters of the method that handles them (`Result<T>`, `bool`).
- **Service calls and notices** are returned as sequences (`calls`, `notices`), so a contract can say which requests are sent, in which order, and which alert the user sees.
- **Lookup tables, predicates and the route table** are functions and constants. The lemmas beside them prove what the pages rely on.

Shared modules hold what several files use:

- `Wrappers`: `Option`, `Result` and the shape of an HTTP error;
- `Seqs`: filter, find and map over sequences, with their lemmas;
- `Text`: trim, ASCII lowercase, substring search, number printing and string order;
- `Dates`: parsed dates, where an invalid date makes every comparison false;
- `Ui`: the alerts;
- `Catalog`: the component record;
- `Storage`: the one storage key the client writes.

## Model

| member | source | states |
|---|---|---|
| Wrappers.ServerMessageOr | src/app/pages/admin/component-movement/component-movement.component.ts:178 | `error.error?.error \|\| default`: the server's message when it sent a non-empty one, otherwise the default |
| Wrappers.ServerDetailOr | src/app/pages/authentication/register/register.component.ts:110 | `error.error?.message \|\| default`: the server's detail when it sent a non-empty one, otherwise the default |
| Text.Trim | src/app/pages/authentication/register/register.component.ts:49 | the result is the input with a blank prefix and a blank suffix cut off, and it neither starts nor ends with whitespace, so exactly the surrounding whitespace is gone |
| Text.TrimEmptyIffBlank | src/app/pages/authentication/register/register.component.ts:49 | a string trims to '' exactly when it is all whitespace |
| Text.Lower | src/app/pages/admin/electronic-component/electronic-component.component.ts:331-333 | lowercasing keeps the length and maps each character on its own |
| Text.IntToString | src/app/pages/user/view-components/view-components.component.ts:83 | a number prints with a leading '-' exactly when it is negative, and reading the numeral back gives the number |
| Text.IntToStringInjective | src/app/pages/user/view-components/view-components.component.ts:83 | distinct numbers print as distinct strings |
| Text.IndexOf | src/app/pages/admin/academic-periods/academic-periods.component.ts:73-74 | the first position of a character, or -1 exactly when it does not occur |
| Text.LastIndexOf | src/app/services/user.service.ts:124 | the last position of a character, or -1 exactly when it does not occur |
| Text.LexTrichotomy | src/app/pages/admin/loans/loans.component.ts:288-291 | the order on 'YYYY-MM-DD' strings is total and strict: two strings are equal or ordered one way, never both ways, and none is below itself |
| Catalog.WholeOfInt | src/app/pages/admin/component-movement/component-movement.component.ts:313 | `Number.isInteger` holds for every integer value |
| Catalog.FractionNotWhole | src/app/pages/admin/component-movement/component-movement.component.ts:313 | a value strictly between two consecutive integers is not an integer |
| Text.LexTransitive | src/app/pages/admin/loans/loans.component.ts:288-291 | the order on date strings is transitive |
| Requests.ParseStatus | src/app/services/request.service.ts:144-151 | reading a status string keeps the string exactly; only a string outside the five known statuses becomes `Other` |
| Requests.ParseStatusText | src/app/services/request.service.ts:144-151 | reading back the text of a well-formed status gives the same status |
| Requests.ActionPredicates | src/app/services/request.service.ts:144-151 | `canMarkAsNotReturned` holds exactly for 'prestamo', `canFinalize` exactly for 'prestamo' and 'no_devuelto'; the first implies the second, and the second implies an active status |
| Requests.QueryParams | src/app/services/request.service.ts:40-50 | the query holds `status` only when it is non-empty, `isActive` whenever it is given (even `false`), `userId` only when it is truthy, each with the given value, and no other key |
| Requests.IndexOfId | src/app/services/request.service.ts:199 | `findIndex` by id: the first position holding the id, or -1 exactly when no entry holds it |
| Requests.FindIndexById | src/app/services/request.service.ts:199 | the search loop returns the same index as `IndexOfId` |
| Requests.ReduceQuantity | src/app/services/request.service.ts:167-170 | the left fold adds the sum of all quantities to its seed |
| Requests.UpsertExisting | src/app/services/request.service.ts:200-201 | for a present id only the first matching entry changes, and only its quantity |
| Requests.UpsertNew | src/app/services/request.service.ts:202-204 | for an absent id the component is appended with the given quantity |
| Requests.UpsertIdempotent | src/app/services/request.service.ts:197-206 | adding the same component with the same quantity twice leaves the cart as adding it once |
| Requests.UpsertKeepsIdsDistinct | src/app/services/request.service.ts:197-206 | a cart without repeated ids keeps that property, and afterwards exactly one entry holds the id, with the new quantity |
| Requests.TotalQuantityConcat | src/app/services/request.service.ts:165-171 | the count of two carts joined is the sum of their counts |
| Requests.TotalQuantityUpdate | src/app/services/request.service.ts:165-171 | changing one quantity changes the count by the difference |
| Requests.UpsertTotal | src/app/services/request.service.ts:165-206 | after an add the count loses the old quantity of the entry and gains the new one, or just gains the new one |
| Requests.RemoveIdMembership | src/app/services/request.service.ts:209-213 | removal keeps exactly the entries whose id differs |
| Requests.RemoveIdConcat | src/app/services/request.service.ts:211 | removal keeps the order of the other entries: it distributes over joining |
| Requests.RemoveAbsentId | src/app/services/request.service.ts:211 | removing an id no entry holds changes nothing |
| Requests.RemoveIdTotal | src/app/services/request.service.ts:165-213 | the count drops by the quantities of the entries that held the id |
| Requests.RemoveIdTotalDistinct | src/app/services/request.service.ts:165-213 | with distinct ids the count drops by exactly the quantity of the entry found, or not at all |
| Requests.FilterKeepsIdsDistinct | src/app/services/request.service.ts:211 | any filtered cart keeps ids distinct |
| Requests.EntriesWithIdDistinct | src/app/services/request.service.ts:199-211 | with distinct ids the entries holding an id are the one `findIndex` finds, or none |
| Requests.RemoveKeepsIdsDistinct | src/app/services/request.service.ts:211 | removal keeps ids distinct |
| Requests.NotesBody | src/app/services/request.service.ts:116-141 | the body of `markAsNotReturned` / `finalizeRequest` carries the notes exactly when they are non-empty |
| Requests.RequestService.constructor | src/app/services/request.service.ts:17-20 | the service starts without a user id |
| Requests.RequestService.Initialize | src/app/services/request.service.ts:23-37 | the id becomes the fetched user's id, or null when the fetch fails |
| Requests.RequestService.CreateRequestPayload | src/app/services/request.service.ts:58-72 | no request (the 'Usuario no autenticado' exception) exactly when the user id is not truthy; otherwise every form value is sent as given, the status defaults to 'pendiente', with the lines and the file |
| Requests.RequestService.GetSelectedComponents | src/app/services/request.service.ts:154-157 | the stored list, or the empty list when the key is absent |
| Requests.RequestService.SetSelectedComponents | src/app/services/request.service.ts:160-162 | the key holds the list, and reading it back gives the same list |
| Requests.RequestService.GetSelectedComponentCount | src/app/services/request.service.ts:165-171 | the count is the sum of the stored quantities, 0 for an empty cart |
| Requests.RequestService.AddComponentToLocalStorage | src/app/services/request.service.ts:197-206 | the stored cart becomes `Upsert` of the old one |
| Requests.RequestService.AddSelectedComponentToStorage | src/app/services/request.service.ts:174-195 | a quantity above the stock is refused and nothing changes; with a known id the cart is updated; with an unknown id the cart is updated after a successful user fetch, which also sets the id, and left alone when the fetch fails |
| Requests.RequestService.RemoveSelectedComponentFromStorage | src/app/services/request.service.ts:209-213 | the stored cart becomes `RemoveId` of the old one |
| Requests.Upsert | src/app/services/request.service.ts:197-206 | the cart after adding a component: the quantity of the first entry with its id is replaced, or the component is appended; its meaning is proved in UpsertExisting, UpsertNew, UpsertKeepsIdsDistinct and UpsertTotal |
| Requests.RemoveId | src/app/services/request.service.ts:209-213 | the cart without the entries of one id, in order; its meaning is proved in RemoveIdMembership, RemoveIdConcat and RemoveIdTotal |
| Requests.TotalQuantity | src/app/services/request.service.ts:165-171 | the sum of the quantities of a cart; TotalQuantityConcat and TotalQuantityUpdate prove how it adds up over joins and updates |
| ViewComponents.ClampQuantityBounds | src/app/pages/user/view-components/view-components.component.ts:78-101 | for a component with stock the stored quantity is positive and at most the stock, an in-range input is kept as typed, and clamping twice is clamping once |
| ViewComponents.QuantityMap | src/app/pages/user/view-components/view-components.component.ts:143-147 | the ids of the map are exactly the ids in the stored cart |
| ViewComponents.QuantityMapLastWins | src/app/pages/user/view-components/view-components.component.ts:144-147 | an entry that no later entry with the same id follows gives the map's value for that id |
| ViewComponents.QuantityMapDistinct | src/app/pages/user/view-components/view-components.component.ts:144-147 | for a cart with distinct ids the map gives every entry's quantity |
| ViewComponents.CategoryFilteredMembership | src/app/pages/user/view-components/view-components.component.ts:117-124 | a component is shown exactly when it is listed and either no category is selected or its category is selected |
| ViewComponents.ViewComponentsPage.constructor | src/app/pages/user/view-components/view-components.component.ts:31-37 | an empty page that satisfies the page invariant |
| ViewComponents.ViewComponentsPage.OnComponentsLoaded | src/app/pages/user/view-components/view-components.component.ts:58-73 | success lists the active components with stock, in server order, and shows all of them; failure only shows 'Error al obtener los componentes.'; the invariant is kept |
| ViewComponents.ViewComponentsPage.OnQuantityChange | src/app/pages/user/view-components/view-components.component.ts:75-103 | for a listed id the stored quantity is the clamped value, with the error and the 'Cantidad ajustada' toast above the stock and the 'Cantidad inválida' toast at or below 0; an unlisted id changes nothing |
| ViewComponents.ViewComponentsPage.ApplyFilters | src/app/pages/user/view-components/view-components.component.ts:117-126 | the shown list is the category selection of the list, in order, or the whole list when nothing is selected; the menu closes |
| ViewComponents.ViewComponentsPage.OnCategoryChange | src/app/pages/user/view-components/view-components.component.ts:106-115 | checking appends the id only when absent, unchecking removes every copy; the id is selected exactly when checked, the selection stays free of duplicates, and the filters are reapplied |
| ViewComponents.ViewComponentsPage.ResetFilters | src/app/pages/user/view-components/view-components.component.ts:128-139 | no category selected, the whole list shown, the menu closed |
| ViewComponents.ViewComponentsPage.LoadSelectedComponents | src/app/pages/user/view-components/view-components.component.ts:142-148 | the chosen quantities become the map of the stored cart |
| ViewComponents.ViewComponentsPage.AddToSelectedList | src/app/pages/user/view-components/view-components.component.ts:151-166 | a positive whole chosen quantity goes to the cart and the 'Componente agregado' toast follows unless the cart refused it for exceeding the stock; when the user cannot be fetched and no user is known the stored cart is left as it was; the service's user id is set from the fetch only when it was unset; any other quantity shows the error, leaves the cart and the user id alone and reloads the quantities |
| ViewComponents.ClampQuantity | src/app/pages/user/view-components/view-components.component.ts:78-101 | the quantity after clamping; ClampQuantityBounds states its bounds |
| ViewComponents.CategoryFiltered | src/app/pages/user/view-components/view-components.component.ts:117-124 | the components shown for the selected categories; CategoryFilteredMembership states which ones |
| LoansSummary.DateValidMeaning | src/app/pages/user/loans-summary/loans-summary.component.ts:59-66 | a non-empty return date passes exactly when it is today or sorts after today |
| LoansSummary.CheckQuantityAccepted | src/app/pages/user/loans-summary/loans-summary.component.ts:72-90 | a quantity is accepted exactly when it is a whole number from 1 to the stock |
| LoansSummary.CheckQuantityOfInteger | src/app/pages/user/loans-summary/loans-summary.component.ts:72-90 | on an integer entry only the range decides: 0 or less is refused as not positive, above the stock as too many, anything else is accepted |
| LoansSummary.CheckQuantityOfFraction | src/app/pages/user/loans-summary/loans-summary.component.ts:72-76 | an entry strictly between two consecutive integers is refused as not an integer, whatever the stock |
| LoansSummary.QuantityMessage | src/app/pages/user/loans-summary/loans-summary.component.ts:73-87 | the error of each rejection, the stock one naming the stock; QuantityMessageInjective states that it tells the rejections apart |
| LoansSummary.QuantityMessageInjective | src/app/pages/user/loans-summary/loans-summary.component.ts:73-87 | two rejections with the same message are the same rejection, including the same stock |
| LoansSummary.PayloadLines | src/app/pages/user/loans-summary/loans-summary.component.ts:140-145 | at most one line per entry, each with a positive quantity |
| LoansSummary.PayloadLinesMembership | src/app/pages/user/loans-summary/loans-summary.component.ts:140-145 | a line is sent exactly for each entry with a positive quantity, carrying its id and quantity |
| LoansSummary.PayloadLinesEmpty | src/app/pages/user/loans-summary/loans-summary.component.ts:140-151 | no line is sent exactly when no entry has a positive quantity |
| LoansSummary.LoansSummaryPage.constructor | src/app/pages/user/loans-summary/loans-summary.component.ts:22-43 | an empty list, a zero total, no file, not submitting, an empty untouched form |
| LoansSummary.LoansSummaryPage.CalculateTotal | src/app/pages/user/loans-summary/loans-summary.component.ts:117-122 | the total is the sum of the listed quantities; nothing else changes |
| LoansSummary.LoansSummaryPage.LoadSelectedComponents | src/app/pages/user/loans-summary/loans-summary.component.ts:50-53 | the list is the stored cart and the total its sum |
| LoansSummary.LoansSummaryPage.UpdateQuantity | src/app/pages/user/loans-summary/loans-summary.component.ts:68-94 | an unknown id does nothing; a rejected quantity shows its one message and reloads the list from storage; an accepted one stores the list and recomputes the total |
| LoansSummary.LoansSummaryPage.RemoveComponent | src/app/pages/user/loans-summary/loans-summary.component.ts:96-115 | after confirmation the list and storage lose every entry with the id, the total is recomputed and the toast shown; without it nothing changes |
| LoansSummary.LoansSummaryPage.OnFileChange | src/app/pages/user/loans-summary/loans-summary.component.ts:182-194 | an allowed file becomes the receipt; another type is refused with its error and changes nothing; no file does nothing |
| LoansSummary.LoansSummaryPage.SubmitRequest | src/app/pages/user/loans-summary/loans-summary.component.ts:124-180 | an invalid form is marked touched and shows its error; an empty list or a list without a positive quantity shows its own; none of the three sends anything or changes the list, the total or the form; otherwise the form values and the lines are posted, success clears the list, the total, the form (untouched again) and the stored cart, and failure only shows the error, keeps everything and leaves the page submitting |
| LoansSummary.CheckQuantity | src/app/pages/user/loans-summary/loans-summary.component.ts:72-90 | the outcome of the quantity checks in the source's order; CheckQuantityAccepted, CheckQuantityOfInteger and CheckQuantityOfFraction state when it accepts and what it refuses |
| LoansSummary.DateValid | src/app/pages/user/loans-summary/loans-summary.component.ts:59-66 | the return-date test; DateValidMeaning states when it passes |
| AdminRequest.AdminFilteredMembership | src/app/pages/admin/request/request.component.ts:69-79 | with 'todo' a request is shown exactly when it is pendiente, prestamo or no_devuelto; with any other filter exactly when its status text equals the filter |
| AdminRequest.AdminFilteredConcat | src/app/pages/admin/request/request.component.ts:69-79 | filtering keeps the server's order |
| AdminRequest.AdminFilteredByStatus | src/app/pages/admin/request/request.component.ts:75-77 | a filter naming one of the five statuses keeps exactly the requests with that status |
| AdminRequest.AcceptErrorNotice | src/app/pages/admin/request/request.component.ts:161-182 | the exact no-period message gives the period notice; otherwise a stock report gives the 'Stock insuficiente' alert; otherwise the server message or 'Error al aceptar la solicitud' |
| AdminRequest.StockAlertListsEveryComponent | src/app/pages/admin/request/request.component.ts:167-178 | the stock alert contains the bullet of every component the server listed, with both quantities |
| AdminRequest.FinalizeErrorNotice | src/app/pages/admin/request/request.component.ts:229-238 | any message containing the no-period phrase gives the period notice; any other gives the message itself |
| AdminRequest.ExactPeriodErrorNotice | src/app/pages/admin/request/request.component.ts:280-289 | only the exact message 'No hay un periodo académico activo.' gives the period notice; any other gives the message itself |
| AdminRequest.NotesTargetMeaning | src/app/pages/admin/request/request.component.ts:257-268 | rejection exactly when the flag is set; otherwise mark-not-returned exactly when the first listed request with the id is on loan, finalize in every other case |
| AdminRequest.NotesTargetMarkIsAllowed | src/app/pages/admin/request/request.component.ts:262-264 | the dispatch sends to mark-not-returned only a listed request that may be marked and may be finalized |
| AdminRequest.RequestPage.constructor | src/app/pages/admin/request/request.component.ts:21-35 | no requests, filter 'todo', not loading, no notes, modal closed, no current id |
| AdminRequest.RequestPage.FilterRequests | src/app/pages/admin/request/request.component.ts:69-79 | the shown list is the filtered list; nothing else changes |
| AdminRequest.RequestPage.OnActiveRequestsLoaded | src/app/pages/admin/request/request.component.ts:53-67 | loading ends; success stores the list and refilters it; failure only shows 'No se pudieron obtener las solicitudes activas.' |
| AdminRequest.RequestPage.OnFilterChange | src/app/pages/admin/request/request.component.ts:81-85 | the filter is the selected value and the list is refiltered with it |
| AdminRequest.RequestPage.AcceptRequest | src/app/pages/admin/request/request.component.ts:148-186 | a falsy id is refused with no call; after confirmation the request is accepted, success reloads, failure shows the classified alert |
| AdminRequest.RequestPage.RejectRequest | src/app/pages/admin/request/request.component.ts:188-202 | a falsy id is refused; after confirmation the notes modal opens for a rejection of that id |
| AdminRequest.RequestPage.ConfirmFinalizeRequest | src/app/pages/admin/request/request.component.ts:221-242 | after confirmation the request is finalized with the notes as body, success reloads, failure shows the classified alert |
| AdminRequest.RequestPage.ConfirmMarkAsNotReturned | src/app/pages/admin/request/request.component.ts:317-332 | after confirmation the request is marked not returned with the notes, success reloads, failure shows its one message |
| AdminRequest.RequestPage.ConfirmRejectRequest | src/app/pages/admin/request/request.component.ts:334-357 | after confirmation the request is rejected with the notes; either way the flag and the notes are cleared |
| AdminRequest.RequestPage.FinalizeRequest | src/app/pages/admin/request/request.component.ts:204-219 | a falsy id is refused; wanting notes opens the modal for that id; otherwise, once confirmed, the request is finalized with the notes as body, and success shows 'Solicitud finalizada con éxito' and refetches while failure shows the classified alert and makes no further call; declining changes nothing |
| AdminRequest.RequestPage.MarkAsNotReturned | src/app/pages/admin/request/request.component.ts:296-314 | the same two-step flow: once confirmed the request is marked not returned with the notes, success shows its alert and refetches, failure shows 'Error al marcar la solicitud como no devuelta'; declining changes nothing |
| AdminRequest.RequestPage.CancelRequest | src/app/pages/admin/request/request.component.ts:272-293 | after confirmation the request is deleted, success reloads, failure shows the exact-message classification |
| AdminRequest.RequestPage.CloseAdminNotesModal | src/app/pages/admin/request/request.component.ts:245-250 | the modal closes and the notes, the id and the rejection flag are cleared |
| AdminRequest.RequestPage.SaveAdminNotes | src/app/pages/admin/request/request.component.ts:253-270 | without a truthy current id nothing happens; otherwise the modal closes and the target chosen by the dispatch runs: rejection, finalize or mark-not-returned, each with its exact alert and refetch on success and its own error alert on failure; declining makes no call |
| AdminRequest.AdminFiltered | src/app/pages/admin/request/request.component.ts:69-79 | the list the status filter shows; AdminFilteredMembership, AdminFilteredConcat and AdminFilteredByStatus state which requests it keeps and in which order |
| AdminRequest.StockDescription | src/app/pages/admin/request/request.component.ts:167-178 | the text of the insufficient-stock alert; StockAlertListsEveryComponent proves it names every listed component with both quantities |
| AdminRequest.NotesTargetFor | src/app/pages/admin/request/request.component.ts:257-268 | which confirmation the notes dialog goes on to; NotesTargetMeaning and NotesTargetMarkIsAllowed state the choice |
| RequestView.NumberedMeaning | src/app/pages/user/request-view/request-view.component.ts:79-86 | the display ids are 1 to n in order, and a request is listed exactly when it has the selected status |
| RequestView.NumberedConcat | src/app/pages/user/request-view/request-view.component.ts:79-86 | numbering keeps the server's order: the second part of a list continues the count of the first |
| RequestView.DateErrorMeaning | src/app/pages/user/request-view/request-view.component.ts:107-124 | a date is accepted exactly when one is given and it is not a valid date before now; an unparsable date is accepted |
| RequestView.RequestViewPage.constructor | src/app/pages/user/request-view/request-view.component.ts:21-30 | no requests, status 'pendiente', no user id, the dialog closed and empty |
| RequestView.RequestViewPage.LoadRequests | src/app/pages/user/request-view/request-view.component.ts:59-77 | without a truthy user id only 'Usuario no autenticado.' is shown; otherwise the requests of that user with the selected status are fetched |
| RequestView.RequestViewPage.OnRequestsLoaded | src/app/pages/user/request-view/request-view.component.ts:67-76 | success stores the list and renumbers it; failure only shows 'Error al cargar las solicitudes.' |
| RequestView.RequestViewPage.FilterRequests | src/app/pages/user/request-view/request-view.component.ts:79-86 | the shown list is the numbered selection; nothing else changes |
| RequestView.RequestViewPage.LoadUserDetails | src/app/pages/user/request-view/request-view.component.ts:45-57 | success stores the user id and loads the requests; failure clears the id and shows its error |
| RequestView.RequestViewPage.OnStatusChange | src/app/pages/user/request-view/request-view.component.ts:88-92 | the status is the selected value; with a known user the requests are fetched again with it and no notice is shown, otherwise only the not-authenticated error |
| RequestView.RequestViewPage.OpenModal | src/app/pages/user/request-view/request-view.component.ts:94-97 | the request is selected and the dialog opens |
| RequestView.RequestViewPage.CloseModal | src/app/pages/user/request-view/request-view.component.ts:99-105 | the dialog closes and its date, error, validity and request are cleared |
| RequestView.RequestViewPage.ValidateDate | src/app/pages/user/request-view/request-view.component.ts:107-124 | the error is the one `DateError` gives, and the date is valid exactly when there is none |
| RequestView.RequestViewPage.SubmitReturnDate | src/app/pages/user/request-view/request-view.component.ts:126-146 | without a request or a date only the error is shown and nothing changes; otherwise the new date is sent for that request and the page is no longer busy; success shows its alert, closes and clears the dialog and reloads the user's requests (or reports that no user is known); failure shows the server message or the default and keeps the dialog |
| Dates.BeforeFacts | src/app/pages/user/request-view/request-view.component.ts:114-117 | `<` on dates is a strict order on valid dates and false whenever one side is an invalid date |
| RequestView.Numbered | src/app/pages/user/request-view/request-view.component.ts:79-86 | the requests of the selected status numbered from 1; NumberedMeaning and NumberedConcat state the numbering and the order |
| RequestView.DateError | src/app/pages/user/request-view/request-view.component.ts:107-124 | the return-date message; DateErrorMeaning states when a date is accepted |
| ComponentMovement.NonBlankNotBlank | src/app/pages/admin/component-movement/component-movement.component.ts:338-340 | scanning a field from the front finds a non-whitespace character exactly when the field is not blank |
| ComponentMovement.NonBlankMeaning | src/app/pages/admin/component-movement/component-movement.component.ts:344-345 | `trim().length > 0` holds exactly for the non-blank strings |
| ComponentMovement.CheckText | src/app/pages/admin/component-movement/component-movement.component.ts:351-361 | a text field passes exactly when it is not blank |
| ComponentMovement.CreateComponentReasonGuardRedundant | src/app/pages/admin/component-movement/component-movement.component.ts:221-230 | once `validateForm2` accepts, the reason is not blank, so the second guard of `createComponent` never fires |
| ComponentMovement.QuantityFlagMeaning | src/app/pages/admin/component-movement/component-movement.component.ts:312-323 | a quantity is flagged valid exactly when it is an integer of at least 1 |
| ComponentMovement.QuantityFlagOfNumber | src/app/pages/admin/component-movement/component-movement.component.ts:312-323 | an integer entry is never reported and is flagged by its sign alone; an entry strictly between two consecutive integers is always reported |
| ComponentMovement.MovementErrorNotice | src/app/pages/admin/component-movement/component-movement.component.ts:176-188 | a server message that mentions the reason gives the reason alert, the exact no-period message gives the period alert, and any other message (or the default) is shown as it is |
| ComponentMovement.ComponentMovementPage.constructor | src/app/pages/admin/component-movement/component-movement.component.ts:22-44 | an empty form of type 'Ingreso', nothing selected and every validity flag set |
| ComponentMovement.ComponentMovementPage.ValidateForm | src/app/pages/admin/component-movement/component-movement.component.ts:343-348 | the quantity flag means a quantity above 0, the reason flag a non-blank reason, and the form is valid exactly when both hold; the form itself is untouched |
| ComponentMovement.ComponentMovementPage.ValidateTextFields | src/app/pages/admin/component-movement/component-movement.component.ts:365-369 | the name, description and reason flags mean those fields are not blank |
| ComponentMovement.ComponentMovementPage.ValidateForm2 | src/app/pages/admin/component-movement/component-movement.component.ts:364-383 | each of the six flags means its condition, the form is valid exactly when all hold, and a missing image is reported only while errors are shown |
| ComponentMovement.ComponentMovementPage.OnQuantityChange | src/app/pages/admin/component-movement/component-movement.component.ts:312-323 | a non-integer or null quantity is reported and flagged invalid; an integer is flagged valid exactly when above 0; only the quantity flag changes |
| ComponentMovement.ComponentMovementPage.OnQuantityChange2 | src/app/pages/admin/component-movement/component-movement.component.ts:325-336 | the same for the new component's quantity; only its flag changes |
| ComponentMovement.ComponentMovementPage.ResetForm | src/app/pages/admin/component-movement/component-movement.component.ts:197-216 | both forms are empty again, the type is 'Ingreso', no image and no errors shown, and the open form is left as it was |
| ComponentMovement.ComponentMovementPage.SelectComponent | src/app/pages/admin/component-movement/component-movement.component.ts:107-112 | the component is selected, its name is the search term, and the new-component form and the list are closed |
| ComponentMovement.ComponentMovementPage.OpenAddComponentForm | src/app/pages/admin/component-movement/component-movement.component.ts:304-309 | the new-component form opens with no component selected and no search term |
| ComponentMovement.ComponentMovementPage.SearchComponents | src/app/pages/admin/component-movement/component-movement.component.ts:88-101 | a non-blank term is searched for as typed, a blank one reloads the full list |
| ComponentMovement.ComponentMovementPage.OnImageSelected | src/app/pages/admin/component-movement/component-movement.component.ts:262-297 | only a JPEG, JPG or PNG file is kept and flagged valid; no file or another type clears the image, flags it invalid and shows the matching error; only the image and its flag change |
| ComponentMovement.ComponentMovementPage.SubmitMovement | src/app/pages/admin/component-movement/component-movement.component.ts:124-194 | the two flags are computed from the entered values; an invalid form or a declined confirmation makes no call and keeps every field; a confirmed valid form sends the selected component, quantity, reason and lowercased type, and success resets the form and reloads while failure keeps every field and shows the classified alert |
| ComponentMovement.ComponentMovementPage.OnCreateResponse | src/app/pages/admin/component-movement/component-movement.component.ts:239-258 | success closes and resets the form and reloads the list; failure keeps the form and shows the classified alert |
| ComponentMovement.ComponentMovementPage.SendNewComponent | src/app/pages/admin/component-movement/component-movement.component.ts:233-259 | the new component is sent with the reason and the image, followed by the outcome of its callbacks |
| ComponentMovement.ComponentMovementPage.CheckNewComponent | src/app/pages/admin/component-movement/component-movement.component.ts:218-224 | errors are shown, the six flags mean their conditions, the result is whether the new-component form is valid, and a rejected form adds the generic error after the missing-image one |
| ComponentMovement.ComponentMovementPage.CreateComponent | src/app/pages/admin/component-movement/component-movement.component.ts:218-260 | the six flags are set from the entered values and errors are shown; an invalid form makes no call, shows the missing-image error (when there is none) and the generic error, and keeps the form; a valid one is created with its reason and image, success closes and resets the form and reloads, failure keeps the form and shows the classified alert |
| ComponentMovement.QuantityFlag | src/app/pages/admin/component-movement/component-movement.component.ts:312-323 | the quantity flag the handler sets, or none when it reports a non-integer; QuantityFlagMeaning states its cases |
| ComponentMovement.MovementFormValid | src/app/pages/admin/component-movement/component-movement.component.ts:343-348 | a quantity above 0 and a non-blank reason; ComponentMovementPage.ValidateForm is proved to return exactly it |
| ElectronicComponent.StatusStageIsFilter | src/app/pages/admin/electronic-component/electronic-component.component.ts:316-320 | the status step keeps exactly the components whose activity matches 'activo', and all of them when the status is off |
| ElectronicComponent.CategoryStageIsFilter | src/app/pages/admin/electronic-component/electronic-component.component.ts:322-327 | the category step keeps exactly the components in a chosen category, and all of them when none is chosen |
| ElectronicComponent.SearchStageIsFilter | src/app/pages/admin/electronic-component/electronic-component.component.ts:329-335 | the search step keeps exactly the components whose lowercased name contains the lowercased term, and all of them for an empty term |
| ElectronicComponent.PipelineIsIntersection | src/app/pages/admin/electronic-component/electronic-component.component.ts:303-343 | the three steps in a row are one filter by their conjunction: the order of the server's list is kept |
| ElectronicComponent.PipelineMembership | src/app/pages/admin/electronic-component/electronic-component.component.ts:303-343 | a component is shown exactly when the server sent it and it passes every active filter |
| ElectronicComponent.NoFiltersIsIdentity | src/app/pages/admin/electronic-component/electronic-component.component.ts:304-311 | with no filter on, reloading the full list shows what the filters would have shown |
| ElectronicComponent.ReplaceCategoryMeaning | src/app/pages/admin/electronic-component/electronic-component.component.ts:283-297 | the list keeps its length, an entry with another id is unchanged, the response is in the list when its id was, and nothing changes when it was not |
| ElectronicComponent.ElectronicComponentPage.constructor | src/app/pages/admin/electronic-component/electronic-component.component.ts:21-38 | no filters, no components, no search, no categories and no category being edited |
| ElectronicComponent.ElectronicComponentPage.ApplyFilters | src/app/pages/admin/electronic-component/electronic-component.component.ts:303-343 | the shown list is the filtered server list; a failed fetch leaves it as it was; the filters stay |
| ElectronicComponent.ElectronicComponentPage.SearchComponents | src/app/pages/admin/electronic-component/electronic-component.component.ts:89-92 | the trimmed search box becomes the search filter and the list is filtered again |
| ElectronicComponent.ElectronicComponentPage.OnCategoryChange | src/app/pages/admin/electronic-component/electronic-component.component.ts:183-191 | checking appends the id, unchecking removes every copy of it, and the list is filtered again |
| ElectronicComponent.ElectronicComponentPage.OnStatusFilterChange | src/app/pages/admin/electronic-component/electronic-component.component.ts:238-244 | the chosen status, or none for the empty choice, becomes the status filter and the list is filtered again |
| ElectronicComponent.ElectronicComponentPage.ResetFilters | src/app/pages/admin/electronic-component/electronic-component.component.ts:346-360 | every filter and the search box are cleared and the full list is shown |
| ElectronicComponent.ElectronicComponentPage.DeleteComponent | src/app/pages/admin/electronic-component/electronic-component.component.ts:170-181 | success removes exactly the entries with that id and reports it; failure keeps the list and reports the error |
| ElectronicComponent.ElectronicComponentPage.SaveCategory | src/app/pages/admin/electronic-component/electronic-component.component.ts:283-297 | success replaces the matching category and ends editing; failure keeps the list and raises a browser alert; the category selection is kept either way |
| ElectronicComponent.Pipeline | src/app/pages/admin/electronic-component/electronic-component.component.ts:303-343 | the status, category and search steps applied in turn; PipelineIsIntersection, PipelineMembership and NoFiltersIsIdentity state what it keeps |
| ElectronicComponent.ReplaceCategory | src/app/pages/admin/electronic-component/electronic-component.component.ts:283-297 | the category list after a successful save; ReplaceCategoryMeaning states what changes |
| Loans.GetFilterType | src/app/pages/admin/loans/loans.component.ts:173-181 | the loop returns the kind of the first entry of the filter table that lists the name, and 'text' when none does |
| Loans.FilterTypeCases | src/app/pages/admin/loans/loans.component.ts:49-53 | the three date filters are 'date', the six selects 'select', only the empty name is 'number', and every other name is 'text' |
| Loans.GetFilterLabel | src/app/pages/admin/loans/loans.component.ts:261-275 | a known filter gets its Spanish label and any other name is its own label |
| Loans.GetFilterLabelMeaning | src/app/pages/admin/loans/loans.component.ts:261-275 | a filter is labelled by its own name exactly when it has no fixed label |
| Loans.DateRangeMeaning | src/app/pages/admin/loans/loans.component.ts:282-299 | the range is flagged only when both dates are set; equal dates and an end after the start pass |
| Loans.FormValues | src/app/pages/admin/loans/loans.component.ts:196 | the submitted values have one entry per control, holding that control's value |
| Loans.MarkInvalidTouched | src/app/pages/admin/loans/loans.component.ts:184-191 | exactly the invalid controls (the date range counting against the end date) are marked touched; the others are unchanged |
| Loans.ResetForm | src/app/pages/admin/loans/loans.component.ts:232-234 | every control is empty and untouched and keeps its validator |
| Loans.ResetFormInvalidity | src/app/pages/admin/loans/loans.component.ts:232-234 | after a reset nothing is touched, the range is not flagged, and the form is invalid exactly when some control is required |
| Loans.FreshFormInvalidity | src/app/pages/admin/loans/loans.component.ts:150-165 | a newly built form is invalid exactly when the report has a required filter |
| Loans.LoansPage.constructor | src/app/pages/admin/loans/loans.component.ts:34-65 | no reports, no preview, no report chosen, an empty form, not loading, filters hidden and no users |
| Loans.LoansPage.OnUsersLoaded | src/app/pages/admin/loans/loans.component.ts:76-84 | the fetched users are both the list and the filtered list; a failed fetch changes nothing |
| Loans.LoansPage.FilterUsers | src/app/pages/admin/loans/loans.component.ts:86-88 | the filtered list is the users whose name contains the search term, ignoring case |
| Loans.LoansPage.OnAvailableReportsLoaded | src/app/pages/admin/loans/loans.component.ts:127-137 | the fetched reports are stored; a failure keeps the list and shows an error |
| Loans.LoansPage.InitializeFilters | src/app/pages/admin/loans/loans.component.ts:150-165 | the form has exactly one empty, untouched control per required or optional filter, required exactly for the required ones |
| Loans.LoansPage.OnReportTypeChange | src/app/pages/admin/loans/loans.component.ts:140-147 | the report is selected and the old preview dropped; its form is built and shown, with one empty, untouched control per filter of the report, required exactly for its required filters; the users, the search and the report list are untouched |
| Loans.LoansPage.GetReportDescription | src/app/pages/admin/loans/loans.component.ts:277-280 | the description of the first report with the selected id, or '' when there is none |
| Loans.LoansPage.GenerateReport | src/app/pages/admin/loans/loans.component.ts:183-210 | an invalid form is marked and reported without a request; otherwise the preview of the selected report is asked for with the form's values and fills the table or shows an error, and loading ends; an unknown report throws first and loading never ends; the preview is kept on every path that does not fill it |
| Loans.LoansPage.GeneratePdf | src/app/pages/admin/loans/loans.component.ts:212-230 | the PDF of the selected report is asked for with the form's values; a response names the file after the report and the moment and shows success, a failure shows an error, and loading ends; an unknown report throws first |
| Loans.LoansPage.ResetFilters | src/app/pages/admin/loans/loans.component.ts:232-234 | the form is reset and, by its frame, no other field changes |
| Loans.DateRangeError | src/app/pages/admin/loans/loans.component.ts:282-299 | the date-range check of the report form; DateRangeMeaning states when it fires |
| Loans.FirstListing | src/app/pages/admin/loans/loans.component.ts:173-181 | the kind of the first filter-table entry that lists a name; the loop of GetFilterType is proved equal to it and FilterTypeCases gives its values |
| Reports.ReportOf | src/app/services/report.service.ts:96-107 | a key that is found names the report type whose key it is |
| Reports.ReportOfKey | src/app/services/report.service.ts:96-103 | every report type is found under its own key, so the six keys are distinct |
| Reports.ReportOfKnown | src/app/services/report.service.ts:105-107 | a key is known exactly when it is one of the six report keys |
| Reports.GenerateReport | src/app/services/report.service.ts:95-110 | an unknown key throws 'Tipo de reporte no válido'; a known one requests its PDF endpoint as a file with the filters as parameters |
| Reports.GetReportPreview | src/app/services/report.service.ts:155-171 | an unknown key throws 'Tipo de reporte no válido'; a known one requests its preview endpoint, not as a file, with the filters as parameters |
| Reports.PreviewBesideDownload | src/app/services/report.service.ts:156-163 | the preview is known for exactly the keys the PDF dispatch knows, and its endpoint is the PDF endpoint followed by '/preview' |
| Reports.GetFilterOptions | src/app/services/report.service.ts:113-138 | a known report gets its own entry and an unknown one empty required and optional lists; the optional list is always there |
| Reports.RequiredFiltersByReport | src/app/services/report.service.ts:115-134 | only loans-by-period (the academic period) and movements (both dates) have required filters |
| Reports.RequiredOptionalDisjoint | src/app/services/report.service.ts:115-134 | no report lists a filter as both required and optional |
| Reports.Dashed | src/app/services/report.service.ts:151 | the replacement keeps the length and turns exactly each ':' and '.' into '-' |
| Reports.DashedMeaning | src/app/services/report.service.ts:151 | the result has no ':' or '.', keeps every other character, and a second replacement changes nothing |
| Reports.GetReportFileName | src/app/services/report.service.ts:141-153 | the name is the report's prefix, '_', the timestamp with ':' and '.' replaced, and '.pdf' |
| Reports.TablesShareKeys | src/app/services/report.service.ts:95-171 | the four tables cover the same six keys: a key known to the PDF dispatch is known to the preview, has a real file prefix and a non-empty filter entry, and an unknown one gets the empty filter entry |
| AcademicPeriods.DateRangeStrict | src/app/pages/admin/academic-periods/academic-periods.component.ts:145-150 | equal dates fail, a valid range reversed is invalid, and of two different set dates exactly one order is valid |
| AcademicPeriods.EmptyFormInvalid | src/app/pages/admin/academic-periods/academic-periods.component.ts:28-37 | an empty (reset) form is never valid |
| AcademicPeriods.DatePart | src/app/pages/admin/academic-periods/academic-periods.component.ts:73-74 | the date part is the prefix of the timestamp before its first 'T', and the whole string when there is none |
| AcademicPeriods.ActiveOf | src/app/pages/admin/academic-periods/academic-periods.component.ts:50 | a period is found exactly when one is active, and it is the first active period of the list |
| AcademicPeriods.InactiveOfMeaning | src/app/pages/admin/academic-periods/academic-periods.component.ts:51 | the inactive list holds exactly the inactive periods, never the active one |
| AcademicPeriods.PartitionCount | src/app/pages/admin/academic-periods/academic-periods.component.ts:50-51 | every period is either active or in the inactive list: the two counts add up to the list's length |
| AcademicPeriods.AcademicPeriodsPage.constructor | src/app/pages/admin/academic-periods/academic-periods.component.ts:16-38 | no periods, no active period, not editing, the inactive table hidden and an empty form |
| AcademicPeriods.AcademicPeriodsPage.OnPeriodsLoaded | src/app/pages/admin/academic-periods/academic-periods.component.ts:46-58 | the list, its first active period and its inactive periods in order; a failure keeps them and shows an error |
| AcademicPeriods.AcademicPeriodsPage.OpenCreateForm | src/app/pages/admin/academic-periods/academic-periods.component.ts:60-64 | create mode with the inactive table hidden and an empty form |
| AcademicPeriods.AcademicPeriodsPage.OpenEditForm | src/app/pages/admin/academic-periods/academic-periods.component.ts:66-77 | edit mode; the form holds the active period's name and the date parts of its dates, and is left alone when there is no active period |
| AcademicPeriods.AcademicPeriodsPage.ToggleInactiveTable | src/app/pages/admin/academic-periods/academic-periods.component.ts:122-129 | the table flips; opening it also leaves edit mode and empties the form |
| AcademicPeriods.AcademicPeriodsPage.SaveEdit | src/app/pages/admin/academic-periods/academic-periods.component.ts:87-98 | the active period is updated with the form's values and a success reloads the list; without an active period nothing is sent |
| AcademicPeriods.AcademicPeriodsPage.SaveCreate | src/app/pages/admin/academic-periods/academic-periods.component.ts:100-118 | the period is created, and only then is the new id activated; only a successful activation reloads the list |
| AcademicPeriods.AcademicPeriodsPage.SavePeriod | src/app/pages/admin/academic-periods/academic-periods.component.ts:79-120 | an invalid form shows an error and sends nothing; otherwise the form goes to the update of the active period or to the create-then-activate sequence, and the list is reloaded exactly when that sequence succeeded |
| AcademicPeriods.AcademicPeriodsPage.ActivatePeriod | src/app/pages/admin/academic-periods/academic-periods.component.ts:132-143 | the given period is activated, and success reloads the list |
| AcademicPeriods.InactiveOf | src/app/pages/admin/academic-periods/academic-periods.component.ts:51 | the inactive periods in order; InactiveOfMeaning and PartitionCount state what it holds |
| AcademicPeriods.DateRangeValid | src/app/pages/admin/academic-periods/academic-periods.component.ts:145-150 | both dates set and the start sorting before the end; DateRangeStrict states it is a strict order |
| Users.FilterUsersByName | src/app/services/user.service.ts:100-106 | an empty term returns the list unchanged; otherwise a user is kept exactly when their name contains the term, ignoring case, and the list never grows |
| Users.FilterUsersByNameConcat | src/app/services/user.service.ts:103-105 | the search keeps the users' order: searching two lists joined is joining the two searches |
| Users.ValidateEmailMeaning | src/app/services/user.service.ts:123-126 | checking the first '@' and the last '.' accepts exactly the strings the regular expression matches |
| Users.PasswordResetError | src/app/services/user.service.ts:112-118 | status 404 names the missing user and any other failure gives the generic message |
| Users.RequestPasswordReset | src/app/services/user.service.ts:108-120 | no error exactly when the request succeeds, otherwise the message for its status |
| Users.RemainingTime | src/app/services/user.service.ts:58-66 | the server's remaining time, or 0 when the request fails |
| Users.UserService.constructor | src/app/services/user.service.ts:13-16 | the session is not expiring |
| Users.UserService.CheckSessionExpiration | src/app/services/user.service.ts:69-77 | the session is flagged expiring exactly when at most five minutes remain, so a failed request flags it |
| Users.UserService.Logout | src/app/services/user.service.ts:39-50 | the cart is cleared whether or not the call succeeds, and only a success navigates to '/' |
| Users.ValidateEmail | src/app/services/user.service.ts:123-126 | the generic e-mail test by the first '@' and the last '.'; ValidateEmailMeaning proves it accepts exactly what the regular expression matches |
| Users.NameMatches | src/app/services/user.service.ts:100-106 | a user's name contains the term, ignoring case; FilterUsersByName states that the filter keeps exactly these users |
| AccountForms.NameError | src/app/pages/authentication/register/register.component.ts:48-52 | the name is flagged exactly when it is blank, and then with 'El nombre es requerido' |
| AccountForms.LastNameError | src/app/pages/authentication/register/register.component.ts:54-58 | the last name is flagged exactly when it is blank, with its own message |
| AccountForms.SuffixLength | src/app/pages/authentication/register/register.component.ts:62 | a fixed suffix can start at only one position, so a literal domain at the end leaves one split to try |
| AccountForms.InstitutionalEmailMeaning | src/app/pages/authentication/register/register.component.ts:62 | checking the split that leaves exactly '@espe.edu.ec' accepts exactly the addresses the regular expression matches |
| AccountForms.InstitutionalNotBlank | src/app/pages/authentication/register/register.component.ts:62-65 | an address the pattern accepts starts with a letter or digit, so it is never blank |
| AccountForms.EmailErrorMeaning | src/app/pages/authentication/register/register.component.ts:60-74 | the e-mail passes exactly when it has no two dots in a row and matches the institutional pattern; otherwise it gets only the message of the first failed test, in the order blank, dots, pattern |
| AccountForms.InstitutionalSingleAt | src/app/pages/authentication/register/register.component.ts:62 | an address of the institutional pattern has no '@' except the one that starts the domain |
| AccountForms.AcceptedEmailShape | src/app/pages/authentication/register/register.component.ts:60-74 | an accepted address ends in the institutional domain after at least two characters, and holds exactly one '@' |
| Register.RegisterPasswordError | src/app/pages/authentication/register/register.component.ts:76-83 | the password passes exactly when it has at least six characters; an empty one is 'required', a short one 'too short' |
| Register.RegisterFormValidMeaning | src/app/pages/authentication/register/register.component.ts:39-86 | the form is accepted exactly when both names are not blank, the e-mail has no two dots in a row and matches the institutional pattern, and the password has six characters |
| Register.RegisterPage.constructor | src/app/pages/authentication/register/register.component.ts:17-31 | empty values, no errors, errors hidden |
| Register.RegisterPage.ValidateForm | src/app/pages/authentication/register/register.component.ts:39-86 | the errors start empty and end as each field's check gives them, and the form is valid exactly when it is accepted |
| Register.RegisterPage.OnSubmit | src/app/pages/authentication/register/register.component.ts:89-114 | errors are shown; an invalid form gets the error notice and no call; a valid one is sent as typed, and success leads to '/login' while failure shows the server's message or the default |
| UserProfile.ProfilePasswordError | src/app/pages/authentication/user-profile/user-profile.component.ts:81-87 | the profile password passes exactly when it is empty (kept) or has at least six characters |
| UserProfile.ProfileAndRegisterAgree | src/app/pages/authentication/user-profile/user-profile.component.ts:45-90 | the profile form accepts whatever the sign-up form accepts, and they differ only on the empty password, which only the profile takes |
| UserProfile.OrElse | src/app/pages/authentication/user-profile/user-profile.component.ts:96-100 | a non-empty value is kept; a missing or empty one gives the fallback |
| UserProfile.ProfileOfDefaults | src/app/pages/authentication/user-profile/user-profile.component.ts:95-101 | no field of the profile is empty, a non-empty field from the server is kept, a missing e-mail shows 'No disponible', and the id falls back to userId exactly when id is missing or 0 |
| UserProfile.MissingEmailBlocksSave | src/app/pages/authentication/user-profile/user-profile.component.ts:99-104 | a profile fetched without an e-mail cannot be saved unchanged: 'No disponible' fails the e-mail check |
| UserProfile.ProfileImageTypeUnanchored | src/app/pages/authentication/user-profile/user-profile.component.ts:116 | the type test is not anchored: any MIME type that contains one of the three image types passes |
| UserProfile.UpdatePayloadShape | src/app/pages/authentication/user-profile/user-profile.component.ts:142-151 | the body holds name, last name and e-mail first, a password exactly when one was typed, and the picture last exactly when one was chosen |
| UserProfile.CancelledPayload | src/app/pages/authentication/user-profile/user-profile.component.ts:177-185 | after a cancel, an update sends exactly the profile's name, last name and e-mail |
| UserProfile.UserProfilePage.constructor | src/app/pages/authentication/user-profile/user-profile.component.ts:19-36 | an empty profile and form, no picture, not editing and no errors |
| UserProfile.UserProfilePage.ValidateForm | src/app/pages/authentication/user-profile/user-profile.component.ts:45-90 | the errors end as each field's check gives them, and the form is valid exactly when no check fails |
| UserProfile.UserProfilePage.OnUserDetailsLoaded | src/app/pages/authentication/user-profile/user-profile.component.ts:92-110 | the profile is built with its defaults and its name, last name and e-mail copied into the form; the typed password stays; a failure changes nothing |
| UserProfile.UserProfilePage.OnImageSelected | src/app/pages/authentication/user-profile/user-profile.component.ts:113-133 | a single file whose type passes becomes the picture; a wrong type or several files give their error and keep the old picture; no file throws and changes nothing |
| UserProfile.UserProfilePage.SendUpdate | src/app/pages/authentication/user-profile/user-profile.component.ts:142-163 | the body goes to the user's id; success reloads the profile and leaves edit mode, failure shows the server's message or the default |
| UserProfile.UserProfilePage.UpdateUser | src/app/pages/authentication/user-profile/user-profile.component.ts:136-164 | an invalid form gets the error notice and no call; a valid one is sent as above; the errors always end as the checks give them |
| UserProfile.UserProfilePage.StartEditing | src/app/pages/authentication/user-profile/user-profile.component.ts:167-169 | edit mode, nothing else changes |
| UserProfile.UserProfilePage.CancelEditing | src/app/pages/authentication/user-profile/user-profile.component.ts:177-185 | edit mode ends, the form holds the profile's values with no password, and the picture and preview are dropped |
| AccountForms.EmailError | src/app/pages/authentication/register/register.component.ts:60-74 | the e-mail message the forms show; EmailErrorMeaning states when each message is chosen |
| AccountForms.IsInstitutionalEmail | src/app/pages/authentication/register/register.component.ts:62 | the institutional e-mail test as a split at the fixed domain; InstitutionalEmailMeaning proves it accepts exactly what the regular expression matches |
| Register.RegisterErrors | src/app/pages/authentication/register/register.component.ts:39-86 | the four messages the sign-up check leaves; RegisterFormValidMeaning states when none is left |
| UserProfile.ProfileOf | src/app/pages/authentication/user-profile/user-profile.component.ts:95-101 | the profile built from the server data with its defaults; ProfileOfDefaults states the defaults |
| UserProfile.UpdatePayload | src/app/pages/authentication/user-profile/user-profile.component.ts:142-151 | the form parts of the update request; UpdatePayloadShape states their order and when the optional ones appear |
| UserProfile.ProfileImageType | src/app/pages/authentication/user-profile/user-profile.component.ts:116 | the picture type test; ProfileImageTypeUnanchored proves it is not anchored |
| Guards.AuthDecision | src/app/guards/auth.guard.ts:13-35 | the route is entered exactly when a user came back and has the required role (or none is required); no user or a failed fetch leads to '/login', a wrong role to '/home', and a refusal always navigates |
| Guards.RoleLanding | src/app/guards/unauth-guard.guard.ts:18-26 | the admin lands on the component list, a user on the catalogue, any other role on '/home' |
| Guards.UnauthDecision | src/app/guards/unauth-guard.guard.ts:13-32 | a visitor (no user, or a failed fetch) enters; a signed-in user is kept out and sent to their landing page |
| Guards.GuardsComplementary | src/app/guards/auth.guard.ts:16-28 | the two guards split every fetch outcome: a signed-in route is open exactly when a guest route is closed |
| Guards.RoleNarrows | src/app/guards/auth.guard.ts:22-28 | a required role only narrows the guard: whoever enters a role route also enters without the role |
| AppRoutes.GuardsOfSingle | src/app/app.routes.ts:5-106 | a route entered alone carries its own guard with its role data, or none |
| AppRoutes.FirstMatch | src/app/app.routes.ts:5-106 | the first route that fits decides the match |
| AppRoutes.SegmentMismatch | src/app/app.routes.ts:5-106 | a one-segment route whose segment does not fit is passed over |
| AppRoutes.LeafMatch | src/app/app.routes.ts:5-106 | a page without children whose path is the whole URL is entered |
| AppRoutes.ParentMatch | src/app/app.routes.ts:27-101 | a route with children that fits the start of the URL hands the rest of it to its children |
| AppRoutes.ToHome | src/app/app.routes.ts:6-101 | a URL starting with 'home' passes over the four routes before 'home' and is matched by it, or by the wildcard when no child fits |
| AppRoutes.GuardsOfMatched | src/app/app.routes.ts:5-106 | a URL matched without a redirect has exactly the guards of the routes it enters |
| AppRoutes.GuardsUnderHome | src/app/app.routes.ts:27-30 | 'home' carries no guard, so a page under it keeps only its own |
| AppRoutes.HomeChildMatch | src/app/app.routes.ts:31-94 | a child of 'home' named by the URL, with no earlier child of that name, is the one entered |
| AppRoutes.HomePageMatch | src/app/app.routes.ts:27-94 | '/home/<name>' enters 'home' and then that child |
| AppRoutes.HomePage | src/app/app.routes.ts:27-94 | such a page has only its own guard and role on the way |
| AppRoutes.GuestPagesGuarded | src/app/app.routes.ts:6-26 | '', 'register' and 'forgot-password' are guarded by UnauthGuard alone |
| AppRoutes.AdminPagesGuarded | src/app/app.routes.ts:31-60 | the five administration pages are guarded by AuthGuard with the 'admin' role alone |
| AppRoutes.UserPagesGuarded | src/app/app.routes.ts:61-84 | the catalogue, the loan summary, the request list and a request's details are guarded by AuthGuard with the 'user' role alone |
| AppRoutes.RequestDetailsMatch | src/app/app.routes.ts:79-84 | '/home/requestDetails/<id>' with a non-empty id enters the details page |
| AppRoutes.RequestDetailsGuarded | src/app/app.routes.ts:79-84 | that page is guarded by the 'user' role alone |
| AppRoutes.SignedInPagesGuarded | src/app/app.routes.ts:17-21 | the profile page, the not-found page and the module selection ask only for a signed-in user |
| AppRoutes.ModuleSelectionGuarded | src/app/app.routes.ts:17-21 | the module selection asks only for a signed-in user |
| AppRoutes.HomeDefaultRedirect | src/app/app.routes.ts:95-99 | '/home' alone fits only the empty child, which redirects to '/home/404' |
| AppRoutes.HomeGuarded | src/app/app.routes.ts:90-99 | '/home' therefore shows the not-found page to any signed-in user |
| AppRoutes.UnknownUrl | src/app/app.routes.ts:102-105 | a URL whose first segment names no top-level page is redirected to '' and so reaches the login page behind UnauthGuard |
| AppRoutes.LoginMatch | src/app/app.routes.ts:6-11 | '' is the login page, guarded by UnauthGuard |
| AppRoutes.AuthRedirectAdmits | src/app/guards/auth.guard.ts:16-33 | wherever AuthGuard sends a user it turns away, the guards there let that same user in: no redirect loop |
| AppRoutes.UnauthRedirectAdmits | src/app/guards/unauth-guard.guard.ts:17-27 | wherever UnauthGuard sends a signed-in user, the guards there let that user in |
| SelectionModule.NavigateToInventory | src/app/components/selection-module/selection-module.component.ts:44-58 | a failed fetch goes to '/login', the admin to the component list, any other role to the catalogue, and a null user to nothing |
| SelectionModule.SelectionMatchesLanding | src/app/components/selection-module/selection-module.component.ts:46-51 | the chooser agrees with UnauthGuard's landing page for 'admin' and 'user', and differs for any other role |
| SelectionModule.SelectionTargetAdmits | src/app/components/selection-module/selection-module.component.ts:44-58 | the page the chooser picks lets the user in exactly when the fetch failed or the role is 'admin' or 'user' |
| AppRoutes.MatchRoute | src/app/app.routes.ts:5-106 | how one route of the table matches a URL, with its children; FirstMatch, LeafMatch, ParentMatch and SegmentMismatch state the cases |
| AppRoutes.MatchRoutes | src/app/app.routes.ts:5-106 | the first route of a list that matches; FirstMatch states that an earlier match wins |
| AppRoutes.Navigate | src/app/app.routes.ts:5-106 | matching with the redirects followed; HomePageMatch, HomeDefaultRedirect and UnknownUrl state where each URL ends |
| AppRoutes.Admits | src/app/guards/auth.guard.ts:16-33 | every guard on the way to a URL lets the user in; AuthRedirectAdmits and UnauthRedirectAdmits prove the guards' redirects land on admitting pages |

## Left out

- HTTP transport, JSON and `HttpParams`: every request is a value in the `calls` (or `request`) result, and every response is a `Result` parameter. The REST wrappers only build requests and are not modelled: `getRequestById`, `updateRequest`, `deleteRequest`, `getComprobante`, `getNotReturnedLoans`, `validateFilters`, `getAvailableReports`, the six `get…Report` methods, `login`, `register`, `extendSession`, `isAuthenticated` and `getAllUsers`.
- Storage is one field holding the list itself. The unguarded `JSON.parse` of `getSelectedComponents`, which throws on malformed data, is not modelled.
- Asynchrony: each subscription callback, SweetAlert confirmation and re-fetch runs as one sequential step with its outcome given. Racing re-fetches are not modelled.
- Timers: the `setInterval` session polling (`startSessionExpirationCheck`, `isSessionExpiring`) and the `setTimeout` that clears a non-integer quantity. `CheckSessionExpiration` models one poll.
- Browser and file APIs: `FileReader` previews, `Blob`, `URL.createObjectURL`, `downloadPDF`, `openProof` and `closeProofModal`, and the DOM resets of checkboxes and selects. A picked file is its name and MIME type.
- Dates: `new Date()`, `toISOString` and time zones. The current moment and the parsed dates are parameters. Date inputs are compared as their 'YYYY-MM-DD' strings.
- Numbers: JavaScript numbers (the quantities) are `real`, so there is no NaN, no Infinity and no floating-point rounding. `Number.isInteger` is `IsWhole`, exact on every value.
- Text: `trim` removes ASCII whitespace only, and `toLowerCase` is ASCII only. String lengths count Dafny characters, not UTF-16 code units.
- Object-literal lookups with prototype keys such as 'constructor' or 'toString' are treated as unknown keys.
- Angular forms: `Validators` and `FormGroup` are plain maps from control to value. A reset control holds '' instead of `null`. `isFieldInvalid` (display only) and `setErrors(null)` on the end-date control are not modelled.
- View-only handlers: `toggleFilterMenu`, `onClickOutside`, `handleCategoryChange`, `toggleComponentList`, `toggleTypeDropdown`, `selectType`, `closeComponentListOnClickOutside`, `ngOnDestroy`, `removeImage`, `openDetails`, `goToDetails`, `openDeleteModal`, `openModalForUpdate`, `enableEditCategory`, `trackByFn`, `showError` and `showSuccess`. The per-field change handlers `onNameChange`, `onDescriptionChange` and `onReasonChange` set the same flags that `ValidateTextFields` sets, and `onCategoryChange` of the movement page sets `categoryValid` as `ValidateForm2` does.
- Pure fetch-and-assign handlers: `getCategories`, `getFilteredComponents`, `filterComponentsByStatus`, `getComponents` of the movement and loans pages, and `loadPeriods` of the loans page. So are the category and component edits `createCategory`, `deleteCategory` and `updateComponent`, which send a request and reload.
- Router details: lazy loading, guards returning observables, and absolute redirects. `Navigate` follows at most one redirect, which is all the route table needs.
- The login, forgot-password, header, sidebar, layout, alert-styling and request-details files are not part of this model.
- SelectionModule.NavigateToInventory: a `null` user makes reading `user.role` throw, so the model navigates nowhere. It does not give exactly one navigation for every outcome.
- RequestView.RequestViewPage.SubmitReturnDate: a failure without a body makes `error.error.error` throw in the source. The model shows the default message instead.
- AcademicPeriods.AcademicPeriodsPage.SavePeriod: states which calls are made and in which order. The alerts of each branch are stated by `SaveEdit` and `SaveCreate`.
- ComponentMovement.ComponentMovementPage.CreateComponent: the second guard (a blank reason) is not in the method. `CreateComponentReasonGuardRedundant` proves it can never fire after `validateForm2` has passed.
