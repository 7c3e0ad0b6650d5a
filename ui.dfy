/** The notices a page shows: SweetAlert2 popups (`error(message, description?)`, `success`,
    `loading`) and PrimeNG toasts. Only their text is modelled. */
module Ui {
  import opened Wrappers

  datatype Notice =
    | ErrorAlert(message: string, description: Option<string>)
    | SuccessAlert(message: string)
    | LoadingAlert(message: string)
    | Toast(severity: string, summary: string)
    | BrowserAlert(message: string)  // window.alert

  /** `sweetalertService.error(message)` with no description. */
  function Error(message: string): (n: Notice)
    ensures n.ErrorAlert? && n.message == message && n.description.None?
  {
    ErrorAlert(message, None)
  }

  /** A file picked in an `<input type="file">`: its name and MIME type. */
  datatype FileInfo = FileInfo(name: string, mimeType: string)

  /** The notice shown wherever the server reports that no academic period is active. */
  const NoActivePeriodNotice := "No hay un periodo académico activo. Por favor, configúrelo antes de continuar."
}
