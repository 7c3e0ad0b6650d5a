/** src/app/pages/authentication/user-profile/user-profile.component.ts: the signed-in user's
    profile, its edit form (same field rules as sign-up, but an optional password), the
    picture picker and the update request. */
module UserProfile {
  import opened Wrappers
  import opened Text
  import opened Ui
  import opened AccountForms
  import Register

  /** The profile password check: an empty password means "keep the current one"; a new one
      needs six characters. */
  function ProfilePasswordError(password: string): (m: string)
    ensures m == "" <==> password == "" || |password| >= 6
    ensures m != "" ==> m == PasswordTooShort
  {
    if password != "" && |password| < 6 then PasswordTooShort else ""
  }

  /** The errors `validateForm` leaves for the given values. */
  function ProfileErrors(d: AccountData): FormErrors
  {
    FormErrors(EmailError(d.email), ProfilePasswordError(d.password), NameError(d.name), LastNameError(d.lastName))
  }

  predicate ProfileFormValid(d: AccountData)
  {
    ProfileErrors(d) == NoErrors
  }

  /** The two forms agree except on the empty password: sign-up refuses it, the profile
      takes it as "unchanged". */
  lemma ProfileAndRegisterAgree(d: AccountData)
    ensures Register.RegisterFormValid(d) ==> ProfileFormValid(d)
    ensures ProfileFormValid(d) && d.password != "" ==> Register.RegisterFormValid(d)
    ensures ProfileFormValid(d) && d.password == "" ==> !Register.RegisterFormValid(d)
  {
    var r := Register.RegisterErrors(d);
    var p := ProfileErrors(d);
    assert r.email == p.email && r.name == p.name && r.lastName == p.lastName;
    assert Register.RegisterFormValid(d) <==> r.email == "" && r.password == "" && r.name == "" && r.lastName == "";
    assert ProfileFormValid(d) <==> p.email == "" && p.password == "" && p.name == "" && p.lastName == "";
  }

  /** The user object `getUserDetails` returns; absent or empty properties are `None` or ''. */
  datatype UserDetails = UserDetails(
    id: Option<int>, userId: Option<int>,
    name: Option<string>, lastName: Option<string>, email: Option<string>, imageUrl: Option<string>)

  /** The page's `user`. */
  datatype ProfileUser = ProfileUser(userId: Option<int>, name: string, lastName: string, email: string, imageUrl: string)

  const NotAvailable := "No disponible"

  /** `value || fallback` on a string that may be missing. */
  function OrElse(value: Option<string>, fallback: string): (r: string)
    ensures value.Some? && value.value != "" ==> r == value.value
    ensures value.None? || value.value == "" ==> r == fallback
  {
    if value.Some? && value.value != "" then value.value else fallback
  }

  /** The `user` that `loadUserDetails` builds: the id from `id`, or from `userId` when `id`
      is missing or 0; 'No disponible' for a missing name, last name or e-mail; the default
      picture under `apiUrl` when there is none. */
  function ProfileOf(data: UserDetails, apiUrl: string): ProfileUser
  {
    ProfileUser(
      if Truthy(data.id) then data.id else data.userId,
      OrElse(data.name, NotAvailable),
      OrElse(data.lastName, NotAvailable),
      OrElse(data.email, NotAvailable),
      OrElse(data.imageUrl, apiUrl + "/assets/default-user.png"))
  }

  /** No field of the profile is ever empty, a non-empty field the server sends is kept, and
      the id falls back to `userId` exactly when `id` is missing or 0. */
  lemma ProfileOfDefaults(data: UserDetails, apiUrl: string)
    ensures var u := ProfileOf(data, apiUrl);
      u.name != "" && u.lastName != "" && u.email != "" && u.imageUrl != ""
    ensures data.name.Some? && data.name.value != "" ==> ProfileOf(data, apiUrl).name == data.name.value
    ensures data.email.Some? && data.email.value != "" ==> ProfileOf(data, apiUrl).email == data.email.value
    ensures (data.email.None? || data.email.value == "") ==> ProfileOf(data, apiUrl).email == NotAvailable
    ensures ProfileOf(data, apiUrl).userId == data.id || (!Truthy(data.id) && ProfileOf(data, apiUrl).userId == data.userId)
  {
    var u := ProfileOf(data, apiUrl);
    assert |apiUrl + "/assets/default-user.png"| > 0;
  }

  /** A fetched profile shown in the form with 'No disponible' for a missing e-mail fails the
      e-mail check, so such a profile cannot be saved unchanged. */
  lemma MissingEmailBlocksSave(data: UserDetails, apiUrl: string, password: string)
    requires data.email.None? || data.email.value == ""
    ensures var u := ProfileOf(data, apiUrl);
      !ProfileFormValid(AccountData(u.email, password, u.name, u.lastName))
  {
    var u := ProfileOf(data, apiUrl);
    assert u.email == NotAvailable;
    assert NotAvailable[2] == ' ';
    assert !IsInstitutionalEmail(NotAvailable) by {
      var k := |NotAvailable| - |InstitutionalDomain|;
      assert k == 1;
    }
    EmailErrorMeaning(NotAvailable);
    InstitutionalEmailMeaning(NotAvailable);
    assert EmailError(NotAvailable) != "";
  }

  /** `file.type.match(/image\/(jpeg|jpg|png)/)`: the pattern is not anchored, so any type
      that contains one of the three names passes. */
  predicate ProfileImageType(mimeType: string)
  {
    Contains(mimeType, "image/jpeg") || Contains(mimeType, "image/jpg") || Contains(mimeType, "image/png")
  }

  /** The three image types pass, and so does any type with one of them inside it. */
  lemma ProfileImageTypeUnanchored(before: string, t: string, after: string)
    requires t in {"image/jpeg", "image/jpg", "image/png"}
    ensures ProfileImageType(before + t + after)
  {
    var s := before + t + after;
    assert s[|before|..|before| + |t|] == t;
    assert OccursAt(s, t, |before|);
  }

  /** One part of the `FormData` sent to `updateUser`. */
  datatype FormPart = TextPart(key: string, value: string) | FilePart(key: string, file: FileInfo)

  /** The body of the update: name, last name and e-mail always; the password only when one
      was typed; the picture only when one was chosen. */
  function UpdatePayload(d: AccountData, image: Option<FileInfo>): seq<FormPart>
  {
    [TextPart("name", d.name), TextPart("lastName", d.lastName), TextPart("email", d.email)] +
    (if d.password != "" then [TextPart("password", d.password)] else []) +
    (if image.Some? then [FilePart("image", image.value)] else [])
  }

  /** What the payload holds: the three text fields first; a password part exactly when a
      password was typed, and no other text part; the picture last exactly when one was
      chosen. */
  lemma UpdatePayloadShape(d: AccountData, image: Option<FileInfo>)
    ensures var p := UpdatePayload(d, image);
      |p| >= 3 && p[..3] == [TextPart("name", d.name), TextPart("lastName", d.lastName), TextPart("email", d.email)]
    ensures TextPart("password", d.password) in UpdatePayload(d, image) <==> d.password != ""
    ensures var p := UpdatePayload(d, image);
      forall i :: 3 <= i < |p| && p[i].TextPart? ==> p[i] == TextPart("password", d.password)
    ensures var p := UpdatePayload(d, image);
      image.Some? ==> p[|p| - 1] == FilePart("image", image.value)
    ensures var p := UpdatePayload(d, image);
      image.None? ==> forall i :: 0 <= i < |p| ==> p[i].TextPart?
    ensures |UpdatePayload(d, image)| == 3 + (if d.password != "" then 1 else 0) + (if image.Some? then 1 else 0)
  {
  }

  /** A service call of this page. */
  datatype ProfileCall = GetUserDetailsCall | UpdateUserCall(userId: Option<int>, body: seq<FormPart>)

  const InvalidProfileMessage := "Por favor, corrija los errores en el formulario antes de continuar."
  const UpdatedMessage := "Usuario actualizado exitosamente"
  const UpdateFailedMessage := "Ocurrió un error al actualizar los datos"
  const WrongImageTypeMessage := "Solo se permiten imágenes en formato JPEG, JPG o PNG."
  const OneImageMessage := "Solo puedes seleccionar una imagen a la vez."

  class UserProfilePage {
    const apiUrl: string
    var user: ProfileUser
    var updatedData: AccountData
    var selectedImage: Option<FileInfo>
    var imagePreview: Option<string>
    var isEditing: bool
    var formErrors: FormErrors

    constructor (apiUrl: string)
      ensures this.apiUrl == apiUrl
      ensures user == ProfileUser(None, "", "", "", "") && updatedData == AccountData("", "", "", "")
      ensures selectedImage.None? && imagePreview.None? && !isEditing && formErrors == NoErrors
    {
      this.apiUrl := apiUrl;
      user := ProfileUser(None, "", "", "", "");
      updatedData := AccountData("", "", "", "");
      selectedImage := None;
      imagePreview := None;
      isEditing := false;
      formErrors := NoErrors;
    }

    /** `validateForm`: starts from no errors, then checks the name, the last name, the e-mail
        (at most one message) and, only when one was typed, the password. */
    method ValidateForm() returns (isValid: bool)
      modifies this`formErrors
      ensures formErrors == ProfileErrors(updatedData)
      ensures isValid <==> ProfileFormValid(updatedData)
    {
      var d := updatedData;
      isValid := true;
      var email, password, name, lastName := "", "", "", "";

      if Trim(d.name) == "" {
        name := NameRequired;
        isValid := false;
      }
      assert name == NameError(d.name);

      if Trim(d.lastName) == "" {
        lastName := LastNameRequired;
        isValid := false;
      }
      assert lastName == LastNameError(d.lastName);

      if Trim(d.email) == "" {
        email := EmailRequired;
        isValid := false;
      } else if Contains(d.email, "..") {
        email := ConsecutiveDots;
        isValid := false;
      } else if !IsInstitutionalEmail(d.email) {
        email := NotInstitutional;
        isValid := false;
      }
      assert email == EmailError(d.email);

      if d.password != "" {
        if |d.password| < 6 {
          password := PasswordTooShort;
          isValid := false;
        }
      }
      assert password == ProfilePasswordError(d.password);
      formErrors := FormErrors(email, password, name, lastName);
    }

    /** The `next` handler of `loadUserDetails`: the profile with its defaults, copied into
        the form (the typed password is kept). A failed fetch changes nothing. */
    method OnUserDetailsLoaded(response: Result<UserDetails>)
      modifies this
      ensures response.Ok? ==> user == ProfileOf(response.value, apiUrl)
      ensures response.Ok? ==> updatedData == AccountData(user.email, old(updatedData).password, user.name, user.lastName)
      ensures response.Err? ==> user == old(user) && updatedData == old(updatedData)
      ensures selectedImage == old(selectedImage) && imagePreview == old(imagePreview)
      ensures isEditing == old(isEditing) && formErrors == old(formErrors)
    {
      if response.Ok? {
        user := ProfileOf(response.value, apiUrl);
        updatedData := updatedData.(name := user.name, lastName := user.lastName, email := user.email);
      }
    }

    /** `onImageSelected`: the first file must be of an image type and the only file; then it
        becomes the selected picture. With no file at all, reading `files[0].type` throws and
        nothing happens. */
    method OnImageSelected(files: seq<FileInfo>) returns (notices: seq<Notice>)
      modifies this
      ensures files == [] ==> notices == [] && selectedImage == old(selectedImage)
      ensures files != [] && !ProfileImageType(files[0].mimeType) ==>
        (notices == [Error(WrongImageTypeMessage)] && selectedImage == old(selectedImage))
      ensures files != [] && ProfileImageType(files[0].mimeType) && |files| > 1 ==>
        (notices == [Error(OneImageMessage)] && selectedImage == old(selectedImage))
      ensures |files| == 1 && ProfileImageType(files[0].mimeType) ==> notices == [] && selectedImage == Some(files[0])
      ensures user == old(user) && updatedData == old(updatedData) && imagePreview == old(imagePreview)
      ensures isEditing == old(isEditing) && formErrors == old(formErrors)
    {
      if files == [] {
        return [];
      }
      var file := files[0];
      if !ProfileImageType(file.mimeType) {
        return [Error(WrongImageTypeMessage)];
      }
      if |files| > 1 {
        return [Error(OneImageMessage)];
      }
      selectedImage := Some(file);
      notices := [];
    }

    /** The request half of `updateUser`, once the form is valid: the payload goes to the
        user's id; success reloads the profile and leaves edit mode, failure shows the
        server's message or a generic one. */
    method SendUpdate(response: Result<()>) returns (notices: seq<Notice>, calls: seq<ProfileCall>)
      modifies this
      ensures user == old(user) && updatedData == old(updatedData) && selectedImage == old(selectedImage)
      ensures imagePreview == old(imagePreview) && formErrors == old(formErrors)
      ensures response.Ok? ==>
        (calls == [UpdateUserCall(user.userId, UpdatePayload(updatedData, selectedImage)), GetUserDetailsCall] &&
         notices == [SuccessAlert(UpdatedMessage)] && !isEditing)
      ensures response.Err? ==>
        (calls == [UpdateUserCall(user.userId, UpdatePayload(updatedData, selectedImage))] &&
         notices == [Error(ServerDetailOr(response.error, UpdateFailedMessage))] && isEditing == old(isEditing))
    {
      calls := [UpdateUserCall(user.userId, UpdatePayload(updatedData, selectedImage))];
      if response.Ok? {
        notices := [SuccessAlert(UpdatedMessage)];
        calls := calls + [GetUserDetailsCall];
        isEditing := false;
      } else {
        notices := [Error(ServerDetailOr(response.error, UpdateFailedMessage))];
      }
    }

    /** `updateUser` (and `saveChanges`, which only calls it): an invalid form gets an error
        and no call; otherwise the update is sent. */
    method UpdateUser(response: Result<()>) returns (notices: seq<Notice>, calls: seq<ProfileCall>)
      modifies this
      ensures formErrors == ProfileErrors(updatedData)
      ensures user == old(user) && updatedData == old(updatedData) && selectedImage == old(selectedImage)
      ensures imagePreview == old(imagePreview)
      ensures !ProfileFormValid(updatedData) ==>
        (notices == [Error(InvalidProfileMessage)] && calls == [] && isEditing == old(isEditing))
      ensures ProfileFormValid(updatedData) && response.Ok? ==>
        (calls == [UpdateUserCall(user.userId, UpdatePayload(updatedData, selectedImage)), GetUserDetailsCall] &&
         notices == [SuccessAlert(UpdatedMessage)] && !isEditing)
      ensures ProfileFormValid(updatedData) && response.Err? ==>
        (calls == [UpdateUserCall(user.userId, UpdatePayload(updatedData, selectedImage))] &&
         notices == [Error(ServerDetailOr(response.error, UpdateFailedMessage))] && isEditing == old(isEditing))
    {
      var valid := ValidateForm();
      if !valid {
        return [Error(InvalidProfileMessage)], [];
      }
      notices, calls := SendUpdate(response);
    }

    /** `startEditing`. */
    method StartEditing()
      modifies this
      ensures isEditing
      ensures user == old(user) && updatedData == old(updatedData) && selectedImage == old(selectedImage)
      ensures imagePreview == old(imagePreview) && formErrors == old(formErrors)
    {
      isEditing := true;
    }

    /** `cancelEditing`: leaves edit mode, puts the profile's name, last name and e-mail back
        into the form, clears the password and drops the chosen picture; the preview takes
        `user.selectedImage`, which the profile object never has. */
    method CancelEditing()
      modifies this
      ensures !isEditing
      ensures updatedData == AccountData(user.email, "", user.name, user.lastName)
      ensures selectedImage.None? && imagePreview.None?
      ensures user == old(user) && formErrors == old(formErrors)
    {
      isEditing := false;
      updatedData := AccountData(user.email, "", user.name, user.lastName);
      selectedImage := None;
      imagePreview := None;
    }
  }

  /** After a cancel, an update sends exactly the profile's name, last name and e-mail, with
      no password and no picture. */
  lemma CancelledPayload(u: ProfileUser)
    ensures UpdatePayload(AccountData(u.email, "", u.name, u.lastName), None) ==
      [TextPart("name", u.name), TextPart("lastName", u.lastName), TextPart("email", u.email)]
  {
  }
}
