/** The field checks the sign-up page (src/app/pages/authentication/register/register.component.ts)
    and the profile page (src/app/pages/authentication/user-profile/user-profile.component.ts)
    both run: names required after trimming, and an institutional e-mail address. The two pages
    differ only in the password rule. */
module AccountForms {
  import opened Text
  import Users

  /** The form values both pages edit (`userData` / `updatedData`). */
  datatype AccountData = AccountData(email: string, password: string, name: string, lastName: string)

  /** `formErrors`: one message per field, '' when the field is fine. */
  datatype FormErrors = FormErrors(email: string, password: string, name: string, lastName: string)

  const NoErrors := FormErrors("", "", "", "")

  const NameRequired := "El nombre es requerido"
  const LastNameRequired := "El apellido es requerido"
  const EmailRequired := "El correo electrónico es requerido"
  const ConsecutiveDots := "El correo no puede contener puntos consecutivos"
  const NotInstitutional := "Ingrese un correo institucional válido (@espe.edu.ec)"
  const PasswordTooShort := "La contraseña debe tener al menos 6 caracteres"

  /** The name check: `!name.trim()` is an error. */
  function NameError(name: string): (m: string)
    ensures m == "" <==> !IsBlank(name)
    ensures m != "" ==> m == NameRequired
  {
    TrimEmptyIffBlank(name);
    if Trim(name) == "" then NameRequired else ""
  }

  /** The last-name check, with its own message. */
  function LastNameError(lastName: string): (m: string)
    ensures m == "" <==> !IsBlank(lastName)
    ensures m != "" ==> m == LastNameRequired
  {
    TrimEmptyIffBlank(lastName);
    if Trim(lastName) == "" then LastNameRequired else ""
  }

  const InstitutionalDomain := "@espe.edu.ec"

  /** The part of `/^[a-zA-Z0-9][a-zA-Z0-9._-]*[a-zA-Z0-9]@espe\.edu\.ec$/` before the '@':
      at least two characters, a letter or digit at each end, and letters, digits, '.', '_'
      or '-' between them. */
  predicate InstitutionalLocalPart(local: string)
  {
    |local| >= 2 && IsAlnum(local[0]) && IsAlnum(local[|local| - 1]) &&
    forall i :: 0 < i < |local| - 1 ==> Users.LocalChar(local[i])
  }

  /** The regular expression matches: the address splits somewhere into a local part and the
      literal domain. */
  ghost predicate MatchesInstitutionalPattern(email: string)
  {
    exists k :: 0 <= k <= |email| && email[k..] == InstitutionalDomain && InstitutionalLocalPart(email[..k])
  }

  /** The test the pages run: since the domain is a fixed literal at the end, the only split
      to try is the one that leaves exactly the domain. */
  function IsInstitutionalEmail(email: string): bool
  {
    var k := |email| - |InstitutionalDomain|;
    k >= 0 && email[k..] == InstitutionalDomain && InstitutionalLocalPart(email[..k])
  }

  /** A suffix fixes where it starts. */
  lemma SuffixLength(s: string, k: int, t: string)
    requires 0 <= k <= |s| && s[k..] == t
    ensures k == |s| - |t|
  {
  }

  /** The test accepts exactly what the regular expression matches. */
  lemma InstitutionalEmailMeaning(email: string)
    ensures IsInstitutionalEmail(email) <==> MatchesInstitutionalPattern(email)
  {
    if MatchesInstitutionalPattern(email) {
      var k :| 0 <= k <= |email| && email[k..] == InstitutionalDomain && InstitutionalLocalPart(email[..k]);
      SuffixLength(email, k, InstitutionalDomain);
    }
  }

  /** An address the pattern accepts starts with a letter or digit, so it is not blank. */
  lemma InstitutionalNotBlank(email: string)
    ensures IsInstitutionalEmail(email) ==> !IsBlank(email)
  {
    if IsInstitutionalEmail(email) {
      assert IsAlnum(email[0]);
      assert !IsSpace(email[0]);
    }
  }

  /** The e-mail check: the first that applies of blank, two dots in a row, and not
      matching the institutional pattern. */
  function EmailError(email: string): string
  {
    if Trim(email) == "" then EmailRequired
    else if Contains(email, "..") then ConsecutiveDots
    else if !IsInstitutionalEmail(email) then NotInstitutional
    else ""
  }

  /** The e-mail check accepts exactly the addresses without two dots in a row that match the
      institutional pattern; otherwise it gives the one message of the first failed test. */
  lemma EmailErrorMeaning(email: string)
    ensures EmailError(email) == "" <==> !Contains(email, "..") && MatchesInstitutionalPattern(email)
    ensures IsBlank(email) ==> EmailError(email) == EmailRequired
    ensures !IsBlank(email) && Contains(email, "..") ==> EmailError(email) == ConsecutiveDots
    ensures !IsBlank(email) && !Contains(email, "..") && !MatchesInstitutionalPattern(email) ==>
      EmailError(email) == NotInstitutional
  {
    TrimEmptyIffBlank(email);
    InstitutionalEmailMeaning(email);
    InstitutionalNotBlank(email);
  }

  /** The only '@' of an address of the institutional pattern is the one that starts the
      domain. */
  lemma InstitutionalSingleAt(email: string, i: int)
    requires IsInstitutionalEmail(email)
    requires 0 <= i < |email| && email[i] == '@'
    ensures i == |email| - |InstitutionalDomain|
  {
  }

  /** An accepted address ends in the institutional domain and holds exactly one '@', the
      one that starts the domain, after a local part of at least two characters. */
  lemma AcceptedEmailShape(email: string)
    requires EmailError(email) == ""
    ensures |email| >= 2 + |InstitutionalDomain|
    ensures email[|email| - |InstitutionalDomain|..] == InstitutionalDomain
    ensures forall i :: 0 <= i < |email| && email[i] == '@' ==> i == |email| - |InstitutionalDomain|
  {
    assert IsInstitutionalEmail(email);
    forall i | 0 <= i < |email| && email[i] == '@'
      ensures i == |email| - |InstitutionalDomain|
    {
      InstitutionalSingleAt(email, i);
    }
  }
}
