/** src/app/services/user.service.ts: the session-expiry flag, logout's cleanup of the cart,
    the client-side user search, the password-reset error messages and the e-mail check. */
module Users {
  import opened Wrappers
  import opened Text
  import opened Seqs
  import opened Storage

  /** A user as the user list returns it. */
  datatype UserRecord = UserRecord(id: int, name: string, lastName: string, email: string)

  /** The search test of `filterUsersByName`: the lowercased name contains the lowercased term. */
  predicate NameMatches(u: UserRecord, term: string)
  {
    Contains(Lower(u.name), Lower(term))
  }

  /** `filterUsersByName`: an empty term returns the list as given; otherwise the users whose
      name contains the term, ignoring case, in the order given. */
  function FilterUsersByName(users: seq<UserRecord>, term: string): (r: seq<UserRecord>)
    ensures term == "" ==> r == users
    ensures term != "" ==> forall u :: u in r <==> u in users && NameMatches(u, term)
    ensures |r| <= |users|
  {
    if term == "" then users
    else
      var found := Filter((u: UserRecord) => NameMatches(u, term), users);
      assert forall u :: u in found <==> u in users && NameMatches(u, term) by {
        forall u ensures u in found <==> u in users && NameMatches(u, term) {
          FilterMembership((u: UserRecord) => NameMatches(u, term), users, u);
        }
      }
      found
  }

  /** The search keeps the relative order of the users: searching a concatenation is
      concatenating the searches. */
  lemma FilterUsersByNameConcat(a: seq<UserRecord>, b: seq<UserRecord>, term: string)
    ensures FilterUsersByName(a + b, term) == FilterUsersByName(a, term) + FilterUsersByName(b, term)
  {
    if term != "" {
      FilterConcat((u: UserRecord) => NameMatches(u, term), a, b);
    }
  }

  /** `[a-zA-Z0-9._-]`, the characters before the '@'. */
  predicate LocalChar(c: char)
  {
    IsAlnum(c) || c == '.' || c == '_' || c == '-'
  }

  /** `[a-zA-Z0-9.-]`, the characters of the domain. */
  predicate DomainChar(c: char)
  {
    IsAlnum(c) || c == '.' || c == '-'
  }

  /** `email` matches `^[a-zA-Z0-9._-]+@[a-zA-Z0-9.-]+\.[a-zA-Z]{2,6}$` with the '@' at
      `at` and the dot before the top-level domain at `dot`. */
  predicate EmailPatternAt(email: string, at: int, dot: int)
  {
    1 <= at && at + 1 < dot < |email| && email[at] == '@' && email[dot] == '.' &&
    2 <= |email| - dot - 1 <= 6 &&
    (forall i :: 0 <= i < at ==> LocalChar(email[i])) &&
    (forall i :: at < i < dot ==> DomainChar(email[i])) &&
    (forall i :: dot < i < |email| ==> IsLetter(email[i]))
  }

  /** The regular expression matches somewhere: some choice of '@' and dot fits. */
  ghost predicate MatchesEmailPattern(email: string)
  {
    exists at, dot :: EmailPatternAt(email, at, dot)
  }

  /** `validateEmail`: the only '@' the pattern can use is the first one (no local character
      is '@') and the only dot is the last one (the top-level domain is letters), so checking
      those two positions decides the match. */
  function ValidateEmail(email: string): bool
  {
    var at := IndexOf(email, '@');
    var dot := LastIndexOf(email, '.');
    at >= 0 && dot >= 0 && EmailPatternAt(email, at, dot)
  }

  /** `validateEmail` accepts exactly the strings the regular expression matches. */
  lemma ValidateEmailMeaning(email: string)
    ensures ValidateEmail(email) <==> MatchesEmailPattern(email)
  {
    if MatchesEmailPattern(email) {
      var at, dot :| EmailPatternAt(email, at, dot);
      assert !LocalChar('@');
      assert IndexOf(email, '@') == at;
      assert LastIndexOf(email, '.') == dot;
    }
  }

  /** `expirationWarningTime`, five minutes in milliseconds. */
  const ExpirationWarningTime := 5 * 60 * 1000

  /** The password-reset failure for an HTTP error: 404 names the missing user, anything else
      is the generic message. */
  function PasswordResetError(e: HttpError): (m: string)
    ensures e.status == 404 ==> m == "No existe ningún usuario registrado con este correo electrónico"
    ensures e.status != 404 ==> m == "Error al procesar la solicitud de recuperación de contraseña"
  {
    if e.status == 404 then "No existe ningún usuario registrado con este correo electrónico"
    else "Error al procesar la solicitud de recuperación de contraseña"
  }

  /** `requestPasswordReset`: `None` when the request succeeds, otherwise the message of the
      error it throws. */
  function RequestPasswordReset(response: Result<()>): (r: Option<string>)
    ensures r.None? <==> response.Ok?
    ensures response.Err? ==> r == Some(PasswordResetError(response.error))
  {
    if response.Ok? then None else Some(PasswordResetError(response.error))
  }

  /** `getRemainingTime`: the server's remaining time, or 0 when the request fails. */
  function RemainingTime(response: Result<int>): (ms: int)
    ensures response.Err? ==> ms == 0
    ensures response.Ok? ==> ms == response.value
  {
    if response.Ok? then response.value else 0
  }

  class UserService {
    const storage: LocalStorage
    /** The last value pushed to `sessionExpiringSubject`. */
    var sessionExpiring: bool

    constructor (storage: LocalStorage)
      ensures this.storage == storage && !sessionExpiring
    {
      this.storage := storage;
      sessionExpiring := false;
    }

    /** `checkSessionExpiration`: the session is expiring when at most five minutes remain;
        a failed time request counts as expiring. */
    method CheckSessionExpiration(response: Result<int>)
      modifies this
      ensures sessionExpiring <==> RemainingTime(response) <= 300000
      ensures response.Err? ==> sessionExpiring
    {
      var remainingTime := RemainingTime(response);
      sessionExpiring := remainingTime <= ExpirationWarningTime;
    }

    /** `logout`: the cart key is removed whether or not the server call succeeds; only a
        successful call navigates to '/'. */
    method Logout(response: Result<()>) returns (navigation: Option<string>)
      modifies storage
      ensures storage.selectedComponents == None
      ensures response.Ok? <==> navigation == Some("/")
      ensures response.Err? ==> navigation == None
    {
      if response.Ok? {
        storage.selectedComponents := None;
        navigation := Some("/");
      } else {
        storage.selectedComponents := None;
        navigation := None;
      }
    }
  }
}
