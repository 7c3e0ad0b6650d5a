/** src/app/services/request.service.ts: the loan-request status vocabulary and the two
    status predicates, the query built for `getRequestsByFilter`, and the selection cart kept
    in local storage (upsert by id, remove by id, total quantity). */
module Requests {
  import opened Wrappers
  import opened Seqs
  import opened Catalog
  import opened Storage

  // ---------------------------------------------------------------------------------------
  // Request status

  /** The five statuses the server uses, and any other string it might send. */
  datatype Status = Pendiente | Prestamo | NoDevuelto | Finalizado | Rechazado | Other(text: string)

  /** The string the server sends for a status. */
  function StatusText(s: Status): string
  {
    match s
    case Pendiente => "pendiente"
    case Prestamo => "prestamo"
    case NoDevuelto => "no_devuelto"
    case Finalizado => "finalizado"
    case Rechazado => "rechazado"
    case Other(t) => t
  }

  predicate IsLiteralStatus(t: string)
  {
    t == "pendiente" || t == "prestamo" || t == "no_devuelto" || t == "finalizado" || t == "rechazado"
  }

  /** A status that could have come from the server: `Other` never carries one of the five literals. */
  predicate WellFormedStatus(s: Status)
  {
    s.Other? ==> !IsLiteralStatus(s.text)
  }

  /** Reads a status string; the string is recovered exactly. */
  function ParseStatus(t: string): (s: Status)
    ensures StatusText(s) == t
    ensures WellFormedStatus(s)
    ensures s.Other? <==> !IsLiteralStatus(t)
  {
    if t == "pendiente" then Pendiente
    else if t == "prestamo" then Prestamo
    else if t == "no_devuelto" then NoDevuelto
    else if t == "finalizado" then Finalizado
    else if t == "rechazado" then Rechazado
    else Other(t)
  }

  /** Parsing the text of a well-formed status gives that status back. */
  lemma ParseStatusText(s: Status)
    requires WellFormedStatus(s)
    ensures ParseStatus(StatusText(s)) == s
  {
  }

  /** A loan request as the client holds it; only the fields the client logic reads. */
  datatype LoanRequest = LoanRequest(requestId: int, status: Status)

  /** The statuses of a request still in progress: pendiente, prestamo, no_devuelto. */
  predicate IsActiveStatus(s: Status)
  {
    s == Pendiente || s == Prestamo || s == NoDevuelto
  }

  /** `canMarkAsNotReturned`: only a request on loan can be marked as not returned. */
  predicate CanMarkAsNotReturned(r: LoanRequest)
  {
    r.status == Prestamo
  }

  /** `canFinalize`: a request on loan or not returned can be finalized. */
  predicate CanFinalize(r: LoanRequest)
  {
    r.status in {Prestamo, NoDevuelto}
  }

  /** The two predicates on the server's status string, and how they relate: whatever can be
      marked as not returned can be finalized, and whatever can be finalized is active. */
  lemma ActionPredicates(id: int, t: string)
    ensures CanMarkAsNotReturned(LoanRequest(id, ParseStatus(t))) <==> t == "prestamo"
    ensures CanFinalize(LoanRequest(id, ParseStatus(t))) <==> t == "prestamo" || t == "no_devuelto"
    ensures CanMarkAsNotReturned(LoanRequest(id, ParseStatus(t))) ==> CanFinalize(LoanRequest(id, ParseStatus(t)))
    ensures CanFinalize(LoanRequest(id, ParseStatus(t))) ==> IsActiveStatus(ParseStatus(t))
  {
  }

  // ---------------------------------------------------------------------------------------
  // getRequestsByFilter

  /** The optional filters a caller passes to `getRequestsByFilter`. */
  datatype RequestFilters = RequestFilters(status: Option<string>, isActive: Option<bool>, userId: Option<int>)

  datatype ParamValue = TextParam(text: string) | BoolParam(flag: bool) | IntParam(n: int)

  /** The query parameters sent: a truthy status, a defined `isActive` (even `false`), and a
      truthy user id; nothing else. */
  function QueryParams(f: RequestFilters): (p: map<string, ParamValue>)
    ensures p.Keys <= {"status", "isActive", "userId"}
    ensures "status" in p <==> f.status.Some? && f.status.value != ""
    ensures "status" in p ==> p["status"] == TextParam(f.status.value)
    ensures "isActive" in p <==> f.isActive.Some?
    ensures "isActive" in p ==> p["isActive"] == BoolParam(f.isActive.value)
    ensures "userId" in p <==> Truthy(f.userId)
    ensures "userId" in p ==> p["userId"] == IntParam(f.userId.value)
  {
    var p1: map<string, ParamValue> := if f.status.Some? && f.status.value != "" then map["status" := TextParam(f.status.value)] else map[];
    var p2 := if f.isActive.Some? then p1["isActive" := BoolParam(f.isActive.value)] else p1;
    if Truthy(f.userId) then p2["userId" := IntParam(f.userId.value)] else p2
  }

  // ---------------------------------------------------------------------------------------
  // The selection cart: specification functions

  /** `findIndex(item => item.id === id)`. */
  function IndexOfId(s: seq<ComponentRecord>, id: int): (r: int)
    ensures -1 <= r < |s|
    ensures r >= 0 ==> s[r].id == id && forall j :: 0 <= j < r ==> s[j].id != id
    ensures r == -1 <==> forall j :: 0 <= j < |s| ==> s[j].id != id
  {
    FindIndex((e: ComponentRecord) => e.id == id, s)
  }

  /** The cart after `addComponentToLocalStorage(c, q)`: the first entry with `c`'s id gets
      quantity `q`; otherwise `{...c, quantity: q}` is appended. */
  function Upsert(s: seq<ComponentRecord>, c: ComponentRecord, q: real): seq<ComponentRecord>
  {
    var i := IndexOfId(s, c.id);
    if i >= 0 then s[i := s[i].(quantity := q)] else s + [c.(quantity := q)]
  }

  /** The cart after `removeSelectedComponentFromStorage(id)`. */
  function RemoveId(s: seq<ComponentRecord>, id: int): seq<ComponentRecord>
  {
    Filter((e: ComponentRecord) => e.id != id, s)
  }

  /** The entries of the cart with a given id. */
  function EntriesWithId(s: seq<ComponentRecord>, id: int): seq<ComponentRecord>
  {
    Filter((e: ComponentRecord) => e.id == id, s)
  }

  /** The sum of the `quantity` fields. */
  function TotalQuantity(s: seq<ComponentRecord>): real
  {
    if s == [] then 0.0 else s[0].quantity + TotalQuantity(s[1..])
  }

  /** `reduce((total, c) => total + c.quantity, acc)`, a left fold: it adds the sum of the
      quantities to the seed. */
  function ReduceQuantity(acc: real, s: seq<ComponentRecord>): (r: real)
    ensures r == acc + TotalQuantity(s)
    decreases s
  {
    if s == [] then acc else ReduceQuantity(acc + s[0].quantity, s[1..])
  }

  /** No two entries share an id. */
  predicate DistinctIds(s: seq<ComponentRecord>)
  {
    forall i, j :: 0 <= i < j < |s| ==> s[i].id != s[j].id
  }

  // ---------------------------------------------------------------------------------------
  // The selection cart: properties

  /** Upsert on a present id changes only that entry's quantity, in place. */
  lemma UpsertExisting(s: seq<ComponentRecord>, c: ComponentRecord, q: real)
    requires IndexOfId(s, c.id) >= 0
    ensures var i := IndexOfId(s, c.id);
      |Upsert(s, c, q)| == |s| &&
      Upsert(s, c, q)[i] == s[i].(quantity := q) &&
      forall j :: 0 <= j < |s| && j != i ==> Upsert(s, c, q)[j] == s[j]
  {
  }

  /** Upsert on an absent id appends one entry: the component with the given quantity. */
  lemma UpsertNew(s: seq<ComponentRecord>, c: ComponentRecord, q: real)
    requires forall j :: 0 <= j < |s| ==> s[j].id != c.id
    ensures Upsert(s, c, q) == s + [c.(quantity := q)]
  {
  }

  /** Adding the same (id, quantity) twice is adding it once. */
  lemma UpsertIdempotent(s: seq<ComponentRecord>, c: ComponentRecord, q: real)
    ensures Upsert(Upsert(s, c, q), c, q) == Upsert(s, c, q)
  {
    var i := IndexOfId(s, c.id);
    if i < 0 {
      var t := s + [c.(quantity := q)];
      assert t[|s|].id == c.id;
      assert IndexOfId(t, c.id) == |s|;
    } else {
      var r := Upsert(s, c, q);
      assert r[i].id == c.id;
      assert forall j :: 0 <= j < i ==> r[j] == s[j];
      assert IndexOfId(r, c.id) == i;
    }
  }

  /** Upsert keeps ids distinct, and afterwards exactly one entry carries the id, with the
      given quantity. */
  lemma UpsertKeepsIdsDistinct(s: seq<ComponentRecord>, c: ComponentRecord, q: real)
    requires DistinctIds(s)
    ensures var r := Upsert(s, c, q);
      DistinctIds(r) &&
      0 <= IndexOfId(r, c.id) && r[IndexOfId(r, c.id)].quantity == q &&
      forall j :: 0 <= j < |r| && r[j].id == c.id ==> j == IndexOfId(r, c.id)
  {
    var r := Upsert(s, c, q);
    var i := IndexOfId(s, c.id);
    if i < 0 {
      assert r[|s|].id == c.id;
      assert IndexOfId(r, c.id) == |s|;
    } else {
      assert r[i].id == c.id;
      assert forall j :: 0 <= j < i ==> r[j] == s[j];
      assert IndexOfId(r, c.id) == i;
    }
  }

  /** The total of a concatenation is the sum of the totals. */
  lemma {:induction false} TotalQuantityConcat(a: seq<ComponentRecord>, b: seq<ComponentRecord>)
    ensures TotalQuantity(a + b) == TotalQuantity(a) + TotalQuantity(b)
  {
    if a == [] {
      assert a + b == b;
    } else {
      TotalQuantityConcat(a[1..], b);
      assert (a + b)[1..] == a[1..] + b;
    }
  }

  /** Changing one entry's quantity changes the total by the difference. */
  lemma {:induction false} TotalQuantityUpdate(s: seq<ComponentRecord>, i: int, q: real)
    requires 0 <= i < |s|
    ensures TotalQuantity(s[i := s[i].(quantity := q)]) == TotalQuantity(s) - s[i].quantity + q
  {
    if i > 0 {
      TotalQuantityUpdate(s[1..], i - 1, q);
      assert s[i := s[i].(quantity := q)][1..] == s[1..][i - 1 := s[i].(quantity := q)];
    }
  }

  /** The cart count after an upsert: the old entry's quantity is replaced by the new one, or
      the new quantity is added. */
  lemma UpsertTotal(s: seq<ComponentRecord>, c: ComponentRecord, q: real)
    ensures var i := IndexOfId(s, c.id);
      TotalQuantity(Upsert(s, c, q)) == if i >= 0 then TotalQuantity(s) - s[i].quantity + q else TotalQuantity(s) + q
  {
    var i := IndexOfId(s, c.id);
    if i >= 0 {
      TotalQuantityUpdate(s, i, q);
    } else {
      TotalQuantityConcat(s, [c.(quantity := q)]);
    }
  }

  /** Remove drops every entry with the id and keeps every other entry. */
  lemma RemoveIdMembership(s: seq<ComponentRecord>, id: int, e: ComponentRecord)
    ensures e in RemoveId(s, id) <==> e in s && e.id != id
  {
    FilterMembership((e: ComponentRecord) => e.id != id, s, e);
  }

  /** Remove keeps the other entries in their order: it commutes with concatenation. */
  lemma RemoveIdConcat(a: seq<ComponentRecord>, b: seq<ComponentRecord>, id: int)
    ensures RemoveId(a + b, id) == RemoveId(a, id) + RemoveId(b, id)
  {
    FilterConcat((e: ComponentRecord) => e.id != id, a, b);
  }

  /** Removing an absent id changes nothing. */
  lemma RemoveAbsentId(s: seq<ComponentRecord>, id: int)
    requires IndexOfId(s, id) == -1
    ensures RemoveId(s, id) == s
  {
    FilterKeepsAll((e: ComponentRecord) => e.id != id, s);
  }

  /** The quantity removed from the count is that of the entries carrying the id. */
  lemma {:induction false} RemoveIdTotal(s: seq<ComponentRecord>, id: int)
    ensures TotalQuantity(s) == TotalQuantity(RemoveId(s, id)) + TotalQuantity(EntriesWithId(s, id))
  {
    if s != [] {
      RemoveIdTotal(s[1..], id);
    }
  }

  /** A sub-list chosen by any filter keeps ids distinct. */
  lemma {:induction false} FilterKeepsIdsDistinct(f: ComponentRecord -> bool, s: seq<ComponentRecord>)
    requires DistinctIds(s)
    ensures DistinctIds(Filter(f, s))
  {
    if s != [] {
      FilterKeepsIdsDistinct(f, s[1..]);
      if f(s[0]) {
        var r := Filter(f, s[1..]);
        forall j | 0 <= j < |r| ensures r[j].id != s[0].id {
          FilterMembership(f, s[1..], r[j]);
        }
      }
    }
  }

  /** With distinct ids, the entries carrying an id are the one found by `findIndex`, or none. */
  lemma {:induction false} EntriesWithIdDistinct(s: seq<ComponentRecord>, id: int)
    requires DistinctIds(s)
    ensures EntriesWithId(s, id) == if IndexOfId(s, id) >= 0 then [s[IndexOfId(s, id)]] else []
  {
    if s != [] {
      var tail := s[1..];
      assert DistinctIds(tail) by {
        forall i, j | 0 <= i < j < |tail| ensures tail[i].id != tail[j].id {
          assert tail[i] == s[i + 1] && tail[j] == s[j + 1];
        }
      }
      if s[0].id == id {
        forall j | 0 <= j < |tail| ensures tail[j].id != id {
          assert tail[j] == s[j + 1];
        }
        FilterDropsAll((e: ComponentRecord) => e.id == id, tail);
      } else {
        EntriesWithIdDistinct(tail, id);
        var k := IndexOfId(tail, id);
        if k >= 0 {
          assert s[k + 1] == tail[k];
          assert forall j :: 0 <= j < k + 1 ==> s[j].id != id by {
            forall j | 1 <= j < k + 1 ensures s[j].id != id {
              assert s[j] == tail[j - 1];
            }
          }
          assert IndexOfId(s, id) == k + 1;
        } else {
          forall j | 0 <= j < |s| ensures s[j].id != id {
            if j > 0 {
              assert s[j] == tail[j - 1];
            }
          }
        }
      }
    }
  }

  /** With distinct ids, removing an id lowers the count by exactly that entry's quantity. */
  lemma RemoveIdTotalDistinct(s: seq<ComponentRecord>, id: int)
    requires DistinctIds(s)
    ensures var i := IndexOfId(s, id);
      TotalQuantity(RemoveId(s, id)) == TotalQuantity(s) - (if i >= 0 then s[i].quantity else 0.0)
  {
    RemoveIdTotal(s, id);
    EntriesWithIdDistinct(s, id);
  }

  /** Removing keeps ids distinct. */
  lemma RemoveKeepsIdsDistinct(s: seq<ComponentRecord>, id: int)
    requires DistinctIds(s)
    ensures DistinctIds(RemoveId(s, id))
  {
    FilterKeepsIdsDistinct((e: ComponentRecord) => e.id != id, s);
  }

  /** The body of `markAsNotReturned` and `finalizeRequest`: `{adminNotes}` when the notes are
      non-empty, `{}` otherwise. */
  function NotesBody(adminNotes: string): (b: Option<string>)
    ensures b.None? <==> adminNotes == ""
    ensures b.Some? ==> b.value == adminNotes
  {
    if adminNotes == "" then None else Some(adminNotes)
  }

  // ---------------------------------------------------------------------------------------
  // createRequest

  /** The form values a page passes to `createRequest`; a missing value is the empty string. */
  datatype RequestData = RequestData(description: string, typeRequest: string, returnDate: string, responsible: string, status: string)

  /** One `{componentId, quantity}` line of `requestDetails`. */
  datatype RequestLine = RequestLine(componentId: int, quantity: real)

  /** The multipart body posted to `/requests/`. */
  datatype RequestPayload = RequestPayload(
    userId: int, description: string, typeRequest: string, returnDate: string,
    responsible: string, status: string, requestDetails: seq<RequestLine>, hasFile: bool)

  // ---------------------------------------------------------------------------------------
  // The service object

  /** How `addSelectedComponentToStorage` ended. */
  datatype AddOutcome =
    | ExceedsAvailable  // threw 'La cantidad solicitada (...) excede la disponibilidad (...)'
    | Added             // the cart was updated, at once or after the user fetch
    | NotAdded          // the user id was unknown and fetching it failed

  /** `findIndex` by id, as the loop it is. */
  method FindIndexById(list: seq<ComponentRecord>, id: int) returns (index: int)
    ensures index == IndexOfId(list, id)
  {
    index := 0;
    while index < |list| && list[index].id != id
      invariant 0 <= index <= |list|
      invariant forall j :: 0 <= j < index ==> list[j].id != id
    {
      index := index + 1;
    }
    if index == |list| {
      index := -1;
    }
  }

  class RequestService {
    const storage: LocalStorage
    /** The signed-in user's id, once `initialize` or a cart add has fetched it. */
    var userId: Option<int>

    constructor (storage: LocalStorage)
      ensures this.storage == storage && userId == None
    {
      this.storage := storage;
      userId := None;
    }

    /** `initialize`: the id from `/users/me`, or null when the fetch fails. */
    method Initialize(me: Result<Option<int>>)
      modifies this
      ensures userId == (if me.Ok? then me.value else None)
    {
      userId := if me.Ok? then me.value else None;
    }

    /** `createRequest` throws 'Usuario no autenticado' unless the user id is truthy. */
    predicate IsAuthenticated()
      reads this
    {
      Truthy(userId)
    }

    /** `createRequest`: `None` stands for the 'Usuario no autenticado' exception, thrown before
        anything is sent whenever the user id is not truthy; otherwise the body posted, where
        the status defaults to 'pendiente'. */
    function CreateRequestPayload(data: RequestData, details: seq<RequestLine>, hasFile: bool): (r: Option<RequestPayload>)
      reads this
      ensures r.None? <==> !IsAuthenticated()
      ensures r.Some? ==> r.value.userId == userId.value && r.value.requestDetails == details && r.value.hasFile == hasFile
      ensures r.Some? ==> r.value.description == data.description && r.value.typeRequest == data.typeRequest
      ensures r.Some? ==> r.value.returnDate == data.returnDate && r.value.responsible == data.responsible
      ensures r.Some? ==> r.value.status == (if data.status == "" then "pendiente" else data.status)
    {
      if !Truthy(userId) then None
      else Some(RequestPayload(userId.value, data.description, data.typeRequest, data.returnDate, data.responsible,
        if data.status == "" then "pendiente" else data.status, details, hasFile))
    }

    /** `getSelectedComponents`: the stored list, or [] when the key is absent. */
    function GetSelectedComponents(): (r: seq<ComponentRecord>)
      reads storage
      ensures storage.selectedComponents == None ==> r == []
      ensures storage.selectedComponents.Some? ==> r == storage.selectedComponents.value
    {
      if storage.selectedComponents.Some? then storage.selectedComponents.value else []
    }

    /** `setSelectedComponents`: one write; reading back gives the list stored. */
    method SetSelectedComponents(l: seq<ComponentRecord>)
      modifies storage
      ensures storage.selectedComponents == Some(l)
      ensures GetSelectedComponents() == l
    {
      storage.selectedComponents := Some(l);
    }

    /** `getSelectedComponentCount`: the sum of the stored quantities, 0 for an empty cart. */
    function GetSelectedComponentCount(): (n: real)
      reads storage
      ensures n == TotalQuantity(GetSelectedComponents())
      ensures GetSelectedComponents() == [] ==> n == 0.0
    {
      ReduceQuantity(0.0, GetSelectedComponents())
    }

    /** `addComponentToLocalStorage`: read the cart, update or append, write it back. */
    method AddComponentToLocalStorage(component: ComponentRecord, quantity: real)
      modifies storage
      ensures storage.selectedComponents == Some(Upsert(old(GetSelectedComponents()), component, quantity))
    {
      var selected := GetSelectedComponents();
      var index := FindIndexById(selected, component.id);
      if index != -1 {
        selected := selected[index := selected[index].(quantity := quantity)];
      } else {
        selected := selected + [component.(quantity := quantity)];
      }
      SetSelectedComponents(selected);
    }

    /** `addSelectedComponentToStorage`. Only the upper bound is checked; when the user id is
        not known yet the add happens after `/users/me` answers (`me`), and only on success. */
    method AddSelectedComponentToStorage(component: ComponentRecord, quantity: real, me: Result<Option<int>>)
      returns (outcome: AddOutcome)
      modifies this, storage
      ensures quantity > component.availableQuantity as real ==>
        outcome == ExceedsAvailable && userId == old(userId) && storage.selectedComponents == old(storage.selectedComponents)
      ensures quantity <= component.availableQuantity as real && Truthy(old(userId)) ==>
        outcome == Added && userId == old(userId) &&
        storage.selectedComponents == Some(Upsert(old(GetSelectedComponents()), component, quantity))
      ensures quantity <= component.availableQuantity as real && !Truthy(old(userId)) && me.Ok? ==>
        outcome == Added && userId == me.value &&
        storage.selectedComponents == Some(Upsert(old(GetSelectedComponents()), component, quantity))
      ensures quantity <= component.availableQuantity as real && !Truthy(old(userId)) && me.Err? ==>
        outcome == NotAdded && userId == old(userId) && storage.selectedComponents == old(storage.selectedComponents)
    {
      if quantity > component.availableQuantity as real {
        return ExceedsAvailable;
      }
      if !Truthy(userId) {
        if me.Ok? {
          userId := me.value;
          AddComponentToLocalStorage(component, quantity);
          return Added;
        }
        return NotAdded;
      }
      AddComponentToLocalStorage(component, quantity);
      outcome := Added;
    }

    /** `removeSelectedComponentFromStorage`. */
    method RemoveSelectedComponentFromStorage(componentId: int)
      modifies storage
      ensures storage.selectedComponents == Some(RemoveId(old(GetSelectedComponents()), componentId))
    {
      var selected := GetSelectedComponents();
      selected := RemoveId(selected, componentId);
      SetSelectedComponents(selected);
    }
  }
}
