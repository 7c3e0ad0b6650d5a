/** src/app/pages/user/view-components/view-components.component.ts: the user's catalogue,
    where quantities are chosen per component, categories filter the list and components are
    added to the cart. */
module ViewComponents {
  import opened Wrappers
  import opened Seqs
  import opened Text
  import opened Catalog
  import opened Ui
  import opened Storage
  import opened Requests

  /** What `getComponents` keeps of the server's list: active components with stock. */
  predicate Offerable(c: ComponentRecord)
  {
    c.isActive && c.availableQuantity > 0
  }

  /** The quantity `onQuantityChange` stores: the stock when above it, 1 when not positive,
      the input otherwise. */
  function ClampQuantity(q: real, available: int): real
  {
    if q > available as real then available as real else if q <= 0.0 then 1.0 else q
  }

  /** For a component with stock the stored quantity is positive and at most the stock, and
      an in-range value is kept as it is. */
  lemma ClampQuantityBounds(q: real, available: int)
    requires available >= 1
    ensures 0.0 < ClampQuantity(q, available) <= available as real
    ensures 0.0 < q <= available as real ==> ClampQuantity(q, available) == q
    ensures ClampQuantity(ClampQuantity(q, available), available) == ClampQuantity(q, available)
  {
  }

  /** `storedComponents.reduce((acc, c) => { acc[c.id] = c.quantity; return acc }, {})`. */
  function QuantityMap(s: seq<ComponentRecord>): (m: map<int, real>)
    ensures forall id :: id in m <==> exists i :: 0 <= i < |s| && s[i].id == id
  {
    if s == [] then map[]
    else
      var init := s[..|s| - 1];
      var last := s[|s| - 1];
      assert forall i :: 0 <= i < |init| ==> init[i] == s[i];
      QuantityMap(init)[last.id := last.quantity]
  }

  /** A later entry with the same id wins: an entry followed by no other with its id gives
      the map's value for that id. */
  lemma {:induction false} QuantityMapLastWins(s: seq<ComponentRecord>, i: int)
    requires 0 <= i < |s|
    requires forall j :: i < j < |s| ==> s[j].id != s[i].id
    ensures s[i].id in QuantityMap(s) && QuantityMap(s)[s[i].id] == s[i].quantity
  {
    if i < |s| - 1 {
      var init := s[..|s| - 1];
      assert forall j :: i < j < |init| ==> init[j] == s[j];
      QuantityMapLastWins(init, i);
    }
  }

  /** For a cart with distinct ids the map gives each entry's quantity. */
  lemma QuantityMapDistinct(s: seq<ComponentRecord>, i: int)
    requires DistinctIds(s) && 0 <= i < |s|
    ensures QuantityMap(s)[s[i].id] == s[i].quantity
  {
    QuantityMapLastWins(s, i);
  }

  /** `applyFilters`: with categories selected, the components in one of them, in order;
      otherwise all of them. */
  function CategoryFiltered(components: seq<ComponentRecord>, categories: seq<int>): seq<ComponentRecord>
  {
    if |categories| > 0 then Filter((c: ComponentRecord) => c.categoryId in categories, components) else components
  }

  lemma CategoryFilteredMembership(components: seq<ComponentRecord>, categories: seq<int>, c: ComponentRecord)
    ensures c in CategoryFiltered(components, categories) <==> c in components && (categories == [] || c.categoryId in categories)
  {
    if |categories| > 0 {
      FilterMembership((c: ComponentRecord) => c.categoryId in categories, components, c);
    }
  }

  class ViewComponentsPage {
    const requests: RequestService
    var components: seq<ComponentRecord>
    var selectedQuantities: map<int, real>
    var selectedCategories: seq<int>
    var filteredComponents: seq<ComponentRecord>
    var isFilterMenuOpen: bool

    /** Every listed component is offerable, every shown one is listed, and the selected
        categories have no duplicates. */
    ghost predicate Valid()
      reads this
    {
      (forall i :: 0 <= i < |components| ==> Offerable(components[i])) &&
      (forall c :: c in filteredComponents ==> c in components) &&
      NoDuplicates(selectedCategories)
    }

    constructor (requests: RequestService)
      ensures this.requests == requests && Valid()
      ensures components == [] && selectedQuantities == map[] && selectedCategories == []
      ensures filteredComponents == [] && !isFilterMenuOpen
    {
      this.requests := requests;
      components := [];
      selectedQuantities := map[];
      selectedCategories := [];
      filteredComponents := [];
      isFilterMenuOpen := false;
    }

    /** `getComponents`: on success the list is the offerable components in server order and
        the shown list a copy of it; on error only the error is shown. */
    method OnComponentsLoaded(response: Result<seq<ComponentRecord>>) returns (notices: seq<Notice>)
      requires Valid()
      modifies this
      ensures Valid()
      ensures response.Ok? ==>
        components == Filter(Offerable, response.value) && filteredComponents == components && notices == []
      ensures response.Err? ==>
        components == old(components) && filteredComponents == old(filteredComponents) &&
        notices == [Error("Error al obtener los componentes.")]
      ensures selectedQuantities == old(selectedQuantities) && selectedCategories == old(selectedCategories)
      ensures isFilterMenuOpen == old(isFilterMenuOpen)
    {
      if response.Err? {
        return [Error("Error al obtener los componentes.")];
      }
      components := Filter(Offerable, response.value);
      filteredComponents := components;
      notices := [];
    }

    /** `onQuantityChange`: for a listed id the stored quantity is clamped (with an error and
        a warning toast above the stock, a warning toast at or below 0); an unlisted id
        changes nothing. */
    method OnQuantityChange(componentId: int, quantity: real) returns (notices: seq<Notice>)
      modifies this
      ensures var found := Find((c: ComponentRecord) => c.id == componentId, components);
        if found.None? then selectedQuantities == old(selectedQuantities) && notices == []
        else
          var available := found.value.availableQuantity;
          selectedQuantities == old(selectedQuantities)[componentId := ClampQuantity(quantity, available)] &&
          notices == (if quantity > available as real then
              [Error("La cantidad no puede exceder el máximo disponible (" + IntToString(available) + ")."),
               Toast("warn", "Cantidad ajustada")]
            else if quantity <= 0.0 then [Toast("warn", "Cantidad inválida")]
            else [])
      ensures components == old(components) && filteredComponents == old(filteredComponents)
      ensures selectedCategories == old(selectedCategories) && isFilterMenuOpen == old(isFilterMenuOpen)
    {
      notices := [];
      var found := Find((c: ComponentRecord) => c.id == componentId, components);
      if found.Some? {
        var maxAvailable := found.value.availableQuantity;
        if quantity > maxAvailable as real {
          selectedQuantities := selectedQuantities[componentId := maxAvailable as real];
          notices := [Error("La cantidad no puede exceder el máximo disponible (" + IntToString(maxAvailable) + ")."),
                      Toast("warn", "Cantidad ajustada")];
        } else if quantity <= 0.0 {
          selectedQuantities := selectedQuantities[componentId := 1.0];
          notices := [Toast("warn", "Cantidad inválida")];
        } else {
          selectedQuantities := selectedQuantities[componentId := quantity];
        }
      }
    }

    /** `applyFilters`: the shown list is the category selection of the list; the menu closes. */
    method ApplyFilters()
      requires Valid()
      modifies this
      ensures Valid()
      ensures filteredComponents == CategoryFiltered(components, selectedCategories) && !isFilterMenuOpen
      ensures components == old(components) && selectedQuantities == old(selectedQuantities)
      ensures selectedCategories == old(selectedCategories)
    {
      filteredComponents := CategoryFiltered(components, selectedCategories);
      forall c | c in filteredComponents ensures c in components {
        CategoryFilteredMembership(components, selectedCategories, c);
      }
      isFilterMenuOpen := false;
    }

    /** `onCategoryChange`: checking appends the id only when absent, unchecking removes it;
        then the filters are applied. */
    method OnCategoryChange(categoryId: int, checked: bool)
      requires Valid()
      modifies this
      ensures Valid()
      ensures checked ==> selectedCategories == if categoryId in old(selectedCategories) then old(selectedCategories) else old(selectedCategories) + [categoryId]
      ensures !checked ==> selectedCategories == Filter((id: int) => id != categoryId, old(selectedCategories))
      ensures checked <==> categoryId in selectedCategories
      ensures filteredComponents == CategoryFiltered(components, selectedCategories) && !isFilterMenuOpen
      ensures components == old(components) && selectedQuantities == old(selectedQuantities)
    {
      if checked {
        if categoryId !in selectedCategories {
          selectedCategories := selectedCategories + [categoryId];
        }
      } else {
        FilterKeepsNoDuplicates((id: int) => id != categoryId, selectedCategories);
        FilterMembership((id: int) => id != categoryId, selectedCategories, categoryId);
        selectedCategories := Filter((id: int) => id != categoryId, selectedCategories);
      }
      ApplyFilters();
    }

    /** `resetFilters`: no category selected, the full list shown, the menu closed. */
    method ResetFilters()
      requires Valid()
      modifies this
      ensures Valid()
      ensures selectedCategories == [] && filteredComponents == components && !isFilterMenuOpen
      ensures components == old(components) && selectedQuantities == old(selectedQuantities)
    {
      selectedCategories := [];
      filteredComponents := components;
      isFilterMenuOpen := false;
    }

    /** `loadSelectedComponents`: the chosen quantities are those of the stored cart. */
    method LoadSelectedComponents()
      modifies this
      ensures selectedQuantities == QuantityMap(requests.GetSelectedComponents())
      ensures components == old(components) && filteredComponents == old(filteredComponents)
      ensures selectedCategories == old(selectedCategories) && isFilterMenuOpen == old(isFilterMenuOpen)
    {
      selectedQuantities := QuantityMap(requests.GetSelectedComponents());
    }

    /** `addToSelectedList`. A chosen positive whole quantity is forwarded to the cart, and
        the toast follows unless the cart refused it (that refusal is an exception, so no toast
        is shown); otherwise an error is shown and the quantities are reloaded from storage.
        `me` is the `/users/me` answer the cart waits for when it does not know the user. */
    method AddToSelectedList(component: ComponentRecord, me: Result<Option<int>>) returns (notices: seq<Notice>)
      modifies this, requests, requests.storage
      ensures var chosen := component.id in old(selectedQuantities) &&
          old(selectedQuantities)[component.id] > 0.0 && IsWhole(old(selectedQuantities)[component.id]);
        if chosen then
          var q := old(selectedQuantities)[component.id];
          selectedQuantities == old(selectedQuantities) &&
          (q > component.availableQuantity as real ==>
            notices == [] && requests.storage.selectedComponents == old(requests.storage.selectedComponents)) &&
          (q <= component.availableQuantity as real ==> notices == [Toast("info", "Componente agregado")]) &&
          (q <= component.availableQuantity as real && (Truthy(old(requests.userId)) || me.Ok?) ==>
            requests.storage.selectedComponents == Some(Upsert(old(requests.GetSelectedComponents()), component, q))) &&
          (q <= component.availableQuantity as real && !Truthy(old(requests.userId)) && me.Err? ==>
            requests.storage.selectedComponents == old(requests.storage.selectedComponents)) &&
          requests.userId ==
            (if q <= component.availableQuantity as real && !Truthy(old(requests.userId)) && me.Ok?
             then me.value else old(requests.userId))
        else
          notices == [Error("Debe seleccionar una cantidad válida para agregar el componente.")] &&
          requests.storage.selectedComponents == old(requests.storage.selectedComponents) &&
          requests.userId == old(requests.userId) &&
          selectedQuantities == QuantityMap(requests.GetSelectedComponents())
      ensures components == old(components) && filteredComponents == old(filteredComponents)
      ensures selectedCategories == old(selectedCategories) && isFilterMenuOpen == old(isFilterMenuOpen)
    {
      if component.id in selectedQuantities && selectedQuantities[component.id] > 0.0 && IsWhole(selectedQuantities[component.id]) {
        var quantity := selectedQuantities[component.id];
        var outcome := requests.AddSelectedComponentToStorage(component, quantity, me);
        if outcome == ExceedsAvailable {
          return [];
        }
        notices := [Toast("info", "Componente agregado")];
      } else {
        notices := [Error("Debe seleccionar una cantidad válida para agregar el componente.")];
        LoadSelectedComponents();
      }
    }
  }
}
