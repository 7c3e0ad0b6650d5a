/** src/app/pages/admin/electronic-component/electronic-component.component.ts: the
    administrator's component list with its status / category / name filters, and the local
    list updates after a delete or a category edit. */
module ElectronicComponent {
  import opened Wrappers
  import opened Seqs
  import opened Text
  import opened Catalog
  import opened Ui

  /** `activeFilters`; a null status is `None`. */
  datatype ComponentFilters = ComponentFilters(status: Option<string>, categories: seq<int>, searchTerm: string)

  const NoFilters := ComponentFilters(None, [], "")

  /** The status filter is on when the status is truthy. */
  predicate StatusOn(f: ComponentFilters)
  {
    f.status.Some? && f.status.value != ""
  }

  /** The condition under which `applyFilters` just reloads the list. */
  predicate NoneActive(f: ComponentFilters)
  {
    !StatusOn(f) && |f.categories| == 0 && f.searchTerm == ""
  }

  function StatusStage(f: ComponentFilters, s: seq<ComponentRecord>): seq<ComponentRecord>
  {
    if StatusOn(f) then Filter((c: ComponentRecord) => c.isActive == (f.status.value == "activo"), s) else s
  }

  function CategoryStage(f: ComponentFilters, s: seq<ComponentRecord>): seq<ComponentRecord>
  {
    if |f.categories| > 0 then Filter((c: ComponentRecord) => c.categoryId in f.categories, s) else s
  }

  function SearchStage(f: ComponentFilters, s: seq<ComponentRecord>): seq<ComponentRecord>
  {
    if f.searchTerm != "" then Filter((c: ComponentRecord) => Contains(Lower(c.name), Lower(f.searchTerm)), s) else s
  }

  /** The response-side chain of `applyFilters`: status, then categories, then the search. */
  function Pipeline(f: ComponentFilters, s: seq<ComponentRecord>): seq<ComponentRecord>
  {
    SearchStage(f, CategoryStage(f, StatusStage(f, s)))
  }

  predicate StatusPass(f: ComponentFilters, c: ComponentRecord)
  {
    StatusOn(f) ==> c.isActive == (f.status.value == "activo")
  }

  predicate CategoryPass(f: ComponentFilters, c: ComponentRecord)
  {
    |f.categories| > 0 ==> c.categoryId in f.categories
  }

  predicate SearchPass(f: ComponentFilters, c: ComponentRecord)
  {
    f.searchTerm != "" ==> Contains(Lower(c.name), Lower(f.searchTerm))
  }

  /** The independent reading of the three filters: a component passes when it passes each
      filter that is switched on. */
  predicate Matches(f: ComponentFilters, c: ComponentRecord)
  {
    StatusPass(f, c) && CategoryPass(f, c) && SearchPass(f, c)
  }

  lemma StatusStageIsFilter(f: ComponentFilters, s: seq<ComponentRecord>)
    ensures StatusStage(f, s) == Filter((c: ComponentRecord) => StatusPass(f, c), s)
  {
    if StatusOn(f) {
      FilterExtensional((c: ComponentRecord) => c.isActive == (f.status.value == "activo"), (c: ComponentRecord) => StatusPass(f, c), s);
    } else {
      FilterKeepsAll((c: ComponentRecord) => StatusPass(f, c), s);
    }
  }

  lemma CategoryStageIsFilter(f: ComponentFilters, s: seq<ComponentRecord>)
    ensures CategoryStage(f, s) == Filter((c: ComponentRecord) => CategoryPass(f, c), s)
  {
    if |f.categories| > 0 {
      FilterExtensional((c: ComponentRecord) => c.categoryId in f.categories, (c: ComponentRecord) => CategoryPass(f, c), s);
    } else {
      FilterKeepsAll((c: ComponentRecord) => CategoryPass(f, c), s);
    }
  }

  lemma SearchStageIsFilter(f: ComponentFilters, s: seq<ComponentRecord>)
    ensures SearchStage(f, s) == Filter((c: ComponentRecord) => SearchPass(f, c), s)
  {
    if f.searchTerm != "" {
      FilterExtensional((c: ComponentRecord) => Contains(Lower(c.name), Lower(f.searchTerm)), (c: ComponentRecord) => SearchPass(f, c), s);
    } else {
      FilterKeepsAll((c: ComponentRecord) => SearchPass(f, c), s);
    }
  }

  /** The chain is one filter by the conjunction: an intersection that keeps the order. */
  lemma PipelineIsIntersection(f: ComponentFilters, s: seq<ComponentRecord>)
    ensures Pipeline(f, s) == Filter((c: ComponentRecord) => Matches(f, c), s)
  {
    var st := (c: ComponentRecord) => StatusPass(f, c);
    var ca := (c: ComponentRecord) => CategoryPass(f, c);
    var se := (c: ComponentRecord) => SearchPass(f, c);
    StatusStageIsFilter(f, s);
    var s1 := StatusStage(f, s);
    CategoryStageIsFilter(f, s1);
    var s2 := CategoryStage(f, s1);
    SearchStageIsFilter(f, s2);
    var sc := (c: ComponentRecord) => StatusPass(f, c) && CategoryPass(f, c);
    FilterCompose(st, ca, sc, s);
    FilterCompose(sc, se, (c: ComponentRecord) => Matches(f, c), s);
  }

  /** Membership in the filtered list, filter by filter. */
  lemma PipelineMembership(f: ComponentFilters, s: seq<ComponentRecord>, c: ComponentRecord)
    ensures c in Pipeline(f, s) <==> c in s && Matches(f, c)
  {
    PipelineIsIntersection(f, s);
    FilterMembership((c: ComponentRecord) => Matches(f, c), s, c);
  }

  /** With no filter switched on the chain is the identity, so reloading the list instead of
      filtering it gives the same list. */
  lemma NoFiltersIsIdentity(f: ComponentFilters, s: seq<ComponentRecord>)
    requires NoneActive(f)
    ensures Pipeline(f, s) == s
  {
  }

  /** `saveCategory`: the first category with the response's id is replaced by the response. */
  function ReplaceCategory(categories: seq<Category>, response: Category): seq<Category>
  {
    var index := FindIndex((c: Category) => c.id == response.id, categories);
    if index != -1 then categories[index := response] else categories
  }

  /** Only the matching entry changes, and nothing changes when no entry matches. */
  lemma ReplaceCategoryMeaning(categories: seq<Category>, response: Category)
    ensures |ReplaceCategory(categories, response)| == |categories|
    ensures forall i :: 0 <= i < |categories| && categories[i].id != response.id ==>
      ReplaceCategory(categories, response)[i] == categories[i]
    ensures (exists i :: 0 <= i < |categories| && categories[i].id == response.id) ==> response in ReplaceCategory(categories, response)
    ensures (forall i :: 0 <= i < |categories| ==> categories[i].id != response.id) ==> ReplaceCategory(categories, response) == categories
  {
    var index := FindIndex((c: Category) => c.id == response.id, categories);
    if index != -1 {
      assert ReplaceCategory(categories, response)[index] == response;
    }
  }

  class ElectronicComponentPage {
    var activeFilters: ComponentFilters
    var components: seq<ComponentRecord>
    var searchTerm: string
    var selectedCategories: seq<int>
    var categories: seq<Category>
    var isEditingCategory: bool

    constructor ()
      ensures activeFilters == NoFilters && components == [] && searchTerm == "" && selectedCategories == []
      ensures categories == [] && !isEditingCategory
    {
      activeFilters := NoFilters;
      components := [];
      searchTerm := "";
      selectedCategories := [];
      categories := [];
      isEditingCategory := false;
    }

    /** `applyFilters`, with `response` the server's full list (fetched either way). The shown
        list becomes the filtered response; a failed fetch leaves it as it was. */
    method ApplyFilters(response: Result<seq<ComponentRecord>>)
      modifies this
      ensures response.Ok? ==> components == Pipeline(activeFilters, response.value)
      ensures response.Err? ==> components == old(components)
      ensures activeFilters == old(activeFilters) && searchTerm == old(searchTerm)
      ensures selectedCategories == old(selectedCategories) && categories == old(categories)
      ensures isEditingCategory == old(isEditingCategory)
    {
      if NoneActive(activeFilters) {
        if response.Ok? {
          NoFiltersIsIdentity(activeFilters, response.value);
          components := response.value;
        }
        return;
      }
      if response.Ok? {
        var filtered := response.value;
        if StatusOn(activeFilters) {
          var isActive := activeFilters.status.value == "activo";
          filtered := Filter((c: ComponentRecord) => c.isActive == isActive, filtered);
        }
        var cats := activeFilters.categories;
        if |cats| > 0 {
          filtered := Filter((c: ComponentRecord) => c.categoryId in cats, filtered);
        }
        if activeFilters.searchTerm != "" {
          var term := Lower(activeFilters.searchTerm);
          filtered := Filter((c: ComponentRecord) => Contains(Lower(c.name), term), filtered);
        }
        components := filtered;
      }
    }

    /** `searchComponents`: the trimmed search box becomes the search filter. */
    method SearchComponents(response: Result<seq<ComponentRecord>>)
      modifies this
      ensures activeFilters == old(activeFilters).(searchTerm := Trim(searchTerm))
      ensures response.Ok? ==> components == Pipeline(activeFilters, response.value)
      ensures response.Err? ==> components == old(components)
      ensures searchTerm == old(searchTerm) && selectedCategories == old(selectedCategories)
      ensures categories == old(categories) && isEditingCategory == old(isEditingCategory)
    {
      var term := Trim(searchTerm);
      activeFilters := activeFilters.(searchTerm := term);
      ApplyFilters(response);
    }

    /** `onCategoryChange`: checking appends the id with no duplicate check; unchecking removes
        every occurrence. */
    method OnCategoryChange(categoryId: int, checked: bool, response: Result<seq<ComponentRecord>>)
      modifies this
      ensures checked ==> activeFilters == old(activeFilters).(categories := old(activeFilters).categories + [categoryId])
      ensures !checked ==> activeFilters == old(activeFilters).(categories := Filter((id: int) => id != categoryId, old(activeFilters).categories))
      ensures !checked ==> categoryId !in activeFilters.categories
      ensures response.Ok? ==> components == Pipeline(activeFilters, response.value)
      ensures response.Err? ==> components == old(components)
      ensures searchTerm == old(searchTerm) && selectedCategories == old(selectedCategories)
      ensures categories == old(categories) && isEditingCategory == old(isEditingCategory)
    {
      if checked {
        activeFilters := activeFilters.(categories := activeFilters.categories + [categoryId]);
      } else {
        FilterMembership((id: int) => id != categoryId, activeFilters.categories, categoryId);
        activeFilters := activeFilters.(categories := Filter((id: int) => id != categoryId, activeFilters.categories));
      }
      ApplyFilters(response);
    }

    /** `onStatusFilterChange`: an empty choice switches the status filter off. */
    method OnStatusFilterChange(value: string, response: Result<seq<ComponentRecord>>)
      modifies this
      ensures activeFilters == old(activeFilters).(status := if value == "" then None else Some(value))
      ensures response.Ok? ==> components == Pipeline(activeFilters, response.value)
      ensures response.Err? ==> components == old(components)
      ensures searchTerm == old(searchTerm) && selectedCategories == old(selectedCategories)
      ensures categories == old(categories) && isEditingCategory == old(isEditingCategory)
    {
      activeFilters := activeFilters.(status := if value == "" then None else Some(value));
      ApplyFilters(response);
    }

    /** `resetFilters`: no status, no categories, no search, and the full list reloaded. */
    method ResetFilters(response: Result<seq<ComponentRecord>>)
      modifies this
      ensures activeFilters == NoFilters && searchTerm == "" && selectedCategories == []
      ensures response.Ok? ==> components == response.value
      ensures response.Err? ==> components == old(components)
      ensures categories == old(categories) && isEditingCategory == old(isEditingCategory)
    {
      activeFilters := NoFilters;
      searchTerm := "";
      selectedCategories := [];
      if response.Ok? {
        components := response.value;
      }
    }

    /** `deleteComponent`: on success exactly the entries with the id leave the list. */
    method DeleteComponent(id: int, response: Result<()>) returns (notices: seq<Notice>)
      modifies this
      ensures response.Ok? ==>
        components == Filter((c: ComponentRecord) => c.id != id, old(components)) &&
        notices == [SuccessAlert("Componente eliminado con éxito.")]
      ensures response.Err? ==>
        components == old(components) && notices == [Error("Hubo un error al intentar eliminar el componente.")]
      ensures activeFilters == old(activeFilters) && searchTerm == old(searchTerm)
      ensures categories == old(categories) && isEditingCategory == old(isEditingCategory)
      ensures selectedCategories == old(selectedCategories)
    {
      if response.Ok? {
        components := Filter((c: ComponentRecord) => c.id != id, components);
        notices := [SuccessAlert("Componente eliminado con éxito.")];
      } else {
        notices := [Error("Hubo un error al intentar eliminar el componente.")];
      }
    }

    /** `saveCategory`: on success the matching category is replaced and editing ends; on
        failure a browser alert, and editing goes on. */
    method SaveCategory(response: Result<Category>) returns (notices: seq<Notice>)
      modifies this
      ensures response.Ok? ==>
        categories == ReplaceCategory(old(categories), response.value) && !isEditingCategory && notices == []
      ensures response.Err? ==>
        categories == old(categories) && isEditingCategory == old(isEditingCategory) &&
        notices == [BrowserAlert("Hubo un error al intentar actualizar la categoría")]
      ensures activeFilters == old(activeFilters) && components == old(components) && searchTerm == old(searchTerm)
      ensures selectedCategories == old(selectedCategories)
    {
      if response.Err? {
        return [BrowserAlert("Hubo un error al intentar actualizar la categoría")];
      }
      var index := FindIndex((c: Category) => c.id == response.value.id, categories);
      if index != -1 {
        categories := categories[index := response.value];
      }
      isEditingCategory := false;
      notices := [];
    }
  }
}
