/**
 * The budget list page: a paginated, filterable, sortable table of budgets
 * with a create/edit dialog, plus the colour rules of its progress bars and
 * status badges.
 */
module Budget {
  import opened Wrappers
  import opened Js
  import opened Listing
  import opened BudgetForm

  // ----------------------------------------------------------------------
  // Colours

  /** `getProgressColor`: red from 100 %, orange from 80 %, green below. */
  function ProgressColor(percentage: real): string {
    if percentage >= 100.0 then "red"
    else if percentage >= 80.0 then "orange"
    else "green"
  }

  /** `getStatusColor`: the badge colour of a budget's status. */
  function StatusColor(status: Value): string {
    if status == Str("safe") then "green"
    else if status == Str("warning") then "orange"
    else if status == Str("exceeded") then "red"
    else "gray"
  }

  /** How alarming a colour is: green, orange, red in rising order. */
  function Urgency(color: string): int {
    if color == "red" then 2 else if color == "orange" then 1 else 0
  }

  /** The progress colour only grows more alarming as spending rises, and each band is exact. */
  lemma ProgressColorMonotone(p: real, q: real)
    requires p <= q
    ensures Urgency(ProgressColor(p)) <= Urgency(ProgressColor(q))
    ensures ProgressColor(p) == "red" <==> p >= 100.0
    ensures ProgressColor(p) == "orange" <==> 80.0 <= p < 100.0
    ensures ProgressColor(p) == "green" <==> p < 80.0
  {
  }

  /** Only the three known statuses get a colour of their own; each gets a different one. */
  lemma StatusColorCases(status: Value)
    ensures StatusColor(status) != "gray" <==> status in {Str("safe"), Str("warning"), Str("exceeded")}
    ensures StatusColor(status) == "red" <==> status == Str("exceeded")
    ensures StatusColor(status) == "orange" <==> status == Str("warning")
    ensures StatusColor(status) == "green" <==> status == Str("safe")
  {
  }

  // ----------------------------------------------------------------------
  // Query

  /**
   * The query of `fetchBudgets`: `page` and `page_size`, then each
   * non-empty filter, then `sort_by` and `sort_dir` when a column is sorted.
   */
  function BudgetQuery(page: int, pageSize: int, categoryId: string, period: string,
                       isActive: string, sort: Sort): Query
  {
    [("page", IntToString(page)), ("page_size", IntToString(pageSize))]
    + Present(BudgetFilters(categoryId, period, isActive))
    + SortParams(sort)
  }

  /** The filter entries of the budget query, before empty ones are dropped. */
  function BudgetFilters(categoryId: string, period: string, isActive: string): Query {
    [("category_id", categoryId), ("period", period), ("is_active", isActive)]
  }

  /**
   * The query always starts with the page and page size, and each filter is
   * sent, with its value, exactly when it is non-empty.
   */
  lemma BudgetQueryFilters(page: int, pageSize: int, categoryId: string, period: string,
                           isActive: string, sort: Sort)
    ensures var q := BudgetQuery(page, pageSize, categoryId, period, isActive, sort);
      && q[0] == ("page", IntToString(page))
      && q[1] == ("page_size", IntToString(pageSize))
      && Lookup(q, "category_id") == (if categoryId != "" then Some(categoryId) else None)
      && Lookup(q, "period") == (if period != "" then Some(period) else None)
      && Lookup(q, "is_active") == (if isActive != "" then Some(isActive) else None)
  {
    var fixed := [("page", IntToString(page)), ("page_size", IntToString(pageSize))];
    var filters := BudgetFilters(categoryId, period, isActive);
    var tail := SortParams(sort);
    assert DistinctKeys(filters);
    FilterLookup(fixed, filters, tail, 0);
    FilterLookup(fixed, filters, tail, 1);
    FilterLookup(fixed, filters, tail, 2);
  }

  /** `sort_by` and `sort_dir` are sent together, exactly when a column is sorted. */
  lemma BudgetQuerySort(page: int, pageSize: int, categoryId: string, period: string,
                        isActive: string, sort: Sort)
    ensures var q := BudgetQuery(page, pageSize, categoryId, period, isActive, sort);
      && Lookup(q, "sort_by") == (if sort.sortBy != "" then Some(sort.sortBy) else None)
      && Lookup(q, "sort_dir") == (if sort.sortBy != "" then Some(SortDirName(sort.sortDir)) else None)
  {
    var fixed := [("page", IntToString(page)), ("page_size", IntToString(pageSize))];
    var filters := BudgetFilters(categoryId, period, isActive);
    TailLookup(fixed, filters, SortParams(sort), "sort_by");
    TailLookup(fixed, filters, SortParams(sort), "sort_dir");
    SortParamsPaired(sort);
  }

  /** The filters of the budget table. */
  datatype BudgetFilter = CategoryFilter | PeriodFilter | ActiveFilter

  /** The budget list page's state. */
  class BudgetPage {
    var page: int
    var pageSize: int
    var totalPages: int
    var totalItems: int
    var filterCategoryId: string
    var filterPeriod: string
    var filterIsActive: string
    var sort: Sort
    var formData: BudgetFormData
    var editMode: bool
    var currentBudgetId: Value

    constructor()
      ensures page == 1 && pageSize == 10 && totalPages == 1 && totalItems == 0
      ensures filterCategoryId == "" && filterPeriod == "" && filterIsActive == ""
      ensures sort == UNSORTED
      ensures formData == INITIAL_FORM && !editMode && currentBudgetId == Null
    {
      page := 1;
      pageSize := 10;
      totalPages := 1;
      totalItems := 0;
      filterCategoryId := "";
      filterPeriod := "";
      filterIsActive := "";
      sort := UNSORTED;
      formData := INITIAL_FORM;
      editMode := false;
      currentBudgetId := Null;
    }

    /** `handleSort(field)`: toggles or selects the column, and goes back to page 1. */
    method HandleSort(field: string)
      modifies this`sort, this`page
      ensures sort == NextSort(old(sort), field)
      ensures page == 1
    {
      if sort.sortBy == field {
        sort := sort.(sortDir := if sort.sortDir == Asc then Desc else Asc);
      } else {
        sort := Sort(field, Asc);
      }
      page := 1;
    }

    /** `handleClearFilters`: no filter, no sort, page 1; the page size is kept. */
    method HandleClearFilters()
      modifies this`filterCategoryId, this`filterPeriod, this`filterIsActive, this`sort, this`page
      ensures filterCategoryId == "" && filterPeriod == "" && filterIsActive == ""
      ensures sort == UNSORTED && page == 1
      ensures pageSize == old(pageSize)
    {
      filterCategoryId := "";
      filterPeriod := "";
      filterIsActive := "";
      sort := Sort("", Asc);
      page := 1;
    }

    /** A filter's `onChange`: stores the selection and goes back to page 1. */
    method SetFilter(filter: BudgetFilter, value: string)
      modifies this`filterCategoryId, this`filterPeriod, this`filterIsActive, this`page
      ensures filterCategoryId == if filter == CategoryFilter then value else old(filterCategoryId)
      ensures filterPeriod == if filter == PeriodFilter then value else old(filterPeriod)
      ensures filterIsActive == if filter == ActiveFilter then value else old(filterIsActive)
      ensures page == 1
    {
      page := 1;
      match filter
      case CategoryFilter => filterCategoryId := value;
      case PeriodFilter => filterPeriod := value;
      case ActiveFilter => filterIsActive := value;
    }

    /** The items-per-page `onChange`: stores the size and goes back to page 1. */
    method SetPageSize(size: int)
      modifies this`pageSize, this`page
      ensures pageSize == size && page == 1
    {
      pageSize := size;
      page := 1;
    }

    /**
     * A click on a pagination button. The arrows pass `isDisabled`, a prop
     * the Button does not read, so no button is ever disabled and every
     * click sets its target page (see `Listing.LiveArrowsLeaveRange`).
     */
    method Navigate(b: NavButton)
      modifies this`page
      ensures page == Target(old(page), totalPages, b)
    {
      page := Target(page, totalPages, b);
    }

    /** The success branch of `fetchBudgets`: `total_pages || 1` and `total_items || 0`. */
    method ReceiveTotals(totalPagesField: Option<int>, totalItemsField: Option<int>)
      modifies this`totalPages, this`totalItems
      ensures totalPages == CountOr(totalPagesField, 1) && totalPages != 0
      ensures totalItems == CountOr(totalItemsField, 0)
    {
      totalPages := if totalPagesField.Some? && totalPagesField.value != 0 then totalPagesField.value else 1;
      totalItems := if totalItemsField.Some? && totalItemsField.value != 0 then totalItemsField.value else 0;
    }

    /** `resetForm`: the empty form, create mode, no budget selected. */
    method ResetForm()
      modifies this`formData, this`editMode, this`currentBudgetId
      ensures formData == INITIAL_FORM && !editMode && currentBudgetId == Null
    {
      formData := BudgetFormData(Str(""), Str(""), Str("monthly"), Str(""), Int(80), Str(""));
      editMode := false;
      currentBudgetId := Null;
    }

    /** The `URLSearchParams` of `fetchBudgets`, built by appends. */
    method QueryParams() returns (params: Query)
      ensures params == BudgetQuery(page, pageSize, filterCategoryId, filterPeriod, filterIsActive, sort)
    {
      params := [("page", IntToString(page)), ("page_size", IntToString(pageSize))];
      var optional: Query := [];
      optional := AppendIfPresent(optional, "category_id", filterCategoryId);
      optional := AppendIfPresent(optional, "period", filterPeriod);
      optional := AppendIfPresent(optional, "is_active", filterIsActive);
      assert optional == Present(BudgetFilters(filterCategoryId, filterPeriod, filterIsActive)) by {
        PresentAppend([("category_id", filterCategoryId)], [("period", filterPeriod)]);
        PresentAppend([("category_id", filterCategoryId), ("period", filterPeriod)], [("is_active", filterIsActive)]);
      }
      params := params + optional;
      if sort.sortBy != "" {
        params := params + [("sort_by", sort.sortBy)];
        params := params + [("sort_dir", SortDirName(sort.sortDir))];
      }
    }

    /** The numbered page buttons under the table. */
    method PageButtons() returns (w: seq<int>)
      requires totalPages >= 0
      ensures |w| == WindowSize(totalPages)
      ensures 1 <= page <= totalPages ==>
        && (forall idx :: 0 <= idx < |w| ==> 1 <= w[idx] <= totalPages)
        && page in w
    {
      w := PageWindow(page, totalPages);
    }

    /** The "Showing x to y of n entries" line: the first and last entry numbers. */
    function ShowingRange(): (r: (int, int))
      reads this
      ensures page >= 1 && pageSize >= 1 && (page - 1) * pageSize < totalItems ==>
        1 <= r.0 <= r.1 <= totalItems && r.1 - r.0 + 1 <= pageSize
    {
      var r := (ShowingFirst(page, pageSize), ShowingLast(page, pageSize, totalItems));
      if page >= 1 && pageSize >= 1 && (page - 1) * pageSize < totalItems then
        ShowingRangeBounds(page, pageSize, totalItems);
        r
      else
        r
    }
  }
}
