/**
 * The user management page: a paginated, searchable, filterable and
 * sortable table of users. The search box is applied only on Search (or
 * Enter); the filters apply as soon as they change.
 */
module Users {
  import opened Wrappers
  import opened Js
  import opened Listing

  /** The filter entries of the users query, before empty ones are dropped. */
  function UserFilters(search: string, name: string, isAdmin: string): Query {
    [("search", search), ("name", name), ("is_admin", isAdmin)]
  }

  /**
   * The query of `fetchUsers`: `page` and `page_size`, then each non-empty
   * filter, then `sort_by` and `sort_dir` when a column is sorted.
   */
  function UserQuery(page: int, pageSize: int, search: string, name: string, isAdmin: string,
                     sort: Sort): Query
  {
    [("page", IntToString(page)), ("page_size", IntToString(pageSize))]
    + Present(UserFilters(search, name, isAdmin))
    + SortParams(sort)
  }

  /**
   * The query always starts with the page and page size; the applied
   * search, the name filter and the admin filter are each sent, with their
   * value, exactly when non-empty.
   */
  lemma UserQueryFilters(page: int, pageSize: int, search: string, name: string, isAdmin: string,
                         sort: Sort)
    ensures var q := UserQuery(page, pageSize, search, name, isAdmin, sort);
      && q[0] == ("page", IntToString(page))
      && q[1] == ("page_size", IntToString(pageSize))
      && Lookup(q, "search") == (if search != "" then Some(search) else None)
      && Lookup(q, "name") == (if name != "" then Some(name) else None)
      && Lookup(q, "is_admin") == (if isAdmin != "" then Some(isAdmin) else None)
  {
    var fixed := [("page", IntToString(page)), ("page_size", IntToString(pageSize))];
    var filters := UserFilters(search, name, isAdmin);
    var tail := SortParams(sort);
    assert DistinctKeys(filters);
    FilterLookup(fixed, filters, tail, 0);
    FilterLookup(fixed, filters, tail, 1);
    FilterLookup(fixed, filters, tail, 2);
  }

  /** `sort_by` and `sort_dir` are sent together, exactly when a column is sorted. */
  lemma UserQuerySort(page: int, pageSize: int, search: string, name: string, isAdmin: string,
                      sort: Sort)
    ensures var q := UserQuery(page, pageSize, search, name, isAdmin, sort);
      && Lookup(q, "sort_by") == (if sort.sortBy != "" then Some(sort.sortBy) else None)
      && Lookup(q, "sort_dir") == (if sort.sortBy != "" then Some(SortDirName(sort.sortDir)) else None)
  {
    var fixed := [("page", IntToString(page)), ("page_size", IntToString(pageSize))];
    var filters := UserFilters(search, name, isAdmin);
    TailLookup(fixed, filters, SortParams(sort), "sort_by");
    TailLookup(fixed, filters, SortParams(sort), "sort_dir");
    SortParamsPaired(sort);
  }

  /** The user management page's state. */
  class UsersPage {
    var page: int
    var pageSize: int
    var totalPages: int
    var totalItems: int
    var search: string
    var searchInput: string
    var filterName: string
    var filterIsAdmin: string
    var sort: Sort

    constructor()
      ensures page == 1 && pageSize == 10 && totalPages == 1 && totalItems == 0
      ensures search == "" && searchInput == "" && filterName == "" && filterIsAdmin == ""
      ensures sort == UNSORTED
    {
      page := 1;
      pageSize := 10;
      totalPages := 1;
      totalItems := 0;
      search := "";
      searchInput := "";
      filterName := "";
      filterIsAdmin := "";
      sort := UNSORTED;
    }

    /** Typing in the search box: only the pending input changes; nothing is applied yet. */
    method SetSearchInput(value: string)
      modifies this`searchInput
      ensures searchInput == value
    {
      searchInput := value;
    }

    /** `handleSearch`: applies the typed search and goes back to page 1. */
    method HandleSearch()
      modifies this`search, this`page
      ensures search == searchInput && page == 1
    {
      search := searchInput;
      page := 1;
    }

    /** `handleSort(field)`: toggles or selects the column, and goes back to page 1. */
    method HandleSort(field: string)
      modifies this`sort, this`page
      ensures sort == NextSort(old(sort), field)
      ensures page == 1
    {
      if sort.sortBy == field {
        sort := sort.(sortDir := if sort.sortDir == Asc then Desc else Asc);
      } else {
        sort := Sort(field, Asc);
      }
      page := 1;
    }

    /** `handleClearFilters`: no search, no filter, no sort, page 1; the page size is kept. */
    method HandleClearFilters()
      modifies this`search, this`searchInput, this`filterName, this`filterIsAdmin, this`sort, this`page
      ensures search == "" && searchInput == "" && filterName == "" && filterIsAdmin == ""
      ensures sort == UNSORTED && page == 1
      ensures pageSize == old(pageSize)
    {
      search := "";
      searchInput := "";
      filterName := "";
      filterIsAdmin := "";
      sort := Sort("", Asc);
      page := 1;
    }

    /** The name filter's `onChange`: stores the value and goes back to page 1. */
    method SetFilterName(value: string)
      modifies this`filterName, this`page
      ensures filterName == value && page == 1
    {
      filterName := value;
      page := 1;
    }

    /** The admin filter's `onChange`: stores the value and goes back to page 1. */
    method SetFilterIsAdmin(value: string)
      modifies this`filterIsAdmin, this`page
      ensures filterIsAdmin == value && page == 1
    {
      filterIsAdmin := value;
      page := 1;
    }

    /** The items-per-page `onChange`: stores the size and goes back to page 1. */
    method SetPageSize(size: int)
      modifies this`pageSize, this`page
      ensures pageSize == size && page == 1
    {
      pageSize := size;
      page := 1;
    }

    /**
     * A click on a pagination button. The arrows pass `isDisabled`, a prop
     * the Button does not read, so no button is ever disabled and every
     * click sets its target page (see `Listing.LiveArrowsLeaveRange`).
     */
    method Navigate(b: NavButton)
      modifies this`page
      ensures page == Target(old(page), totalPages, b)
    {
      page := Target(page, totalPages, b);
    }

    /** The success branch of `fetchUsers`: `total_pages || 1` and `total_items || 0`. */
    method ReceiveTotals(totalPagesField: Option<int>, totalItemsField: Option<int>)
      modifies this`totalPages, this`totalItems
      ensures totalPages == CountOr(totalPagesField, 1) && totalPages != 0
      ensures totalItems == CountOr(totalItemsField, 0)
    {
      totalPages := if totalPagesField.Some? && totalPagesField.value != 0 then totalPagesField.value else 1;
      totalItems := if totalItemsField.Some? && totalItemsField.value != 0 then totalItemsField.value else 0;
    }

    /** The `URLSearchParams` of `fetchUsers`, built by appends. */
    method QueryParams() returns (params: Query)
      ensures params == UserQuery(page, pageSize, search, filterName, filterIsAdmin, sort)
    {
      params := [("page", IntToString(page)), ("page_size", IntToString(pageSize))];
      var optional: Query := [];
      optional := AppendIfPresent(optional, "search", search);
      optional := AppendIfPresent(optional, "name", filterName);
      optional := AppendIfPresent(optional, "is_admin", filterIsAdmin);
      assert optional == Present(UserFilters(search, filterName, filterIsAdmin)) by {
        PresentAppend([("search", search)], [("name", filterName)]);
        PresentAppend([("search", search), ("name", filterName)], [("is_admin", filterIsAdmin)]);
      }
      params := params + optional;
      if sort.sortBy != "" {
        params := params + [("sort_by", sort.sortBy)];
        params := params + [("sort_dir", SortDirName(sort.sortDir))];
      }
    }

    /** The numbered page buttons under the table; like every list page, it shows `Listing.PageWindow`. */
    method PageButtons() returns (w: seq<int>)
      requires totalPages >= 0
      ensures |w| == WindowSize(totalPages)
      ensures 1 <= page <= totalPages ==>
        && (forall idx :: 0 <= idx < |w| ==> 1 <= w[idx] <= totalPages)
        && page in w
    {
      w := PageWindow(page, totalPages);
    }

    /** The "Showing x to y of n entries" line, whose bounds are those of `Listing.ShowingRangeBounds`. */
    function ShowingRange(): (r: (int, int))
      reads this
      ensures page >= 1 && pageSize >= 1 && (page - 1) * pageSize < totalItems ==>
        1 <= r.0 <= r.1 <= totalItems && r.1 - r.0 + 1 <= pageSize
    {
      var r := (ShowingFirst(page, pageSize), ShowingLast(page, pageSize, totalItems));
      if page >= 1 && pageSize >= 1 && (page - 1) * pageSize < totalItems then
        ShowingRangeBounds(page, pageSize, totalItems);
        r
      else
        r
    }
  }

  /** Typing in the search box and then searching applies exactly the typed text. */
  method TypeThenSearch(p: UsersPage, text: string)
    modifies p
    ensures p.search == text && p.searchInput == text && p.page == 1
    ensures p.filterName == old(p.filterName) && p.filterIsAdmin == old(p.filterIsAdmin)
    ensures p.sort == old(p.sort) && p.pageSize == old(p.pageSize)
  {
    p.SetSearchInput(text);
    p.HandleSearch();
  }
}
