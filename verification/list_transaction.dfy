/**
 * The transaction history page: a paginated table filtered by date range,
 * type, category and bank, with signed amounts.
 */
module ListTransaction {
  import opened Wrappers
  import opened Js
  import opened Listing

  /** `transaction_type === 1 ? '+' : '-'`: income (type 1) is shown with a plus, everything else with a minus. */
  function AmountSign(transactionType: Value): (r: string)
    ensures r == "+" <==> StrictEquals(transactionType, Int(1))
    ensures r == "+" || r == "-"
  {
    if StrictEquals(transactionType, Int(1)) then "+" else "-"
  }

  /** The sign compares strictly: a type read as the string "1" shows a minus. */
  lemma AmountSignIsStrict()
    ensures AmountSign(Int(1)) == "+"
    ensures AmountSign(Str("1")) == "-"
    ensures AmountSign(Int(2)) == "-"
  {
  }

  /** The five filters, in the order their entries are appended to the query. */
  function TransactionFilters(startDate: string, endDate: string, transactionType: string,
                              categoryId: string, bankId: string): Query
  {
    [("start_date", startDate), ("end_date", endDate), ("transaction_type", transactionType),
     ("category_id", categoryId), ("bank_id", bankId)]
  }

  /** The query of `fetchTransactions`: `page` and `limit`, then each non-empty filter. */
  function TransactionQuery(page: int, limit: int, startDate: string, endDate: string,
                            transactionType: string, categoryId: string, bankId: string): Query
  {
    [("page", IntToString(page)), ("limit", IntToString(limit))]
    + Present(TransactionFilters(startDate, endDate, transactionType, categoryId, bankId))
  }

  /** The five filter keys differ from each other and from `page` and `limit`. */
  lemma FilterKeysDistinct(fixed: Query, filters: Query)
    requires |fixed| == 2 && fixed[0].0 == "page" && fixed[1].0 == "limit"
    requires |filters| == 5
    requires filters[0].0 == "start_date" && filters[1].0 == "end_date" && filters[2].0 == "transaction_type"
    requires filters[3].0 == "category_id" && filters[4].0 == "bank_id"
    ensures DistinctKeys(filters)
    ensures forall i :: 0 <= i < |filters| ==> KeyAbsent(fixed, filters[i].0) && KeyAbsent([], filters[i].0)
  {
  }

  /**
   * The query starts with the page and the limit, and carries each filter
   * with its value exactly when the value is non-empty.
   */
  lemma TransactionQueryContents(page: int, limit: int, startDate: string, endDate: string,
                                 transactionType: string, categoryId: string, bankId: string)
    ensures var q := TransactionQuery(page, limit, startDate, endDate, transactionType, categoryId, bankId);
      && q[0] == ("page", IntToString(page))
      && q[1] == ("limit", IntToString(limit))
      && Lookup(q, "start_date") == (if startDate != "" then Some(startDate) else None)
      && Lookup(q, "end_date") == (if endDate != "" then Some(endDate) else None)
      && Lookup(q, "transaction_type") == (if transactionType != "" then Some(transactionType) else None)
      && Lookup(q, "category_id") == (if categoryId != "" then Some(categoryId) else None)
      && Lookup(q, "bank_id") == (if bankId != "" then Some(bankId) else None)
  {
    var fixed := [("page", IntToString(page)), ("limit", IntToString(limit))];
    var filters := TransactionFilters(startDate, endDate, transactionType, categoryId, bankId);
    assert TransactionQuery(page, limit, startDate, endDate, transactionType, categoryId, bankId)
      == fixed + Present(filters) + [];
    FilterKeysDistinct(fixed, filters);
    AllFilterLookups(fixed, filters, []);
  }

  /** The filters that are sent keep the order in which the page appends them. */
  lemma TransactionQueryOrder(page: int, limit: int, startDate: string, endDate: string,
                              transactionType: string, categoryId: string, bankId: string)
    ensures var q := TransactionQuery(page, limit, startDate, endDate, transactionType, categoryId, bankId);
      |q| >= 2 && IsSubsequence(q[2..], TransactionFilters(startDate, endDate, transactionType, categoryId, bankId))
  {
    var filters := TransactionFilters(startDate, endDate, transactionType, categoryId, bankId);
    var q := TransactionQuery(page, limit, startDate, endDate, transactionType, categoryId, bankId);
    assert q[2..] == Present(filters);
    PresentKeepsOrder(filters);
  }

  /** The filters of the transaction table. */
  datatype TransactionFilter = StartDate | EndDate | TransactionType | CategoryId | BankId

  /** The transaction history page's state. */
  class ListTransactionPage {
    var page: int
    var limit: int
    var totalPages: int
    var totalItems: int
    var startDate: string
    var endDate: string
    var transactionType: string
    var categoryId: string
    var bankId: string

    constructor()
      ensures page == 1 && limit == 10 && totalPages == 1 && totalItems == 0
      ensures startDate == "" && endDate == "" && transactionType == "" && categoryId == "" && bankId == ""
    {
      page := 1;
      limit := 10;
      totalPages := 1;
      totalItems := 0;
      startDate := "";
      endDate := "";
      transactionType := "";
      categoryId := "";
      bankId := "";
    }

    /** `handleClearFilters`: all five filters emptied, page 1, the limit kept. */
    method HandleClearFilters()
      modifies this`startDate, this`endDate, this`transactionType, this`categoryId, this`bankId, this`page
      ensures startDate == "" && endDate == "" && transactionType == "" && categoryId == "" && bankId == ""
      ensures page == 1
      ensures limit == old(limit)
    {
      startDate := "";
      endDate := "";
      transactionType := "";
      categoryId := "";
      bankId := "";
      page := 1;
    }

    /** A filter's `onChange`: stores the value and goes back to page 1. */
    method SetFilter(filter: TransactionFilter, value: string)
      modifies this`startDate, this`endDate, this`transactionType, this`categoryId, this`bankId, this`page
      ensures startDate == if filter == StartDate then value else old(startDate)
      ensures endDate == if filter == EndDate then value else old(endDate)
      ensures transactionType == if filter == TransactionType then value else old(transactionType)
      ensures categoryId == if filter == CategoryId then value else old(categoryId)
      ensures bankId == if filter == BankId then value else old(bankId)
      ensures page == 1
    {
      page := 1;
      match filter
      case StartDate => startDate := value;
      case EndDate => endDate := value;
      case TransactionType => transactionType := value;
      case CategoryId => categoryId := value;
      case BankId => bankId := value;
    }

    /** The items-per-page `onChange`: stores the limit and goes back to page 1. */
    method SetLimit(size: int)
      modifies this`limit, this`page
      ensures limit == size && page == 1
    {
      limit := size;
      page := 1;
    }

    /** A click on a pagination button; a disabled button does nothing. */
    method Navigate(b: NavButton)
      modifies this`page
      ensures page == if Listing.Navigate(old(page), totalPages, b).Some?
                      then Listing.Navigate(old(page), totalPages, b).value else old(page)
    {
      var target := Listing.Navigate(page, totalPages, b);
      if target.Some? {
        page := target.value;
      }
    }

    /** The success branch of `fetchTransactions`: `pagination?.total_pages || 1` and `total_items || 0`. */
    method ReceiveTotals(totalPagesField: Option<int>, totalItemsField: Option<int>)
      modifies this`totalPages, this`totalItems
      ensures totalPages == CountOr(totalPagesField, 1) && totalPages != 0
      ensures totalItems == CountOr(totalItemsField, 0)
    {
      totalPages := if totalPagesField.Some? && totalPagesField.value != 0 then totalPagesField.value else 1;
      totalItems := if totalItemsField.Some? && totalItemsField.value != 0 then totalItemsField.value else 0;
    }

    /** The `URLSearchParams` of `fetchTransactions`, built by appends. */
    method QueryParams() returns (params: Query)
      ensures params == TransactionQuery(page, limit, startDate, endDate, transactionType, categoryId, bankId)
    {
      params := [("page", IntToString(page)), ("limit", IntToString(limit))];
      var optional: Query := [];
      optional := AppendIfPresent(optional, "start_date", startDate);
      optional := AppendIfPresent(optional, "end_date", endDate);
      optional := AppendIfPresent(optional, "transaction_type", transactionType);
      optional := AppendIfPresent(optional, "category_id", categoryId);
      optional := AppendIfPresent(optional, "bank_id", bankId);
      PresentOfFive(("start_date", startDate), ("end_date", endDate), ("transaction_type", transactionType),
                    ("category_id", categoryId), ("bank_id", bankId));
      params := params + optional;
    }

    /** The numbered page buttons under the table; like every list page, it shows `Listing.PageWindow`. */
    method PageButtons() returns (w: seq<int>)
      requires totalPages >= 0
      ensures |w| == WindowSize(totalPages)
      ensures 1 <= page <= totalPages ==>
        && (forall idx :: 0 <= idx < |w| ==> 1 <= w[idx] <= totalPages)
        && page in w
    {
      w := PageWindow(page, totalPages);
    }

    /** The "Showing x to y of n entries" line, with `limit` entries per page; its bounds are those of `Listing.ShowingRangeBounds`. */
    function ShowingRange(): (r: (int, int))
      reads this
      ensures page >= 1 && limit >= 1 && (page - 1) * limit < totalItems ==>
        1 <= r.0 <= r.1 <= totalItems && r.1 - r.0 + 1 <= limit
    {
      var r := (ShowingFirst(page, limit), ShowingLast(page, limit, totalItems));
      if page >= 1 && limit >= 1 && (page - 1) * limit < totalItems then
        ShowingRangeBounds(page, limit, totalItems);
        r
      else
        r
    }
  }
}
