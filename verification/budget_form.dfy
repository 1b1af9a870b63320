/**
 * The stand-alone budget form: create at `/budget/new`, edit at
 * `/budget/:id`. The form state is the plain object the page keeps in
 * `formData`; numbers typed into it are parsed with `parseInt`, and the
 * payload repairs missing numbers with `||` defaults.
 */
module BudgetForm {
  import opened Wrappers
  import opened Js
  import opened Http
  import opened Constraints

  /** The budget form's `formData`, one slot per input. */
  datatype BudgetFormData = BudgetFormData(
    categoryId: Value, amount: Value, period: Value,
    startDate: Value, alertAt: Value, description: Value)

  /** The inputs of the form, by their `name`. */
  datatype BudgetField = CategoryId | Amount | Period | StartDate | AlertAt | Description

  /** `formData[field]` */
  function FieldOf(f: BudgetFormData, field: BudgetField): Value {
    match field
    case CategoryId => f.categoryId
    case Amount => f.amount
    case Period => f.period
    case StartDate => f.startDate
    case AlertAt => f.alertAt
    case Description => f.description
  }

  /** `{...prev, [field]: v}`: the named slot holds `v`, every other slot is kept. */
  function With(f: BudgetFormData, field: BudgetField, v: Value): (r: BudgetFormData)
    ensures FieldOf(r, field) == v
    ensures forall other :: other != field ==> FieldOf(r, other) == FieldOf(f, other)
  {
    match field
    case CategoryId => f.(categoryId := v)
    case Amount => f.(amount := v)
    case Period => f.(period := v)
    case StartDate => f.(startDate := v)
    case AlertAt => f.(alertAt := v)
    case Description => f.(description := v)
  }

  /** The form of a new budget: monthly, alert at 80 %, every other field empty. */
  const INITIAL_FORM := BudgetFormData(Str(""), Str(""), Str("monthly"), Str(""), Int(80), Str(""))

  /** `!!id`: the page edits when the route carries an id. */
  predicate IsEditMode(id: Value) {
    Truthy(id)
  }

  /** What `handleInputChange` stores: amount and alert_at are parsed when non-empty, the rest kept as typed. */
  function InputValue(field: BudgetField, value: string): (r: Value)
    ensures field == Amount || field == AlertAt ==> NumberSlot(r)
  {
    if (field == Amount || field == AlertAt) && value != "" then ParseInt(value) else Str(value)
  }

  /** What `handleSelectChange` stores: the period as selected, any other field parsed. */
  function SelectValue(field: BudgetField, val: seq<string>): Value {
    if field == Period then First(val) else ParseIntValue(First(val))
  }

  /**
   * A typed numeral of amount or alert_at is stored as its number; clearing
   * either field stores the empty string; every other field keeps the text.
   */
  lemma InputValueReadsNumerals(field: BudgetField, n: int, text: string)
    ensures field == Amount || field == AlertAt ==> InputValue(field, IntToString(n)) == Int(n)
    ensures InputValue(field, "") == Str("")
    ensures field != Amount && field != AlertAt ==> InputValue(field, text) == Str(text)
  {
    ParseIntOfIntToString(n);
  }

  /**
   * Selecting a numeral stores its number, except for the period, which is
   * stored as selected; an empty selection stores undefined for the period
   * and NaN for a numeric field.
   */
  lemma SelectValueReadsNumerals(field: BudgetField, n: int)
    ensures field != Period ==> SelectValue(field, [IntToString(n)]) == Int(n)
    ensures field == Period ==> SelectValue(field, [IntToString(n)]) == Str(IntToString(n))
    ensures field == Period ==> SelectValue(field, []) == Undefined
    ensures field != Period ==> SelectValue(field, []) == NaN
  {
    ParseIntValueOfInt(n);
    ParseIntValueOfNonNumber(Undefined);
  }

  /** A slot as the handlers of the number inputs leave it: a parsed number, NaN, or the empty string. */
  predicate NumberSlot(v: Value) {
    v.Int? || v.NaN? || v == Str("")
  }

  /** The amount input: `type="number"` and `required`. */
  const AMOUNT_INPUT := NumberConstraint(true, None, None, 100)

  /** The alert level input: `type="number"`, `min="1"`, `max="100"` and `required`. */
  const ALERT_AT_INPUT := NumberConstraint(true, Some(1), Some(100), 100)

  /**
   * The browser's check before `handleSubmit` runs: the amount, the start
   * date and the alert level must be filled in, the alert level within 1
   * to 100.
   */
  predicate BrowserAccepts(f: BudgetFormData) {
    && NumberValid(NumberInputText(f.amount), AMOUNT_INPUT)
    && TextValid(TextInputText(f.startDate), true)
    && NumberValid(NumberInputText(f.alertAt), ALERT_AT_INPUT)
  }

  /**
   * With the number slots as the handlers leave them, the browser submits
   * exactly when the amount is a number, a start date is shown and the
   * alert level is a number from 1 to 100.
   */
  lemma BrowserAcceptsExactly(f: BudgetFormData)
    requires NumberSlot(f.amount) && NumberSlot(f.alertAt)
    ensures BrowserAccepts(f) <==>
              f.amount.Int? && TextInputText(f.startDate) != "" && f.alertAt.Int? && 1 <= f.alertAt.n <= 100
  {
    IntegerInputValid(if f.amount.Int? then f.amount.n else 0, AMOUNT_INPUT);
    IntegerInputValid(if f.alertAt.Int? then f.alertAt.n else 0, ALERT_AT_INPUT);
  }

  /** `parseInt(v) || d`: always a number, and never 0 when the default is not. */
  function ParsedOr(v: Value, d: int): (r: Value)
    ensures r.Int?
    ensures d != 0 ==> r.n != 0
    ensures ParseIntValue(v).Int? && ParseIntValue(v).n != 0 ==> r == ParseIntValue(v)
    ensures !(ParseIntValue(v).Int? && ParseIntValue(v).n != 0) ==> r == Int(d)
  {
    ParseIntOrDefault(v, d);
    Or(ParseIntValue(v), Int(d))
  }

  /** `parseInt(parseInt(v) || d) || d` is `parseInt(v) || d`. */
  lemma ParsedOrStable(v: Value, d: int)
    ensures ParsedOr(ParsedOr(v, d), d) == ParsedOr(v, d)
  {
    ParseIntValueOfInt(ParsedOr(v, d).n);
  }

  /**
   * `submitData`: the form with `amount` as `parseInt || 0`, `alert_at` as
   * `parseInt || 80` and `category_id` parsed; period, start date and
   * description are sent as they are.
   */
  function SubmitData(f: BudgetFormData): (r: BudgetFormData)
    ensures r.amount.Int?
    ensures r.alertAt.Int? && r.alertAt.n != 0
    ensures r.categoryId.Int? || r.categoryId == NaN
    ensures r.period == f.period && r.startDate == f.startDate && r.description == f.description
  {
    ParseIntValueIdempotent(f.categoryId);
    f.(amount := ParsedOr(f.amount, 0),
       alertAt := ParsedOr(f.alertAt, 80),
       categoryId := ParseIntValue(f.categoryId))
  }

  /**
   * The payload's numbers: a parsed amount is sent unless it is 0 or NaN,
   * which become 0; a parsed non-zero alert level is sent, and 0 or
   * unparseable input becomes 80.
   */
  lemma SubmitDataDefaults(f: BudgetFormData)
    ensures var p := ParseIntValue(f.amount);
      SubmitData(f).amount == if p.Int? then p else Int(0)
    ensures var p := ParseIntValue(f.alertAt);
      SubmitData(f).alertAt == if p.Int? && p.n != 0 then p else Int(80)
    ensures SubmitData(f).categoryId == ParseIntValue(f.categoryId)
  {
    ParseIntOrDefault(f.amount, 0);
    ParseIntOrDefault(f.alertAt, 80);
  }

  /** Normalising a payload a second time changes nothing. */
  lemma SubmitDataIdempotent(f: BudgetFormData)
    ensures SubmitData(SubmitData(f)) == SubmitData(f)
  {
    ParsedOrStable(f.amount, 0);
    ParsedOrStable(f.alertAt, 80);
    ParseIntValueIdempotent(f.categoryId);
  }

  /**
   * The untouched create form is held back by the browser (amount and
   * start date are empty); its payload would carry amount 0, alert level
   * 80 and no category (NaN).
   */
  lemma InitialPayload()
    ensures !BrowserAccepts(INITIAL_FORM)
    ensures SubmitData(INITIAL_FORM) == BudgetFormData(NaN, Int(0), Str("monthly"), Str(""), Int(80), Str(""))
  {
    var f := INITIAL_FORM;
    assert f.amount == Str("") && f.categoryId == Str("") && f.alertAt == Int(80);
    BrowserAcceptsExactly(f);
    assert ParseIntValue(Str("")) == NaN by {
      assert ToString(Str("")) == "";
      assert TrimStart("") == "";
      assert DigitRun("", 10) == 0;
    }
    ParseIntValueOfInt(80);
    SubmitDataDefaults(f);
  }

  /** `budget.start_date ? budget.start_date.split('T')[0] : ''`; None where `.split` throws on a non-string. */
  function DatePart(start: Value): (r: Option<string>)
    ensures r.None? <==> Truthy(start) && !start.Str?
    ensures r.Some? ==> 'T' !in r.value && (start.Str? ==> r.value <= start.s)
  {
    if !Truthy(start) then Some("")
    else if start.Str? then Some(SplitFirst(start.s, 'T'))
    else None
  }

  /**
   * The form filled from a fetched budget: the start date cut before the
   * first 'T', `amount` as `parseInt || 0`, `alert_at` as `parseInt || 80`,
   * the rest copied. None when a truthy `start_date` is no string, where
   * `.split` throws and the form is left as it was.
   */
  function LoadedForm(budget: Object): (r: Option<BudgetFormData>)
    ensures r.None? <==> DatePart(Get(budget, "start_date")).None?
    ensures r.Some? ==> r.value.amount.Int? && r.value.alertAt.Int? && r.value.alertAt.n != 0
    ensures r.Some? ==> && r.value.amount == ParsedOr(Get(budget, "amount"), 0)
                        && r.value.alertAt == ParsedOr(Get(budget, "alert_at"), 80)
    ensures r.Some? ==> r.value.startDate == Str(DatePart(Get(budget, "start_date")).value)
    ensures r.Some? ==> && r.value.categoryId == Get(budget, "category_id")
                        && r.value.period == Get(budget, "period")
                        && r.value.description == Get(budget, "description")
  {
    var date := DatePart(Get(budget, "start_date"));
    if date.None? then None
    else
      Some(BudgetFormData(
        Get(budget, "category_id"),
        ParsedOr(Get(budget, "amount"), 0),
        Get(budget, "period"),
        Str(date.value),
        ParsedOr(Get(budget, "alert_at"), 80),
        Get(budget, "description")))
  }

  /** A stored ISO timestamp loads as its date part. */
  lemma {:induction false} DatePartOfTimestamp(date: string, time: string)
    requires 'T' !in date
    ensures DatePart(Str(date + "T" + time)) == Some(date)
  {
    var s := date + "T" + time;
    var r := SplitFirst(s, 'T');
    assert s[..|date|] == date && s[|date|] == 'T';
    assert r == date;
  }

  /**
   * Saving a loaded budget without edits sends its amount and alert level
   * back unchanged, and the category parsed.
   */
  lemma LoadThenSubmit(budget: Object)
    requires LoadedForm(budget).Some?
    ensures var f := LoadedForm(budget).value;
      SubmitData(f) == f.(categoryId := ParseIntValue(Get(budget, "category_id")))
  {
    ParsedOrStable(Get(budget, "amount"), 0);
    ParsedOrStable(Get(budget, "alert_at"), 80);
  }

  /**
   * A loaded budget can be saved again without edits exactly when it has a
   * start date and its alert level (`parseInt || 80`) lies within 1 to 100.
   */
  lemma LoadedFormAccepted(budget: Object)
    requires LoadedForm(budget).Some?
    ensures var a := ParsedOr(Get(budget, "alert_at"), 80).n;
      BrowserAccepts(LoadedForm(budget).value) <==> DatePart(Get(budget, "start_date")).value != "" && 1 <= a <= 100
  {
    BrowserAcceptsExactly(LoadedForm(budget).value);
  }

  /** Edit sends `PUT budgets/{id}`, create sends `POST budgets`; both carry the normalised payload. */
  function SubmitRequest(id: Value, f: BudgetFormData): (r: Request<BudgetFormData>)
    ensures r.verb == PUT <==> IsEditMode(id)
    ensures r.verb == POST <==> !IsEditMode(id)
    ensures r.body == Some(SubmitData(f))
    ensures IsEditMode(id) ==> r.path == "budgets/" + ToString(id)
    ensures !IsEditMode(id) ==> r.path == "budgets"
  {
    if IsEditMode(id) then Request(PUT, "budgets/" + ToString(id), Some(SubmitData(f)))
    else Request(POST, "budgets", Some(SubmitData(f)))
  }

  /** The budget form page: the route id, `formData` and the loading flag. */
  class BudgetFormPage {
    const id: Value
    var formData: BudgetFormData
    var loading: bool

    constructor(id: Value)
      ensures this.id == id && formData == INITIAL_FORM && !loading
    {
      this.id := id;
      formData := INITIAL_FORM;
      loading := false;
    }

    /**
     * `fetchBudget`, run on mount in edit mode. `response` is the budget
     * object the server returned, or None when the request failed. Returns
     * whether an error was reported.
     */
    method FetchBudget(response: Option<Object>) returns (reportedError: bool)
      requires IsEditMode(id)
      modifies this
      ensures !loading
      ensures reportedError <==> response.None? || LoadedForm(response.value).None?
      ensures !reportedError ==> formData == LoadedForm(response.value).value
      ensures reportedError ==> formData == old(formData)
    {
      loading := true;
      reportedError := false;
      if response.Some? {
        var loaded := LoadedForm(response.value);
        if loaded.Some? {
          formData := loaded.value;
        } else {
          reportedError := true;
        }
      } else {
        reportedError := true;
      }
      loading := false;
    }

    /** `handleInputChange`: only the named field changes. */
    method HandleInputChange(field: BudgetField, value: string)
      modifies this`formData
      ensures formData == With(old(formData), field, InputValue(field, value))
    {
      formData := With(formData, field, InputValue(field, value));
    }

    /** `handleSelectChange`: only the named field changes. */
    method HandleSelectChange(field: BudgetField, val: seq<string>)
      modifies this`formData
      ensures formData == With(old(formData), field, SelectValue(field, val))
    {
      formData := With(formData, field, SelectValue(field, val));
    }

    /**
     * Submitting the form. While the browser's check fails, `handleSubmit`
     * does not run and nothing is sent; otherwise it sends the request for
     * the current form, and `succeeded`, the server's answer, decides
     * whether the page navigates back to the list.
     */
    method HandleSubmit(succeeded: bool) returns (request: Option<Request<BudgetFormData>>, navigated: bool)
      modifies this`loading
      ensures request == if BrowserAccepts(formData) then Some(SubmitRequest(id, formData)) else None
      ensures navigated <==> request.Some? && succeeded
      ensures loading == (if request.None? then old(loading) else false)
    {
      navigated := false;
      if !BrowserAccepts(formData) {
        request := None;
        return;
      }
      loading := true;
      request := Some(SubmitRequest(id, formData));
      navigated := succeeded;
      loading := false;
    }
  }
}
