/**
 * The new-transaction form: a wallet, a category, an amount, a date, a
 * description and an income/expense type. Submission is refused while a
 * required field is empty; a recorded transaction clears the form, keeping
 * only today's date.
 */
module Transaction {
  import opened Wrappers
  import opened Js
  import opened Http

  /** The form's `formData`, one slot per input. */
  datatype TransactionFormData = TransactionFormData(
    assetId: Value, categoryId: Value, amount: Value,
    description: Value, date: Value, transactionType: Value)

  /** The slots of the form, by their key. */
  datatype TransactionField = AssetId | CategoryId | Amount | Description | Date | TransactionType

  /** `formData[field]` */
  function FieldOf(f: TransactionFormData, field: TransactionField): Value {
    match field
    case AssetId => f.assetId
    case CategoryId => f.categoryId
    case Amount => f.amount
    case Description => f.description
    case Date => f.date
    case TransactionType => f.transactionType
  }

  /** `{...prev, [field]: v}`: the named slot holds `v`, every other slot is kept. */
  function With(f: TransactionFormData, field: TransactionField, v: Value): (r: TransactionFormData)
    ensures FieldOf(r, field) == v
    ensures forall other :: other != field ==> FieldOf(r, other) == FieldOf(f, other)
  {
    match field
    case AssetId => f.(assetId := v)
    case CategoryId => f.(categoryId := v)
    case Amount => f.(amount := v)
    case Description => f.(description := v)
    case Date => f.(date := v)
    case TransactionType => f.(transactionType := v)
  }

  /**
   * The empty form: every slot '' except the date, which is today's date
   * (`today` stands for `new Date().toISOString().split('T')[0]`).
   */
  function EmptyForm(today: string): (r: TransactionFormData)
    ensures r.date == Str(today)
    ensures forall field :: field != Date ==> FieldOf(r, field) == Str("")
  {
    TransactionFormData(Str(""), Str(""), Str(""), Str(""), Str(today), Str(""))
  }

  /** What `handleSelectChange` stores: '' for an empty selection, otherwise the first value parsed. */
  function SelectValue(val: seq<string>): (r: Value)
    ensures !Truthy(First(val)) ==> r == Str("")
    ensures Truthy(First(val)) ==> r.Int? || r == NaN
  {
    ParseIntValueIdempotent(First(val));
    if Truthy(First(val)) then ParseIntValue(First(val)) else Str("")
  }

  /** The income and expense buttons' types. */
  const INCOME := "Income"
  const EXPENSE := "Expense"

  /** The guard of `handleSubmit`: amount, wallet, category and type must all be filled in. */
  predicate MissingRequired(f: TransactionFormData) {
    !Truthy(f.amount) || !Truthy(f.assetId) || !Truthy(f.categoryId) || !Truthy(f.transactionType)
  }

  /** The body posted to `v2/transactions`: exactly these six fields. */
  datatype TransactionPayload = TransactionPayload(
    description: Value, categoryId: Value, assetId: Value,
    amount: Value, transactionType: Value, date: Value)

  /** The payload of a form: the slots copied, the amount parsed. */
  function Payload(f: TransactionFormData): (r: TransactionPayload)
    ensures r.amount == ParseIntValue(f.amount)
    ensures r.amount.Int? || r.amount == NaN
    ensures && r.description == f.description && r.categoryId == f.categoryId
            && r.assetId == f.assetId && r.transactionType == f.transactionType && r.date == f.date
  {
    ParseIntValueIdempotent(f.amount);
    TransactionPayload(f.description, f.categoryId, f.assetId, ParseIntValue(f.amount),
                       f.transactionType, f.date)
  }

  /**
   * What `handleSubmit` sends: nothing while a required field is empty,
   * otherwise `POST v2/transactions` with the payload.
   */
  function SubmitRequest(f: TransactionFormData): (r: Option<Request<TransactionPayload>>)
    ensures r.None? <==> MissingRequired(f)
    ensures r.Some? ==> r.value.verb == POST && r.value.path == "v2/transactions"
                        && r.value.body == Some(Payload(f))
  {
    if MissingRequired(f) then None
    else Some(Request(POST, "v2/transactions", Some(Payload(f))))
  }

  /** The form as it is after a reset can never be submitted: it lacks every required field. */
  lemma EmptyFormIsRefused(today: string)
    ensures SubmitRequest(EmptyForm(today)).None?
    ensures !Truthy(EmptyForm(today).amount) && !Truthy(EmptyForm(today).assetId)
    ensures !Truthy(EmptyForm(today).categoryId) && !Truthy(EmptyForm(today).transactionType)
  {
  }

  /**
   * Filling the form through its handlers: picking a wallet and a category
   * by their numeric ids, typing a numeral as the amount and choosing a
   * type. The request is sent exactly when both ids are non-zero, and then
   * carries every value as chosen, the amount as its number.
   */
  lemma {:induction false} FillThenSubmit(f: TransactionFormData, asset: int, category: int,
                                          amount: int, transactionType: string)
    requires transactionType == INCOME || transactionType == EXPENSE
    ensures var g := With(With(With(With(f,
                       AssetId, SelectValue([IntToString(asset)])),
                       CategoryId, SelectValue([IntToString(category)])),
                       Amount, Str(IntToString(amount))),
                       TransactionType, Str(transactionType));
      && (SubmitRequest(g).Some? <==> asset != 0 && category != 0)
      && (SubmitRequest(g).Some? ==>
            SubmitRequest(g).value.body == Some(TransactionPayload(
              f.description, Int(category), Int(asset), Int(amount), Str(transactionType), f.date)))
  {
    FilledForm(f, asset, category, amount, transactionType);
    SubmitFilledForm(f, asset, category, amount, transactionType);
  }

  /** The form after the four handlers, slot by slot. */
  lemma FilledForm(f: TransactionFormData, asset: int, category: int, amount: int, transactionType: string)
    ensures With(With(With(With(f,
              AssetId, SelectValue([IntToString(asset)])),
              CategoryId, SelectValue([IntToString(category)])),
              Amount, Str(IntToString(amount))),
              TransactionType, Str(transactionType))
         == TransactionFormData(Int(asset), Int(category), Str(IntToString(amount)),
                                f.description, f.date, Str(transactionType))
  {
    NonEmptyNumeralSelects(asset);
    NonEmptyNumeralSelects(category);
  }

  /** The request for a form holding two ids, a typed numeral and a type. */
  lemma SubmitFilledForm(f: TransactionFormData, asset: int, category: int, amount: int, transactionType: string)
    requires transactionType != ""
    ensures var g := TransactionFormData(Int(asset), Int(category), Str(IntToString(amount)),
                                         f.description, f.date, Str(transactionType));
      && (SubmitRequest(g).Some? <==> asset != 0 && category != 0)
      && (SubmitRequest(g).Some? ==>
            SubmitRequest(g).value.body == Some(TransactionPayload(
              f.description, Int(category), Int(asset), Int(amount), Str(transactionType), f.date)))
  {
    NonEmptyNumeralSelects(amount);
    ParseIntOfIntToString(amount);
  }

  /** Selecting the numeral of an id stores that id. */
  lemma NonEmptyNumeralSelects(n: int)
    ensures IntToString(n) != ""
    ensures SelectValue([IntToString(n)]) == Int(n)
  {
    NatToStringDigits(if n < 0 then -n else n);
    ParseIntOfIntToString(n);
  }

  /**
   * The guard reads the typed text, not the number: ".5", a number the
   * amount input accepts but `parseInt` cannot read, passes it and is
   * posted as NaN.
   */
  lemma UnparsedAmountPassesGuard(f: TransactionFormData)
    requires Truthy(f.assetId) && Truthy(f.categoryId) && Truthy(f.transactionType)
    requires f.amount == Str(".5")
    ensures SubmitRequest(f).Some? && SubmitRequest(f).value.body.value.amount == NaN
  {
    assert ToString(Str(".5")) == ".5";
    assert TrimStart(".5") == ".5";
    assert DigitRun(".5", 10) == 0;
  }

  /** The new-transaction page: `formData` and the loading flag. */
  class TransactionPage {
    var formData: TransactionFormData
    var loading: bool

    /** The page opens with the empty form dated today. */
    constructor(today: string)
      ensures formData == EmptyForm(today) && !loading
    {
      formData := EmptyForm(today);
      loading := false;
    }

    /** `handleInputChange` for the amount, date and description inputs: only that slot changes. */
    method HandleInputChange(field: TransactionField, value: string)
      requires field == Amount || field == Date || field == Description
      modifies this`formData
      ensures formData == With(old(formData), field, Str(value))
    {
      formData := With(formData, field, Str(value));
    }

    /** `handleSelectChange` for the wallet and category selects: only that slot changes. */
    method HandleSelectChange(field: TransactionField, val: seq<string>)
      requires field == AssetId || field == CategoryId
      modifies this`formData
      ensures formData == With(old(formData), field, SelectValue(val))
    {
      formData := With(formData, field, SelectValue(val));
    }

    /** `handleTypeSelect`: only the transaction type changes. */
    method HandleTypeSelect(transactionType: string)
      modifies this`formData
      ensures formData == old(formData).(transactionType := Str(transactionType))
    {
      formData := formData.(transactionType := Str(transactionType));
    }

    /**
     * `handleSubmit`. Returns the request sent (None when the guard
     * refuses); `succeeded` is the server's answer. A recorded transaction
     * resets the form to empty with today's date; a refusal or a failure
     * keeps it as it was.
     */
    method HandleSubmit(succeeded: bool, today: string) returns (request: Option<Request<TransactionPayload>>)
      modifies this`formData, this`loading
      ensures request == SubmitRequest(old(formData))
      ensures request.Some? && succeeded ==> formData == EmptyForm(today)
      ensures request.None? || !succeeded ==> formData == old(formData)
      ensures loading == (if request.None? then old(loading) else false)
    {
      if MissingRequired(formData) {
        request := None;
        return;
      }
      loading := true;
      request := Some(Request(POST, "v2/transactions", Some(Payload(formData))));
      if succeeded {
        formData := TransactionFormData(Str(""), Str(""), Str(""), Str(""), Str(today), Str(""));
      }
      loading := false;
    }
  }

  /** After a recorded transaction the page cannot send the same transaction again without new input. */
  method SubmitTwice(p: TransactionPage, today: string) returns (first: Option<Request<TransactionPayload>>,
                                                                 second: Option<Request<TransactionPayload>>)
    modifies p
    ensures first == SubmitRequest(old(p.formData))
    ensures first.Some? ==> second.None?
  {
    first := p.HandleSubmit(true, today);
    second := p.HandleSubmit(true, today);
  }
}
