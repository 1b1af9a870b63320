/**
 * The wallet form: create at `/wallets/new`, edit at `/wallets/:id`. Name,
 * type and balance are required; the bank name and account number are sent
 * only when filled in.
 */
module WalletForm {
  import opened Wrappers
  import opened Js
  import opened Http
  import opened Constraints

  /** The form's `formData`, one slot per input. */
  datatype WalletFormData = WalletFormData(
    name: Value, walletType: Value, balance: Value,
    currency: Value, bankName: Value, accountNo: Value)

  /** The slots of the form, by their key. */
  datatype WalletField = Name | WalletType | Balance | Currency | BankName | AccountNo

  /** `formData[field]` */
  function FieldOf(f: WalletFormData, field: WalletField): Value {
    match field
    case Name => f.name
    case WalletType => f.walletType
    case Balance => f.balance
    case Currency => f.currency
    case BankName => f.bankName
    case AccountNo => f.accountNo
  }

  /** `{...prev, [field]: v}`: the named slot holds `v`, every other slot is kept. */
  function With(f: WalletFormData, field: WalletField, v: Value): (r: WalletFormData)
    ensures FieldOf(r, field) == v
    ensures forall other :: other != field ==> FieldOf(r, other) == FieldOf(f, other)
  {
    match field
    case Name => f.(name := v)
    case WalletType => f.(walletType := v)
    case Balance => f.(balance := v)
    case Currency => f.(currency := v)
    case BankName => f.(bankName := v)
    case AccountNo => f.(accountNo := v)
  }

  /** The currency a wallet has when none is chosen or stored. */
  const DEFAULT_CURRENCY := "IDR"

  /** The form of a new wallet: currency IDR, every other slot empty. */
  const INITIAL_FORM := WalletFormData(Str(""), Str(""), Str(""), Str(DEFAULT_CURRENCY), Str(""), Str(""))

  /** `!!id`: the page edits when the route carries an id. */
  predicate IsEditMode(id: Value) {
    Truthy(id)
  }

  /** A wallet as the server returns it; a missing property is `Undefined`. */
  datatype WalletRecord = WalletRecord(
    name: Value, walletType: Value, balance: Value,
    currency: Value, bankName: Value, accountNo: Value)

  /** `balance?.toString() || ''`: the balance as text; nothing stored gives ''. */
  function BalanceText(balance: Value): (r: Value)
    ensures r.Str?
    ensures balance.Undefined? || balance.Null? ==> r == Str("")
    ensures balance.Int? ==> r == Str(IntToString(balance.n))
  {
    if balance.Undefined? || balance.Null? then Str("") else Or(Str(ToString(balance)), Str(""))
  }

  /**
   * The form filled by `fetchWallet`: every slot `|| ''`, the balance as
   * text and the currency `|| 'IDR'`.
   */
  function LoadedForm(w: WalletRecord): (r: WalletFormData)
    ensures Truthy(r.currency)
    ensures forall field :: field != Balance && field != Currency ==> Truthy(FieldOf(r, field)) || FieldOf(r, field) == Str("")
  {
    WalletFormData(
      Or(w.name, Str("")),
      Or(w.walletType, Str("")),
      BalanceText(w.balance),
      Or(w.currency, Str(DEFAULT_CURRENCY)),
      Or(w.bankName, Str("")),
      Or(w.accountNo, Str("")))
  }

  /**
   * Loading keeps every stored non-empty text, turns a missing or empty
   * one into '' (the currency into 'IDR'), and keeps a zero balance as "0".
   */
  lemma LoadedFormDefaults(w: WalletRecord)
    ensures w.name.Str? ==> LoadedForm(w).name == w.name
    ensures w.bankName.Str? ==> LoadedForm(w).bankName == w.bankName
    ensures w.accountNo.Str? ==> LoadedForm(w).accountNo == w.accountNo
    ensures !Truthy(w.name) ==> LoadedForm(w).name == Str("")
    ensures !Truthy(w.walletType) ==> LoadedForm(w).walletType == Str("")
    ensures !Truthy(w.currency) ==> LoadedForm(w).currency == Str(DEFAULT_CURRENCY)
    ensures Truthy(w.currency) ==> LoadedForm(w).currency == w.currency
    ensures w.balance == Int(0) ==> LoadedForm(w).balance == Str("0")
  {
    assert IntToString(0) == "0";
  }

  /** The guard of `handleSubmit`: name, type and balance must be filled in. */
  predicate MissingRequired(f: WalletFormData) {
    !Truthy(f.name) || !Truthy(f.walletType) || !Truthy(f.balance)
  }

  /** The balance input: `type="number"`, `step="0.01"`, `min="0"` and `required`. */
  const BALANCE_INPUT := NumberConstraint(true, Some(0), None, 1)

  /**
   * The browser's check before `handleSubmit` runs: the name must be
   * filled in, and the balance must be a number of at least 0 in whole
   * cents.
   */
  predicate BrowserAccepts(f: WalletFormData) {
    TextValid(TextInputText(f.name), true) && NumberValid(NumberInputText(f.balance), BALANCE_INPUT)
  }

  /** The body of the save request; the two optional fields may be absent. */
  datatype WalletPayload = WalletPayload(
    name: Value, walletType: Value, balance: Value, currency: Value,
    bankName: Option<Value>, accountNo: Option<Value>)

  /**
   * The payload of a form. `balance` is `parseFloat(formData.balance)`,
   * supplied by the caller. The bank name and account number are present
   * exactly when they are filled in.
   */
  function Payload(f: WalletFormData, balance: Value): (r: WalletPayload)
    ensures r.bankName.Some? <==> Truthy(f.bankName)
    ensures r.accountNo.Some? <==> Truthy(f.accountNo)
    ensures r.bankName.Some? ==> r.bankName.value == f.bankName
    ensures r.accountNo.Some? ==> r.accountNo.value == f.accountNo
    ensures r.name == f.name && r.walletType == f.walletType && r.currency == f.currency
    ensures r.balance == balance
  {
    WalletPayload(f.name, f.walletType, balance, f.currency,
                  if Truthy(f.bankName) then Some(f.bankName) else None,
                  if Truthy(f.accountNo) then Some(f.accountNo) else None)
  }

  /**
   * What `handleSubmit` sends: nothing while a required field is empty;
   * otherwise `PUT wallets/{id}` in edit mode and `POST wallets` in create
   * mode, with the payload.
   */
  function SubmitRequest(id: Value, f: WalletFormData, balance: Value): (r: Option<Request<WalletPayload>>)
    ensures r.None? <==> MissingRequired(f)
    ensures r.Some? ==> r.value.body == Some(Payload(f, balance))
    ensures r.Some? ==> (r.value.verb == PUT <==> IsEditMode(id))
    ensures r.Some? ==> (r.value.verb == POST <==> !IsEditMode(id))
    ensures r.Some? && IsEditMode(id) ==> r.value.path == "wallets/" + ToString(id)
    ensures r.Some? && !IsEditMode(id) ==> r.value.path == "wallets"
  {
    if MissingRequired(f) then None
    else if IsEditMode(id) then Some(Request(PUT, "wallets/" + ToString(id), Some(Payload(f, balance))))
    else Some(Request(POST, "wallets", Some(Payload(f, balance))))
  }

  /** The wallet the server stores for a payload: an absent optional field reads as undefined. */
  function Stored(p: WalletPayload): WalletRecord {
    WalletRecord(p.name, p.walletType, p.balance, p.currency,
                 if p.bankName.Some? then p.bankName.value else Undefined,
                 if p.accountNo.Some? then p.accountNo.value else Undefined)
  }

  /** A form whose slots all hold text, as the inputs and selects of the page leave them. */
  predicate TextForm(f: WalletFormData) {
    f.name.Str? && f.walletType.Str? && f.balance.Str? && f.currency.Str? && f.bankName.Str? && f.accountNo.Str?
  }

  /**
   * Saving a wallet and loading it again gives back the form, with the
   * balance as the numeral of the stored number; only an empty currency
   * comes back as 'IDR'.
   */
  lemma SaveThenLoad(f: WalletFormData, n: int)
    requires TextForm(f) && !MissingRequired(f)
    ensures LoadedForm(Stored(Payload(f, Int(n)))) ==
              f.(balance := Str(IntToString(n)),
                 currency := if Truthy(f.currency) then f.currency else Str(DEFAULT_CURRENCY))
  {
  }

  /**
   * A loaded form passes the page's guard exactly when the stored wallet
   * has a name, a type and a balance, and passes the browser's check
   * exactly when it has a name and a balance of at least 0: a wallet
   * stored with a negative balance cannot be saved again unedited.
   */
  lemma {:induction false} LoadedFormSubmits(w: WalletRecord)
    requires w.balance.Int? || w.balance.Undefined?
    ensures !MissingRequired(LoadedForm(w)) <==> Truthy(w.name) && Truthy(w.walletType) && w.balance.Int?
    ensures BrowserAccepts(LoadedForm(w)) <==> Truthy(w.name) && w.balance.Int? && w.balance.n >= 0
  {
    if w.balance.Int? {
      var m: nat := if w.balance.n < 0 then -w.balance.n else w.balance.n;
      NatToStringDigits(m);
      assert IntToString(w.balance.n) != "";
      ReadIntegerNumeral(w.balance.n);
      assert NumberInputText(LoadedForm(w).balance) == NumberInputText(Int(w.balance.n));
      IntegerInputValid(w.balance.n, BALANCE_INPUT);
    }
    if w.name.Int? {
      var m: nat := if w.name.n < 0 then -w.name.n else w.name.n;
      NatToStringDigits(m);
    }
  }

  /** The wallet form page: the route id, `formData` and the two loading flags. */
  class WalletFormPage {
    const id: Value
    var formData: WalletFormData
    var loading: bool
    var fetchLoading: bool

    constructor(id: Value)
      ensures this.id == id && formData == INITIAL_FORM && !loading
      ensures fetchLoading == IsEditMode(id)
    {
      this.id := id;
      formData := INITIAL_FORM;
      loading := false;
      fetchLoading := IsEditMode(id);
    }

    /**
     * `fetchWallet`, run on mount in edit mode. `response` is the stored
     * wallet, or None when the request failed, in which case the page
     * reports the error and goes back to the wallet list.
     */
    method FetchWallet(response: Option<WalletRecord>) returns (backToList: bool)
      requires IsEditMode(id)
      modifies this`formData, this`fetchLoading
      ensures !fetchLoading
      ensures backToList <==> response.None?
      ensures response.Some? ==> formData == LoadedForm(response.value)
      ensures response.None? ==> formData == old(formData)
    {
      fetchLoading := true;
      backToList := response.None?;
      if response.Some? {
        var w := response.value;
        formData := WalletFormData(
          Or(w.name, Str("")),
          Or(w.walletType, Str("")),
          BalanceText(w.balance),
          Or(w.currency, Str(DEFAULT_CURRENCY)),
          Or(w.bankName, Str("")),
          Or(w.accountNo, Str("")));
      }
      fetchLoading := false;
    }

    /** `handleInputChange` for the name, balance, bank name and account number inputs. */
    method HandleInputChange(field: WalletField, value: string)
      requires field == Name || field == Balance || field == BankName || field == AccountNo
      modifies this`formData
      ensures formData == With(old(formData), field, Str(value))
    {
      formData := With(formData, field, Str(value));
    }

    /** `handleSelectChange` for the type and currency selects: the first selected value. */
    method HandleSelectChange(field: WalletField, value: seq<string>)
      requires field == WalletType || field == Currency
      modifies this`formData
      ensures formData == With(old(formData), field, First(value))
      ensures |value| > 0 ==> FieldOf(formData, field) == Str(value[0])
    {
      formData := With(formData, field, First(value));
    }

    /**
     * Submitting the form. While the browser's check fails, `handleSubmit`
     * does not run. `balance` is `parseFloat(formData.balance)`;
     * `succeeded` is the server's answer, on which the page goes back to
     * the wallet list. Returns the request sent (None when the browser or
     * the handler's guard refuses).
     */
    method HandleSubmit(balance: Value, succeeded: bool) returns (request: Option<Request<WalletPayload>>, backToList: bool)
      modifies this`loading
      ensures request == if BrowserAccepts(formData) then SubmitRequest(id, formData, balance) else None
      ensures backToList <==> request.Some? && succeeded
      ensures loading == (if request.None? then old(loading) else false)
    {
      backToList := false;
      if !BrowserAccepts(formData) || MissingRequired(formData) {
        request := None;
        return;
      }
      loading := true;
      var body := Payload(formData, balance);
      if IsEditMode(id) {
        request := Some(Request(PUT, "wallets/" + ToString(id), Some(body)));
      } else {
        request := Some(Request(POST, "wallets", Some(body)));
      }
      backToList := succeeded;
      loading := false;
    }
  }
}
