/**
 * The pay-cycle settings page: the period preview and current-settings
 * sentences, the ordinal suffix rule, and the page state (`formData`,
 * `settings`, `loading`, `submitting`) as its handlers update it.
 * Server calls are replaced by their outcomes, passed in as parameters.
 */
module PayCycleSettings {
  import opened Wrappers
  import opened Js
  import opened UserSettings
  import opened Constraints

  /** `formData`: the cycle type and the two numeric slots as the form holds them. */
  datatype PayCycleForm = PayCycleForm(payCycleType: string, payDay: NumOrNull, cycleStartOffset: NumOrNull)

  /** The form a page starts with, and the one a reset restores. */
  const INITIAL_FORM := PayCycleForm("calendar", Null, Int(1))

  /** The settings object the server returns (`response.data`); missing fields read as undefined. */
  datatype SettingsRecord = SettingsRecord(
    payCycleType: StrOrNull, payDay: NumOrNull, cycleStartOffset: NumOrNull, updatedAt: StrOrNull)

  /** How GET user/settings ended: a body whose `data` is present or falsy, or an error with its HTTP status, if any. */
  datatype FetchOutcome = Loaded(data: Option<SettingsRecord>) | Failed(status: Option<int>)

  /** The request the submit handler issues. */
  datatype SettingsCall = CreateSettings(body: SettingsRequest) | UpdateSettings(body: SettingsRequest)

  /** The numeric fields a select can set. */
  datatype NumericField = PayDayField | OffsetField

  // ---------------------------------------------------------------------
  // Text
  // ---------------------------------------------------------------------

  /** `getDaySuffix(day)`; the remainder is JavaScript's truncating `%`. */
  function DaySuffix(day: int): string {
    if 11 <= day <= 13 then "th"
    else
      var lastDigit := Rem(day, 10);
      if lastDigit == 1 then "st"
      else if lastDigit == 2 then "nd"
      else if lastDigit == 3 then "rd"
      else "th"
  }

  /** The English ordinal suffix of a natural number: "th" after a tens digit 1, otherwise by the last digit. */
  function EnglishOrdinalSuffix(n: nat): string {
    if (n / 10) % 10 == 1 then "th"
    else if n % 10 == 1 then "st"
    else if n % 10 == 2 then "nd"
    else if n % 10 == 3 then "rd"
    else "th"
  }

  const DAY_NAMES: seq<string> := ["Sunday", "Monday", "Tuesday", "Wednesday", "Thursday", "Friday", "Saturday"]

  /** `dayNames[payDay]`, which reads as the text "undefined" outside the table. */
  function DayName(payDay: NumOrNull): string {
    if payDay.Int? && 0 <= payDay.n < 7 then DAY_NAMES[payDay.n] else "undefined"
  }

  /** The part after the anchor: nothing when the offset is `=== 0`, " + {offset} day(s)" otherwise. */
  function OffsetClause(offset: NumOrNull): string {
    if StrictEquals(offset, Int(0)) then "" else " + " + ToString(offset) + " day(s)"
  }

  /** The opening every preview sentence shares. */
  const PREVIEW_START := "Your financial period will start "

  /** The close of a monthly preview; no full stop follows it. */
  const MONTHLY := " of each month"

  /** The close of a bi-weekly preview. */
  const FORTNIGHTLY := " every 2 weeks"

  /** `getPreviewText()` on the form. */
  function PreviewText(f: PayCycleForm): string {
    if Lookup(f.payCycleType).None? then ""
    else if f.payCycleType == "last_weekday" then
      PREVIEW_START + "on the last weekday" + MONTHLY
    else if f.payCycleType == "custom_day" && Truthy(f.payDay) then
      PREVIEW_START + "on the " + ToString(f.payDay) + DaySuffix(f.payDay.n)
        + OffsetClause(f.cycleStartOffset) + MONTHLY
    else if f.payCycleType == "bi_weekly" && f.payDay != Null then
      PREVIEW_START + "on " + DayName(f.payDay)
        + OffsetClause(f.cycleStartOffset) + FORTNIGHTLY
    else ""
  }

  /** `PeriodPreview`: nothing is rendered without settings or for 'calendar'; otherwise the card with its text. */
  function PeriodPreview(settings: Option<PayCycleForm>): Option<string> {
    if settings.None? || settings.value.payCycleType == "calendar" then None
    else Some(PreviewText(settings.value))
  }

  /** `getCurrentSettingsText()` on the settings record as the server sent it. */
  function CurrentSettingsText(r: SettingsRecord): string {
    if r.payCycleType == Str("calendar") then "Calendar months"
    else if r.payCycleType == Str("last_weekday") then "Last weekday of each month"
    else if r.payCycleType == Str("custom_day") && Truthy(r.payDay) then
      "Custom day: " + ToString(r.payDay) + DaySuffix(r.payDay.n)
        + OffsetClause(r.cycleStartOffset) + " of each month"
    else if r.payCycleType == Str("bi_weekly") && r.payDay != Null then
      "Bi-weekly: Every 2 weeks starting " + DayName(r.payDay) + OffsetClause(r.cycleStartOffset)
    else "Unknown"
  }

  // ---------------------------------------------------------------------
  // Form normalisation
  // ---------------------------------------------------------------------

  /** The pay day a type change installs: the range minimum (`?? 0`) when a pay day is required, null otherwise. */
  function PayDayFor(cycleType: string): NumOrNull {
    var o := Lookup(cycleType);
    if o.Some? && o.value.requiresPayDay then
      Int(if o.value.payDayRange.Some? then o.value.payDayRange.value.min else 0)
    else Null
  }

  /** `handleTypeChange(value)` on the previous form. */
  function TypeChanged(f: PayCycleForm, value: string): PayCycleForm {
    f.(payCycleType := value, payDay := PayDayFor(value))
  }

  /**
   * The constraints of the pay-day number input, which is rendered for a
   * selected type that requires a pay day and offers no list of choices:
   * required, with the type's range as `min` and `max`.
   */
  function PayDayInput(o: PayCycleOption): (c: NumberConstraint)
    ensures c.required && c.stepHundredths == 100
    ensures o.payDayRange.Some? ==> c.min == Some(o.payDayRange.value.min) && c.max == Some(o.payDayRange.value.max)
  {
    NumberConstraint(true,
      if o.payDayRange.Some? then Some(o.payDayRange.value.min) else None,
      if o.payDayRange.Some? then Some(o.payDayRange.value.max) else None,
      100)
  }

  /**
   * The browser's check before `handleSubmit` runs. Only the pay-day number
   * input carries constraints; it shows `formData.pay_day || ''`.
   */
  predicate BrowserAccepts(f: PayCycleForm) {
    var o := Lookup(f.payCycleType);
    o.Some? && o.value.requiresPayDay && o.value.payDayOptions.None? ==>
      NumberValid(NumberInputText(Or(f.payDay, Str(""))), PayDayInput(o.value))
  }

  /** The form `fetchSettings` derives from a loaded record, with the source's `||` defaults. */
  function FormFromRecord(r: SettingsRecord): PayCycleForm {
    PayCycleForm(
      if Truthy(r.payCycleType) then r.payCycleType.s else "calendar",
      if Truthy(r.payDay) then r.payDay else Null,
      if Truthy(r.cycleStartOffset) then r.cycleStartOffset else Int(1))
  }

  /** `parseInt(x)`, which yields an integer or NaN and so fits a numeric slot. */
  function ParseSlot(v: Value): NumOrNull {
    var p := ParseIntValue(v);
    if p.Int? then p else NaN
  }

  /** The `submitData` of `handleSubmit`. */
  function SubmitRequest(f: PayCycleForm): SettingsRequest {
    SettingsRequest(
      f.payCycleType,
      if RequiresPayDay(f.payCycleType) then f.payDay else Null,
      ParseSlot(f.cycleStartOffset))
  }

  /** Update when settings already exist, create otherwise. */
  function SubmitCall(settingsExist: bool, f: PayCycleForm): SettingsCall {
    if settingsExist then UpdateSettings(SubmitRequest(f)) else CreateSettings(SubmitRequest(f))
  }

  /** A fetch failure is reported unless the server answered 404. */
  predicate ReportsFetchError(outcome: FetchOutcome) {
    outcome.Failed? && outcome.status != Some(404)
  }

  /**
   * The loader with the `??` defaults the page evidently intends: only null or
   * a missing field is replaced, so a stored 0 (Sunday, or "same day as
   * payday") survives.
   */
  function FormFromRecordNullish(r: SettingsRecord): PayCycleForm {
    PayCycleForm(
      if Truthy(r.payCycleType) then r.payCycleType.s else "calendar",
      if r.payDay.Null? || r.payDay.Undefined? then Null else r.payDay,
      if r.cycleStartOffset.Null? || r.cycleStartOffset.Undefined? then Int(1) else r.cycleStartOffset)
  }

  /** The record the server stores for a saved request. */
  function Stored(q: SettingsRequest): SettingsRecord {
    SettingsRecord(Str(q.payCycleType), q.payDay, q.cycleStartOffset, Null)
  }

  /** A request for a known type that the server can store as JSON: pay day null unless required, numbers integers. */
  predicate Normalised(q: SettingsRequest) {
    && q.payCycleType in PAY_CYCLE_TYPES
    && (q.payDay.Null? || q.payDay.Int?)
    && (RequiresPayDay(q.payCycleType) || q.payDay == Null)
    && q.cycleStartOffset.Int?
  }

  // ---------------------------------------------------------------------
  // Properties of the text
  // ---------------------------------------------------------------------

  /** For the days of a month the suffix rule is the English ordinal rule. */
  lemma DaySuffixIsEnglish(d: int)
    requires 1 <= d <= 31
    ensures DaySuffix(d) == EnglishOrdinalSuffix(d)
  {
  }

  lemma DaySuffixExamples()
    ensures DaySuffix(1) == "st" && DaySuffix(2) == "nd" && DaySuffix(3) == "rd" && DaySuffix(4) == "th"
    ensures DaySuffix(11) == "th" && DaySuffix(12) == "th" && DaySuffix(13) == "th"
    ensures DaySuffix(21) == "st" && DaySuffix(22) == "nd" && DaySuffix(23) == "rd" && DaySuffix(31) == "st"
  {
  }

  /** With the truncating remainder, a negative day always gets "th" (a floored remainder would give -9 "st"). */
  lemma DaySuffixOfNegative(d: int)
    requires d < 0
    ensures DaySuffix(d) == "th"
  {
  }

  /** The offset clause is empty exactly when the offset is the number 0. */
  lemma OffsetClauseEmptyIffZero(offset: NumOrNull)
    ensures OffsetClause(offset) == "" <==> offset == Int(0)
  {
    if offset != Int(0) {
      assert OffsetClause(offset)[0] == ' ';
    }
  }

  /** The page's weekday table agrees with the registry's bi-weekly choices. */
  lemma DayNamesMatchRegistry(d: int)
    requires 0 <= d <= 6
    ensures DayName(Int(d)) == WEEKDAYS[d].caption
  {
  }

  /** Without settings, or for 'calendar', no preview is rendered; otherwise the preview is rendered. */
  lemma PreviewRenderedIffNotCalendar(settings: Option<PayCycleForm>)
    ensures PeriodPreview(settings).None? <==> settings.None? || settings.value.payCycleType == "calendar"
  {
  }

  /** A custom day or bi-weekly form without a usable pay day previews the empty text. */
  lemma PreviewEmptyWithoutPayDay(f: PayCycleForm)
    requires || (f.payCycleType == "custom_day" && (f.payDay == Null || f.payDay == Int(0)))
             || (f.payCycleType == "bi_weekly" && f.payDay == Null)
             || f.payCycleType !in PAY_CYCLE_TYPES
    ensures PreviewText(f) == ""
  {
    LookupKnown(f.payCycleType);
  }

  /**
   * Every form whose values the registry admits (a known type; a required
   * pay day inside the type's range; an integer offset) is described: the
   * preview is absent only for 'calendar', and the sentence reads the English
   * ordinal for a custom day and the registry's weekday name for bi-weekly.
   */
  lemma {:induction false} AdmittedFormIsDescribed(f: PayCycleForm)
    requires f.payCycleType in PAY_CYCLE_TYPES && f.cycleStartOffset.Int?
    requires f.payCycleType == "custom_day" ==> f.payDay.Int? && 1 <= f.payDay.n <= 31
    requires f.payCycleType == "bi_weekly" ==> f.payDay.Int? && 0 <= f.payDay.n <= 6
    ensures PeriodPreview(Some(f)).None? <==> f.payCycleType == "calendar"
    ensures f.payCycleType != "calendar" ==> PreviewText(f) != ""
    ensures f.payCycleType == "last_weekday" ==>
      PreviewText(f) == PREVIEW_START + "on the last weekday" + MONTHLY
    ensures f.payCycleType == "custom_day" ==>
      PreviewText(f) == PREVIEW_START + "on the " + IntToString(f.payDay.n)
        + EnglishOrdinalSuffix(f.payDay.n) + OffsetClause(f.cycleStartOffset) + MONTHLY
    ensures f.payCycleType == "bi_weekly" ==>
      PreviewText(f) == PREVIEW_START + "on " + WEEKDAYS[f.payDay.n].caption
        + OffsetClause(f.cycleStartOffset) + FORTNIGHTLY
  {
    LookupKnown(f.payCycleType);
    if f.payCycleType == "custom_day" {
      DaySuffixIsEnglish(f.payDay.n);
    }
    if f.payCycleType == "bi_weekly" {
      DayNamesMatchRegistry(f.payDay.n);
    }
  }

  /** The preview of a custom day with a pay day set. */
  lemma CustomDayPreview(f: PayCycleForm)
    requires f.payCycleType == "custom_day" && f.payDay.Int? && f.payDay.n != 0
    ensures PreviewText(f) == PREVIEW_START + "on the " + ToString(f.payDay)
      + DaySuffix(f.payDay.n) + OffsetClause(f.cycleStartOffset) + MONTHLY
  {
    LookupEntries();
    assert Lookup(f.payCycleType).Some? && f.payCycleType != "last_weekday" && Truthy(f.payDay);
  }

  /** The preview of a bi-weekly cycle with a pay day set. */
  lemma BiWeeklyPreview(f: PayCycleForm)
    requires f.payCycleType == "bi_weekly" && f.payDay != Null
    ensures PreviewText(f) == PREVIEW_START + "on " + DayName(f.payDay)
      + OffsetClause(f.cycleStartOffset) + FORTNIGHTLY
  {
    LookupEntries();
    assert Lookup(f.payCycleType).Some? && f.payCycleType != "last_weekday" && f.payCycleType != "custom_day";
  }

  /** The 25th without offset: no offset clause and no trailing full stop. */
  lemma PreviewExampleCustomDay()
    ensures PreviewText(PayCycleForm("custom_day", Int(25), Int(0)))
      == PREVIEW_START + "on the 25th" + MONTHLY
  {
    var f := PayCycleForm("custom_day", Int(25), Int(0));
    calc {
      PreviewText(f);
    == { CustomDayPreview(f); }
      PREVIEW_START + "on the " + ToString(Int(25)) + DaySuffix(25) + OffsetClause(Int(0)) + MONTHLY;
    == { assert NatToString(2) == "2"; assert ToString(Int(25)) == "25";
         assert DaySuffix(25) == "th"; assert OffsetClause(Int(0)) == ""; }
      PREVIEW_START + "on the " + "25" + "th" + "" + MONTHLY;
    == { assert "on the " + "25" + "th" + "" == "on the 25th"; }
      PREVIEW_START + "on the 25th" + MONTHLY;
    }
  }

  /** The 1st with two days of offset. */
  lemma PreviewExampleOffset(f: PayCycleForm)
    requires f == PayCycleForm("custom_day", Int(1), Int(2))
    ensures PreviewText(f) == PREVIEW_START + "on the 1st + 2 day(s)" + MONTHLY
  {
    calc {
      PreviewText(f);
    == { CustomDayPreview(f); }
      PREVIEW_START + "on the " + ToString(Int(1)) + DaySuffix(1) + OffsetClause(Int(2)) + MONTHLY;
    == { assert ToString(Int(1)) == "1"; assert DaySuffix(1) == "st";
         assert OffsetClause(Int(2)) == " + 2 day(s)"; }
      PREVIEW_START + "on the " + "1" + "st" + " + 2 day(s)" + MONTHLY;
    == { assert "on the " + "1" + "st" + " + 2 day(s)" == "on the 1st + 2 day(s)"; }
      PREVIEW_START + "on the 1st + 2 day(s)" + MONTHLY;
    }
  }

  /** Bi-weekly on Friday (5 in the Sunday-first table) with one day of offset. */
  lemma PreviewExampleBiWeekly(f: PayCycleForm)
    requires f == PayCycleForm("bi_weekly", Int(5), Int(1))
    ensures PreviewText(f) == PREVIEW_START + "on Friday + 1 day(s)" + FORTNIGHTLY
  {
    calc {
      PreviewText(f);
    == { BiWeeklyPreview(f); }
      PREVIEW_START + "on " + DayName(Int(5)) + OffsetClause(Int(1)) + FORTNIGHTLY;
    == { assert DayName(Int(5)) == "Friday"; assert OffsetClause(Int(1)) == " + 1 day(s)"; }
      PREVIEW_START + "on " + "Friday" + " + 1 day(s)" + FORTNIGHTLY;
    == { assert "on " + "Friday" + " + 1 day(s)" == "on Friday + 1 day(s)"; }
      PREVIEW_START + "on Friday + 1 day(s)" + FORTNIGHTLY;
    }
  }

  /**
   * The current-settings summary names every type the registry knows, with
   * the English ordinal of a custom day and the weekday of a bi-weekly
   * cycle; an unknown type, or a custom day or bi-weekly cycle without its
   * pay day, reads "Unknown".
   */
  lemma CurrentSettingsTextCases(r: SettingsRecord)
    ensures r.payCycleType == Str("calendar") ==> CurrentSettingsText(r) == "Calendar months"
    ensures r.payCycleType == Str("last_weekday") ==> CurrentSettingsText(r) == "Last weekday of each month"
    ensures !r.payCycleType.Str? || r.payCycleType.s !in PAY_CYCLE_TYPES ==> CurrentSettingsText(r) == "Unknown"
    ensures r.payCycleType == Str("custom_day") && r.payDay.Int? && 1 <= r.payDay.n <= 31 ==>
      CurrentSettingsText(r) == "Custom day: " + IntToString(r.payDay.n) + EnglishOrdinalSuffix(r.payDay.n)
        + OffsetClause(r.cycleStartOffset) + MONTHLY
    ensures r.payCycleType == Str("custom_day") && !Truthy(r.payDay) ==> CurrentSettingsText(r) == "Unknown"
    ensures r.payCycleType == Str("bi_weekly") && r.payDay.Int? && 0 <= r.payDay.n <= 6 ==>
      CurrentSettingsText(r) == "Bi-weekly: Every 2 weeks starting " + WEEKDAYS[r.payDay.n].caption
        + OffsetClause(r.cycleStartOffset)
    ensures r.payCycleType == Str("bi_weekly") && r.payDay == Null ==> CurrentSettingsText(r) == "Unknown"
  {
    if r.payCycleType == Str("custom_day") && r.payDay.Int? && 1 <= r.payDay.n <= 31 {
      DaySuffixIsEnglish(r.payDay.n);
    }
  }

  // ---------------------------------------------------------------------
  // Properties of the form normalisation
  // ---------------------------------------------------------------------

  /** A type change installs the type, the range minimum as pay day (custom_day 1, bi_weekly 0) or null, and keeps the offset. */
  lemma {:induction false} TypeChangeSetsPayDay(f: PayCycleForm, value: string)
    ensures TypeChanged(f, value).payCycleType == value
    ensures TypeChanged(f, value).cycleStartOffset == f.cycleStartOffset
    ensures value == "custom_day" ==> TypeChanged(f, value).payDay == Int(1)
    ensures value == "bi_weekly" ==> TypeChanged(f, value).payDay == Int(0)
    ensures value != "custom_day" && value != "bi_weekly" ==> TypeChanged(f, value).payDay == Null
  {
    RequiresPayDayExactly(value);
    LookupEntries();
  }

  /** The submitted pay day is null for every type that does not require one and the form's otherwise; the offset is parsed. */
  lemma {:induction false} SubmitNormalises(f: PayCycleForm)
    ensures RequiresPayDay(f.payCycleType) ==> SubmitRequest(f).payDay == f.payDay
    ensures !RequiresPayDay(f.payCycleType) ==> SubmitRequest(f).payDay == Null
    ensures SubmitRequest(f).payCycleType == f.payCycleType
    ensures f.cycleStartOffset.Int? ==> SubmitRequest(f).cycleStartOffset == f.cycleStartOffset
    ensures !f.cycleStartOffset.Int? ==> SubmitRequest(f).cycleStartOffset == NaN
  {
    if f.cycleStartOffset.Int? {
      ParseIntValueOfInt(f.cycleStartOffset.n);
    } else {
      ParseIntValueOfNonNumber(f.cycleStartOffset);
    }
  }

  /** Submitting updates existing settings and creates missing ones, with the same body either way. */
  lemma SubmitRouting(settingsExist: bool, f: PayCycleForm)
    ensures SubmitCall(settingsExist, f).UpdateSettings? <==> settingsExist
    ensures SubmitCall(settingsExist, f).body == SubmitRequest(f)
  {
  }

  /** After choosing a known type, the submitted pay day is null or inside that type's range. */
  lemma {:induction false} TypeChangeThenSubmitInRange(f: PayCycleForm, value: string)
    requires value in PAY_CYCLE_TYPES
    ensures var q := SubmitRequest(TypeChanged(f, value));
      && (RequiresPayDay(value) ==>
            && q.payDay.Int?
            && Lookup(value).value.payDayRange.Some?
            && Lookup(value).value.payDayRange.value.min <= q.payDay.n
            && q.payDay.n <= Lookup(value).value.payDayRange.value.max)
      && (!RequiresPayDay(value) ==> q.payDay == Null)
  {
    var g := TypeChanged(f, value);
    TypeChangeSetsPayDay(f, value);
    SubmitNormalises(g);
    RequiresPayDayExactly(value);
    LookupEntries();
    PayDayRanges();
  }

  /** Loading applies the `||` defaults: a missing type becomes 'calendar', a stored pay day 0 becomes null, a stored offset 0 becomes 1. */
  lemma LoadDefaults(r: SettingsRecord)
    ensures !Truthy(r.payCycleType) ==> FormFromRecord(r).payCycleType == "calendar"
    ensures r.payCycleType.Str? && r.payCycleType.s != "" ==> FormFromRecord(r).payCycleType == r.payCycleType.s
    ensures r.payDay == Int(0) || r.payDay == Null || r.payDay == Undefined ==> FormFromRecord(r).payDay == Null
    ensures r.payDay.Int? && r.payDay.n != 0 ==> FormFromRecord(r).payDay == r.payDay
    ensures r.cycleStartOffset == Int(0) || r.cycleStartOffset == Null || r.cycleStartOffset == Undefined
      ==> FormFromRecord(r).cycleStartOffset == Int(1)
    ensures r.cycleStartOffset.Int? && r.cycleStartOffset.n != 0 ==> FormFromRecord(r).cycleStartOffset == r.cycleStartOffset
  {
  }

  /**
   * As written, loading then saving rewrites stored settings: a bi-weekly
   * cycle paid on Sunday (0) with offset "same day" (0) comes back with no pay
   * day and offset 1.
   */
  lemma ReloadLosesZeroes()
    ensures var q := SettingsRequest("bi_weekly", Int(0), Int(0));
      Normalised(q) && SubmitRequest(FormFromRecord(Stored(q))) == SettingsRequest("bi_weekly", Null, Int(1))
  {
    var q := SettingsRequest("bi_weekly", Int(0), Int(0));
    RequiresPayDayExactly("bi_weekly");
    var f := FormFromRecord(Stored(q));
    assert f == PayCycleForm("bi_weekly", Null, Int(1));
    SubmitNormalises(f);
  }

  /** With the `??` defaults, loading what was saved and saving it again sends the same request. */
  lemma {:induction false} NullishReloadRoundTrip(q: SettingsRequest)
    requires Normalised(q)
    ensures SubmitRequest(FormFromRecordNullish(Stored(q))) == q
  {
    var f := FormFromRecordNullish(Stored(q));
    LookupKnown(q.payCycleType);
    assert q.payCycleType != "";
    assert f.payCycleType == q.payCycleType;
    SubmitNormalises(f);
  }

  /**
   * Only a custom-day form holds the submission back, and it does so
   * exactly while its pay day is not a number from 1 to 31.
   */
  lemma {:induction false} BrowserAcceptsExactly(f: PayCycleForm)
    ensures BrowserAccepts(f) <==> f.payCycleType != "custom_day" || (f.payDay.Int? && 1 <= f.payDay.n <= 31)
  {
    if f.payCycleType == "custom_day" {
      LookupEntries();
      assert PayDayInput(PAY_CYCLE_OPTIONS[2]) == DAY_OF_MONTH_INPUT;
      DayOfMonthInputValid(f.payDay);
    } else if f.payCycleType == "bi_weekly" {
      LookupEntries();
    } else {
      RequiresPayDayExactly(f.payCycleType);
    }
  }

  /** The custom-day input: required, from 1 to 31. */
  const DAY_OF_MONTH_INPUT := NumberConstraint(true, Some(1), Some(31), 100)

  lemma DayOfMonthInputValid(payDay: NumOrNull)
    ensures NumberValid(NumberInputText(Or(payDay, Str(""))), DAY_OF_MONTH_INPUT) <==> payDay.Int? && 1 <= payDay.n <= 31
  {
    IntegerInputValid(if payDay.Int? then payDay.n else 0, DAY_OF_MONTH_INPUT);
  }

  // ---------------------------------------------------------------------
  // Page state
  // ---------------------------------------------------------------------

  class PayCycleSettingsPage {
    var loading: bool
    var submitting: bool
    var settings: Option<SettingsRecord>
    var formData: PayCycleForm

    constructor ()
      ensures loading && !submitting && settings == None && formData == INITIAL_FORM
    {
      loading := true;
      submitting := false;
      settings := None;
      formData := INITIAL_FORM;
    }

    /** `fetchSettings()`, given how the GET ended. */
    method FetchSettings(outcome: FetchOutcome) returns (reportedError: bool)
      modifies this
      ensures !loading && submitting == old(submitting)
      ensures outcome.Loaded? && outcome.data.Some? ==>
        settings == outcome.data && formData == FormFromRecord(outcome.data.value)
      ensures !(outcome.Loaded? && outcome.data.Some?) ==>
        settings == old(settings) && formData == old(formData)
      ensures reportedError == ReportsFetchError(outcome)
    {
      reportedError := false;
      match outcome {
        case Loaded(data) =>
          if data.Some? {
            settings := data;
            formData := FormFromRecord(data.value);
          }
        case Failed(status) =>
          reportedError := status != Some(404);
      }
      loading := false;
    }

    /**
     * Submitting the form. While the browser's check fails, `handleSubmit`
     * does not run and nothing changes; otherwise it sends the request and,
     * on success, re-fetches, given both outcomes.
     */
    method HandleSubmit(saved: bool, refetch: FetchOutcome) returns (call: Option<SettingsCall>)
      requires !loading
      modifies this
      ensures call == if BrowserAccepts(old(formData)) then Some(SubmitCall(old(settings).Some?, old(formData))) else None
      ensures !loading
      ensures submitting == (old(submitting) && call.None?)
      ensures call.Some? && saved && refetch.Loaded? && refetch.data.Some? ==>
        settings == refetch.data && formData == FormFromRecord(refetch.data.value)
      ensures !(call.Some? && saved && refetch.Loaded? && refetch.data.Some?) ==>
        settings == old(settings) && formData == old(formData)
    {
      if !BrowserAccepts(formData) {
        call := None;
        return;
      }
      submitting := true;
      call := Some(SubmitCall(settings.Some?, formData));
      if saved {
        var _ := FetchSettings(refetch);
      }
      submitting := false;
    }

    /** `handleReset`: returns whether the DELETE was sent, given the confirmation and its outcome. */
    method HandleReset(confirmed: bool, succeeded: bool) returns (deleteSent: bool)
      modifies this
      ensures deleteSent <==> old(settings).Some? && confirmed
      ensures deleteSent && succeeded ==> settings == None && formData == INITIAL_FORM
      ensures !(deleteSent && succeeded) ==> settings == old(settings) && formData == old(formData)
      ensures loading == old(loading)
      ensures submitting == (old(submitting) && !deleteSent)
    {
      deleteSent := false;
      if settings.None? || !confirmed {
        return;
      }
      deleteSent := true;
      submitting := true;
      if succeeded {
        settings := None;
        formData := PayCycleForm("calendar", Null, Int(1));
      }
      submitting := false;
    }

    /** `handleTypeChange(value)`. */
    method HandleTypeChange(value: string)
      modifies this`formData
      ensures formData == TypeChanged(old(formData), value)
    {
      formData := formData.(payCycleType := value, payDay := PayDayFor(value));
    }

    /** `handleInputChange` from the pay-day number input: '' clears it, anything else is parsed. */
    method HandlePayDayInput(value: string)
      modifies this`formData
      ensures formData.payCycleType == old(formData.payCycleType)
      ensures formData.cycleStartOffset == old(formData.cycleStartOffset)
      ensures formData.payDay == if value == "" then Null else ParseSlot(Str(value))
    {
      var v := if value == "" then Null else ParseSlot(Str(value));
      formData := formData.(payDay := v);
    }

    /** `handleSelectChange(field, val)`: `parseInt(val[0])` into the chosen slot. */
    method HandleSelectChange(field: NumericField, val: seq<string>)
      modifies this`formData
      ensures formData.payCycleType == old(formData.payCycleType)
      ensures field == PayDayField ==>
        formData.payDay == ParseSlot(First(val)) && formData.cycleStartOffset == old(formData.cycleStartOffset)
      ensures field == OffsetField ==>
        formData.cycleStartOffset == ParseSlot(First(val)) && formData.payDay == old(formData.payDay)
    {
      var v := ParseSlot(First(val));
      if field == PayDayField {
        formData := formData.(payDay := v);
      } else {
        formData := formData.(cycleStartOffset := v);
      }
    }
  }
}
