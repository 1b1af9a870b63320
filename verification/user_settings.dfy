/**
 * The static pay-cycle registry: the four cycle types, the option record of
 * each (whether it needs a pay day, its range, the bi-weekly weekday choices),
 * the cycle-start offsets and the shape of create/update requests.
 */
module UserSettings {
  import opened Wrappers
  import opened Js

  const PAY_CYCLE_TYPES: seq<string> := ["calendar", "last_weekday", "custom_day", "bi_weekly"]

  datatype Range = Range(min: int, max: int)

  /** A `{ value, label }` choice of a select (`label` is a Dafny keyword, hence `caption`). */
  datatype Choice = Choice(value: int, caption: string)

  /** The values a list of choices offers. */
  function ChoiceValues(cs: seq<Choice>): set<int> {
    set c | c in cs :: c.value
  }

  /** One entry of the cycle-type registry; absent optional fields are `None`. */
  datatype PayCycleOption = PayCycleOption(
    value: string,
    caption: string,
    description: string,
    requiresPayDay: bool,
    payDayRange: Option<Range>,
    payDayLabel: Option<string>,
    payDayOptions: Option<seq<Choice>>)

  const WEEKDAYS: seq<Choice> := [
    Choice(0, "Sunday"), Choice(1, "Monday"), Choice(2, "Tuesday"), Choice(3, "Wednesday"),
    Choice(4, "Thursday"), Choice(5, "Friday"), Choice(6, "Saturday")]

  const PAY_CYCLE_OPTIONS: seq<PayCycleOption> := [
    PayCycleOption("calendar", "Calendar Month",
      "Standard calendar months (Jan 1-31, Feb 1-28, etc.)", false, None, None, None),
    PayCycleOption("last_weekday", "Last Weekday of Month",
      "Last working day (Mon-Fri) of each month", false, None, None, None),
    PayCycleOption("custom_day", "Specific Day of Month",
      "Set a specific day (e.g., 25th of every month)", true,
      Some(Range(1, 31)), Some("Pay Day (1-31)"), None),
    PayCycleOption("bi_weekly", "Bi-Weekly",
      "Every 2 weeks on a specific day", true,
      Some(Range(0, 6)), Some("Pay Day (Day of Week)"), Some(WEEKDAYS))]

  /** A `{ value, label, description }` choice of the offset select. */
  datatype OffsetOption = OffsetOption(value: int, caption: string, description: string)

  const OFFSET_OPTIONS: seq<OffsetOption> := [
    OffsetOption(0, "Same day as payday", "Period starts on payday"),
    OffsetOption(1, "1 day after payday", "Period starts next day (Recommended)"),
    OffsetOption(2, "2 days after payday", "Period starts 2 days after")]

  /** The body of a create or an update request. */
  datatype SettingsRequest = SettingsRequest(payCycleType: string, payDay: NumOrNull, cycleStartOffset: NumOrNull)

  /** The request as the JSON object sent on the wire. */
  function RequestObject(r: SettingsRequest): Object {
    map["pay_cycle_type" := Str(r.payCycleType), "pay_day" := r.payDay,
        "cycle_start_offset" := r.cycleStartOffset]
  }

  /** `opts.find(opt => opt.value === v)`: the first option whose value is `v`. */
  function Find(opts: seq<PayCycleOption>, v: string): (r: Option<PayCycleOption>)
    ensures r.Some? <==> exists i :: 0 <= i < |opts| && opts[i].value == v
    ensures r.Some? ==> r.value.value == v
    ensures r.Some? ==> exists i :: 0 <= i < |opts| && opts[i] == r.value
                          && forall j :: 0 <= j < i ==> opts[j].value != v
  {
    if opts == [] then None
    else if opts[0].value == v then Some(opts[0])
    else
      var r := Find(opts[1..], v);
      assert forall i :: 1 <= i < |opts| ==> opts[i] == opts[1..][i - 1];
      r
  }

  /** The registry entry of a cycle type, looked up as the page does. */
  function Lookup(v: string): Option<PayCycleOption> {
    Find(PAY_CYCLE_OPTIONS, v)
  }

  /** Whether a type string needs a pay day: `selectedType?.requiresPayDay`, false for an unknown type. */
  predicate RequiresPayDay(v: string) {
    var o := Lookup(v);
    o.Some? && o.value.requiresPayDay
  }

  // ---------------------------------------------------------------------
  // Properties of the registry
  // ---------------------------------------------------------------------

  /** The registry lists one option per cycle type, in the order of PAY_CYCLE_TYPES, with distinct values. */
  lemma OptionsFollowTypes()
    ensures |PAY_CYCLE_OPTIONS| == |PAY_CYCLE_TYPES| == 4
    ensures forall i :: 0 <= i < 4 ==> PAY_CYCLE_OPTIONS[i].value == PAY_CYCLE_TYPES[i]
    ensures forall i, j :: 0 <= i < j < 4 ==> PAY_CYCLE_TYPES[i] != PAY_CYCLE_TYPES[j]
  {
  }

  /** A type string is known exactly when it is one of the four types, and then its own entry is found. */
  lemma LookupKnown(v: string)
    ensures Lookup(v).Some? <==> v in PAY_CYCLE_TYPES
    ensures Lookup(v).Some? ==> Lookup(v).value.value == v
  {
    OptionsFollowTypes();
    if v in PAY_CYCLE_TYPES {
      var i :| 0 <= i < 4 && PAY_CYCLE_TYPES[i] == v;
      assert PAY_CYCLE_OPTIONS[i].value == v;
    }
  }

  /** Each of the four types finds its own entry of the registry. */
  lemma LookupEntries()
    ensures Lookup("calendar") == Some(PAY_CYCLE_OPTIONS[0])
    ensures Lookup("last_weekday") == Some(PAY_CYCLE_OPTIONS[1])
    ensures Lookup("custom_day") == Some(PAY_CYCLE_OPTIONS[2])
    ensures Lookup("bi_weekly") == Some(PAY_CYCLE_OPTIONS[3])
  {
    assert PAY_CYCLE_OPTIONS[0].value == "calendar";
    assert PAY_CYCLE_OPTIONS[1..][0].value == "last_weekday";
    assert PAY_CYCLE_OPTIONS[2..][0].value == "custom_day";
    assert PAY_CYCLE_OPTIONS[3..][0].value == "bi_weekly";
  }

  /** Exactly custom_day and bi_weekly require a pay day; an unknown type requires none. */
  lemma RequiresPayDayExactly(v: string)
    ensures RequiresPayDay(v) <==> v == "custom_day" || v == "bi_weekly"
  {
    if v == "calendar" || v == "last_weekday" || v == "custom_day" || v == "bi_weekly" {
      LookupEntries();
    } else {
      LookupKnown(v);
      assert v !in PAY_CYCLE_TYPES;
    }
  }

  /** Every option that requires a pay day has a range: 1..31 for custom_day, 0..6 for bi_weekly. */
  lemma PayDayRanges()
    ensures forall o :: o in PAY_CYCLE_OPTIONS && o.requiresPayDay ==> o.payDayRange.Some?
    ensures PAY_CYCLE_OPTIONS[2].payDayRange == Some(Range(1, 31))
    ensures PAY_CYCLE_OPTIONS[3].payDayRange == Some(Range(0, 6))
  {
  }

  /** The bi-weekly choices are the seven weekdays, Sunday first, entry i having value i, covering exactly its range. */
  lemma BiWeeklyChoices()
    ensures PAY_CYCLE_OPTIONS[3].payDayOptions == Some(WEEKDAYS)
    ensures |WEEKDAYS| == 7 && WEEKDAYS[0].caption == "Sunday"
    ensures forall i :: 0 <= i < 7 ==> WEEKDAYS[i].value == i
    ensures forall d :: d in ChoiceValues(WEEKDAYS) <==> 0 <= d <= 6
  {
    var values := ChoiceValues(WEEKDAYS);
    forall d: int | 0 <= d <= 6 ensures d in values {
      assert WEEKDAYS[d] in WEEKDAYS;
    }
  }

  /** The offsets on offer are 0, 1 and 2, in that order. */
  lemma OffsetValues()
    ensures |OFFSET_OPTIONS| == 3
    ensures forall i :: 0 <= i < 3 ==> OFFSET_OPTIONS[i].value == i
  {
  }

  /** A create or update request carries exactly the three settings fields. */
  lemma RequestFields(r: SettingsRequest)
    ensures RequestObject(r).Keys == {"pay_cycle_type", "pay_day", "cycle_start_offset"}
    ensures Get(RequestObject(r), "pay_day") == r.payDay
  {
  }
}
