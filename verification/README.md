# Money manager client: verified model of its page logic

This project models the deterministic rules inside the pages of a React
money-manager client, and proves properties about them. The client talks to
a REST backend for budgets, transactions, wallets, users and pay-cycle
settings. The modelled rules are:

- the pay-cycle registry and the pay-cycle settings page: the day-suffix
  rule, the preview and summary sentences, the form changes on a type change,
  on submit, on load and on reset;
- the three paginated list pages (budgets, transactions, users):
  - sort toggle, clear-filters, and "a filter change goes back to page 1";
  - the query parameters, kept as an ordered list of key/value pairs;
  - the sliding five-button page window and the "Showing x to y" range;
- the three forms (budget, transaction, wallet):
  - the browser's constraint validation (`required`, `min`, `max`, `step`),
    which keeps a form's submit handler from running while an input breaks
    a constraint; the pay-cycle form has the same check on its pay day;
  - required-field guards and payload building;
  - `parseInt` with `||` defaults;
  - create versus edit routing;
  - "only the named field changes" updates;
- the budget alerts page: severity colours, unread count, mark-all targets and
  the query suffix;
- the hide/show toggle for amounts;
- the shared request configuration: header merging, the bearer token, and the
  401 logout decision.

Each source file is one Dafny module. Three shared modules support them:

- `Js` models JavaScript values: truthiness, `||`, `===`, `String()`, and a
  concrete `parseInt` that skips leading whitespace, reads a sign and handles
  the `0x` prefix.
- `Listing` holds the pieces the three list pages share. The page-window code
  appears three times in the source and is modelled once, in `PageWindow`.
- `Http` names the request verbs.
- `Constraints` models what a number, text or date input shows for the
  value React gives it, and the browser's check of `required`, `min`, `max`
  and `step` on what it shows.

Stateful page components are classes. Their `useState` slots are fields, and
their handlers are methods with `modifies` clauses. Server answers and
confirmation dialogs are passed to these methods as parameters. Pure helpers
are functions, with lemmas that relate them to one another. The preview
sentences of the pay-cycle page end without a full stop, as the page builds
them.

## Model

| member | source | states |
|---|---|---|
| Js.ParseInt | src/pages/budget/BudgetForm.jsx:90 | `parseInt` yields an integer or NaN, never anything else |
| Js.ParseIntOfIntToString | src/pages/budget/BudgetForm.jsx:109-111 | `parseInt(String(n)) === n` for every integer n (the round trip the payload normalisation relies on) |
| Js.ParseIntValueOfInt | src/pages/budget/BudgetForm.jsx:109-111 | parsing a number again gives the same number |
| Js.ParseIntValueOfNonNumber | src/pages/budget/BudgetForm.jsx:111 | `parseInt` of null, undefined or NaN is NaN |
| Js.ParseIntValueIdempotent | src/pages/budget/BudgetForm.jsx:111 | `parseInt` is integer-or-NaN and applying it twice changes nothing |
| Js.ParseIntOrDefault | src/pages/budget/BudgetForm.jsx:109-110 | `parseInt(x) \|\| d` is the parsed integer unless it is 0 or NaN, and then `d` |
| Js.SplitFirst | src/pages/budget/BudgetForm.jsx:49 | `s.split(sep)[0]` is a prefix of `s` without `sep`, ending at the first `sep` |
| Js.Rem | src/pages/settings/PayCycleSettings.jsx:78 | the truncating `%`: the remainder takes the dividend's sign and is smaller than the divisor |
| Constraints.ReadIntegerNumeral | src/pages/budget/BudgetForm.jsx:209-220 | a number input showing an integer's numeral reads that integer back |
| Constraints.NumberInputText | src/pages/budget/BudgetForm.jsx:211-216 | a number input shows '' or a valid number, and only a number or a string can show one |
| Constraints.IntegerInputValid | src/pages/budget/BudgetForm.jsx:209-220 | an integer passes `min`/`max`/`step` exactly when it lies within `min` and `max`; an empty input passes exactly when not required |
| UserSettings.OptionsFollowTypes | src/types/userSettings.js:1-45 | four distinct types, one registry option per type, in the same order |
| UserSettings.Find | src/pages/settings/PayCycleSettings.jsx:197 | `find` returns the first option with that value, and finds one exactly when one exists |
| UserSettings.LookupKnown | src/pages/settings/PayCycleSettings.jsx:262 | a type is found exactly when it is one of the four types, and its own entry is returned |
| UserSettings.LookupEntries | src/pages/settings/PayCycleSettings.jsx:197 | each of the four types finds its own registry entry |
| UserSettings.RequiresPayDayExactly | src/types/userSettings.js:3-45 | exactly custom_day and bi_weekly require a pay day |
| UserSettings.PayDayRanges | src/types/userSettings.js:18-44 | every type that requires a pay day has a range: 1..31 and 0..6 |
| UserSettings.BiWeeklyChoices | src/types/userSettings.js:32-42 | seven weekday choices, Sunday first, entry i has value i, values cover exactly 0..6 |
| UserSettings.OffsetValues | src/types/userSettings.js:47-51 | the offsets are 0, 1, 2 in that order |
| UserSettings.RequestFields | src/types/userSettings.js:63-73 | a request carries exactly pay_cycle_type, pay_day, cycle_start_offset |
| PayCycleSettings.DaySuffixIsEnglish | src/pages/settings/PayCycleSettings.jsx:76-83 | for days 1..31 the suffix rule is the English ordinal rule |
| PayCycleSettings.DaySuffixExamples | src/pages/settings/PayCycleSettings.jsx:125-132 | 11, 12, 13 take "th"; 1, 21, 31 take "st"; 2, 22 take "nd"; 3, 23 take "rd" |
| PayCycleSettings.DaySuffixOfNegative | src/pages/settings/PayCycleSettings.jsx:78 | with the truncating remainder, every negative day gets "th" |
| PayCycleSettings.OffsetClauseEmptyIffZero | src/pages/settings/PayCycleSettings.jsx:62-64 | the offset clause is omitted exactly when the offset is the number 0 |
| PayCycleSettings.DayNamesMatchRegistry | src/pages/settings/PayCycleSettings.jsx:67-69 | the page's weekday table agrees with the registry's bi-weekly choices |
| PayCycleSettings.PreviewRenderedIffNotCalendar | src/pages/settings/PayCycleSettings.jsx:49-52 | no preview without settings or for 'calendar', a preview otherwise |
| PayCycleSettings.PreviewEmptyWithoutPayDay | src/pages/settings/PayCycleSettings.jsx:55-73 | an unknown type, a custom day with pay day null or 0, or a bi-weekly cycle without a pay day previews '' |
| PayCycleSettings.AdmittedFormIsDescribed | src/pages/settings/PayCycleSettings.jsx:54-73 | every form the registry admits gets its sentence, with the English ordinal or the registry weekday |
| PayCycleSettings.CustomDayPreview | src/pages/settings/PayCycleSettings.jsx:61-65 | a custom day with a pay day reads "…on the {day}{suffix}{offset clause} of each month" |
| PayCycleSettings.BiWeeklyPreview | src/pages/settings/PayCycleSettings.jsx:66-71 | a bi-weekly cycle with a pay day reads "…on {weekday}{offset clause} every 2 weeks" |
| PayCycleSettings.PreviewExampleCustomDay | src/pages/settings/PayCycleSettings.jsx:61-65 | the 25th without offset reads "…on the 25th of each month", no full stop |
| PayCycleSettings.PreviewExampleOffset | src/pages/settings/PayCycleSettings.jsx:61-65 | the 1st with offset 2 reads "…on the 1st + 2 day(s) of each month" |
| PayCycleSettings.PreviewExampleBiWeekly | src/pages/settings/PayCycleSettings.jsx:66-71 | Friday with offset 1 reads "…on Friday + 1 day(s) every 2 weeks" |
| PayCycleSettings.CurrentSettingsTextCases | src/pages/settings/PayCycleSettings.jsx:102-123 | the summary per type: calendar and last weekday texts, a custom day 1..31 with its English ordinal and offset clause, a bi-weekly weekday from the registry; "Unknown" for a type outside the registry, a custom day with a falsy pay day or a bi-weekly cycle with pay day null |
| PayCycleSettings.TypeChangeSetsPayDay | src/pages/settings/PayCycleSettings.jsx:261-268 | a type change sets the type, pay day 1 for custom_day, 0 for bi_weekly, null otherwise, and keeps the offset |
| PayCycleSettings.SubmitNormalises | src/pages/settings/PayCycleSettings.jsx:197-202 | pay_day is sent null for every type without a pay day, the offset is parsed |
| PayCycleSettings.SubmitRouting | src/pages/settings/PayCycleSettings.jsx:204-216 | update when settings exist, create otherwise, same body |
| PayCycleSettings.TypeChangeThenSubmitInRange | src/pages/settings/PayCycleSettings.jsx:261-268 | after choosing a known type, the submitted pay day is null or inside that type's range |
| PayCycleSettings.LoadDefaults | src/pages/settings/PayCycleSettings.jsx:173-177 | a missing type loads as 'calendar', pay day 0 as null, offset 0 as 1; non-zero values are kept |
| PayCycleSettings.ReloadLosesZeroes | src/pages/settings/PayCycleSettings.jsx:175-176 | as written, stored bi-weekly/Sunday/offset 0 is sent back as pay day null and offset 1 |
| PayCycleSettings.NullishReloadRoundTrip | src/pages/settings/PayCycleSettings.jsx:173-177 | with `??` defaults, loading a saved request and saving it again sends the same request |
| PayCycleSettings.PayDayInput | src/pages/settings/PayCycleSettings.jsx:353-363 | the pay-day number input is required and takes the type's range as `min` and `max` |
| PayCycleSettings.DayOfMonthInputValid | src/pages/settings/PayCycleSettings.jsx:353-363 | the custom-day input, showing `pay_day \|\| ''`, passes the browser's check exactly when the pay day is a number from 1 to 31 |
| PayCycleSettings.BrowserAcceptsExactly | src/pages/settings/PayCycleSettings.jsx:323-363 | the form is held back exactly when the type is custom_day and its pay day is not a number from 1 to 31; no other type carries a constraint |
| PayCycleSettings.PayCycleSettingsPage.constructor | src/pages/settings/PayCycleSettings.jsx:155-162 | loading, not submitting, no settings, form {calendar, null, 1} |
| PayCycleSettings.PayCycleSettingsPage.FetchSettings | src/pages/settings/PayCycleSettings.jsx:168-190 | loaded data replaces settings and form; a 404 is not reported; loading ends |
| PayCycleSettings.PayCycleSettingsPage.HandleSubmit | src/pages/settings/PayCycleSettings.jsx:192-228 | nothing is sent and nothing changes while the browser's check fails; otherwise sends the normalised call, re-fetches on success, submitting ends |
| PayCycleSettings.PayCycleSettingsPage.HandleReset | src/pages/settings/PayCycleSettings.jsx:230-259 | nothing without settings or confirmation; on success settings cleared and form back to the initial form |
| PayCycleSettings.PayCycleSettingsPage.HandleTypeChange | src/pages/settings/PayCycleSettings.jsx:261-268 | the form becomes the type-changed form |
| PayCycleSettings.PayCycleSettingsPage.HandlePayDayInput | src/pages/settings/PayCycleSettings.jsx:270-276 | '' clears the pay day, other text is parsed; other slots kept |
| PayCycleSettings.PayCycleSettingsPage.HandleSelectChange | src/pages/settings/PayCycleSettings.jsx:278-283 | `parseInt(val[0])` into the chosen slot only |
| Listing.PageWindow | src/pages/budget/Budget.jsx:490-500 | min(5, totalPages) consecutive page numbers; inside 1..totalPages and containing the page when the page is valid; exactly 1..totalPages when totalPages ≤ 5 |
| Listing.NavigateStaysInRange | src/pages/transaction/ListTransaction.jsx:404-458 | with `disabled` honoured, enabled arrow buttons and window buttons keep the page in 1..totalPages; Next is enabled exactly before the last page, Previous exactly after the first |
| Listing.LiveArrowsLeaveRange | src/pages/budget/Budget.jsx:473-528 | with the arrows never disabled, Previous on page 1 targets page 0 and Next on the last page targets totalPages + 1, and only those clicks leave 1..totalPages |
| Listing.ShowingRangeBounds | src/pages/budget/Budget.jsx:470 | on a non-empty page, 1 ≤ first ≤ last ≤ totalItems, at most one page, a full page exactly when not the last |
| Listing.NextSort | src/pages/budget/Budget.jsx:203-211 | the clicked column is selected; the same column flips direction, a new one starts ascending |
| Listing.SortTwice | src/pages/budget/Budget.jsx:203-211 | two clicks on the current column restore the sort |
| Listing.PresentMembers | src/pages/budget/Budget.jsx:70-72 | an optional entry is sent exactly when its value is non-empty |
| Listing.PresentKeepsOrder | src/pages/transaction/ListTransaction.jsx:73-77 | the optional entries are sent in append order |
| Listing.PresentAppend | src/pages/transaction/ListTransaction.jsx:73-77 | successive appends compose |
| Listing.PresentOfFive | src/pages/transaction/ListTransaction.jsx:73-77 | five successive appends keep what the filter over the five candidates keeps |
| Listing.Lookup | src/pages/budget/Budget.jsx:65-76 | a key's first value, present exactly when some entry has the key |
| Listing.LookupAppend | src/pages/budget/Budget.jsx:65-76 | a lookup in a concatenation tries the first part first |
| Listing.LookupPresent | src/pages/budget/Budget.jsx:70-72 | with distinct keys, a candidate's key reads its value when non-empty, nothing otherwise |
| Listing.LookupAbsent | src/pages/budget/Budget.jsx:70-72 | a key no candidate carries is never sent |
| Listing.FilterLookup | src/pages/budget/Budget.jsx:65-76 | in fixed + filters + tail, a filter is sent with its value exactly when non-empty |
| Listing.AllFilterLookups | src/pages/transaction/ListTransaction.jsx:68-77 | the same for every filter at once |
| Listing.TailLookup | src/pages/budget/Budget.jsx:73-76 | a sort key is looked up in the sort entries |
| Listing.AppendIfPresent | src/pages/budget/Budget.jsx:70 | `if (v) params.append(k, v)` appends exactly the non-empty entry |
| Listing.SortParamsPaired | src/pages/budget/Budget.jsx:73-76 | sort_dir is sent exactly when sort_by is, with the direction name |
| Listing.CountOr | src/pages/budget/Budget.jsx:82-83 | `total \|\| d`: a missing or zero count falls back to the default |
| Budget.ProgressColorMonotone | src/pages/budget/Budget.jsx:235-239 | red exactly from 100, orange exactly from 80 below 100, green exactly below 80, and the colour only grows more alarming as spending rises |
| Budget.StatusColorCases | src/pages/budget/Budget.jsx:222-233 | green exactly for safe, orange exactly for warning, red exactly for exceeded; gray for anything else |
| Budget.BudgetQueryFilters | src/pages/budget/Budget.jsx:65-72 | page and page_size first; each filter sent with its value exactly when non-empty |
| Budget.BudgetQuerySort | src/pages/budget/Budget.jsx:73-76 | sort_by and sort_dir sent together exactly when a column is sorted |
| Budget.BudgetPage.constructor | src/pages/budget/Budget.jsx:26-53 | page 1, size 10, no filter, unsorted, the initial form |
| Budget.BudgetPage.HandleSort | src/pages/budget/Budget.jsx:203-211 | sort becomes the toggled sort, page 1 |
| Budget.BudgetPage.HandleClearFilters | src/pages/budget/Budget.jsx:213-220 | filters emptied, unsorted, page 1, page size kept |
| Budget.BudgetPage.SetFilter | src/pages/budget/Budget.jsx:268-311 | only the chosen filter changes, and the page goes back to 1 |
| Budget.BudgetPage.SetPageSize | src/pages/budget/Budget.jsx:333-338 | the page size is stored and the page goes back to 1 |
| Budget.BudgetPage.Navigate | src/pages/budget/Budget.jsx:473-528 | the arrows pass the ignored `isDisabled`, so every click sets its target page, page 0 and totalPages + 1 included |
| Budget.BudgetPage.ReceiveTotals | src/pages/budget/Budget.jsx:82-83 | totals with `\|\| 1` and `\|\| 0`; total pages never 0 |
| Budget.BudgetPage.ResetForm | src/pages/budget/Budget.jsx:185-196 | initial form, create mode, no budget selected |
| Budget.BudgetPage.QueryParams | src/pages/budget/Budget.jsx:65-76 | the appends build exactly the budget query |
| Budget.BudgetPage.PageButtons | src/pages/budget/Budget.jsx:490-500 | the window's size, bounds and containment |
| Budget.BudgetPage.ShowingRange | src/pages/budget/Budget.jsx:470 | the shown range lies inside 1..totalItems and spans at most one page |
| ListTransaction.AmountSign | src/pages/transaction/ListTransaction.jsx:387 | '+' exactly when `transaction_type === 1`, '-' otherwise |
| ListTransaction.AmountSignIsStrict | src/pages/transaction/ListTransaction.jsx:387 | the text "1" and type 2 both show '-' |
| ListTransaction.FilterKeysDistinct | src/pages/transaction/ListTransaction.jsx:68-77 | the five filter keys differ from each other and from page and limit |
| ListTransaction.TransactionQueryContents | src/pages/transaction/ListTransaction.jsx:68-77 | page and limit first; each of the five filters sent with its value exactly when non-empty |
| ListTransaction.TransactionQueryOrder | src/pages/transaction/ListTransaction.jsx:73-77 | the filters are sent in the order start_date, end_date, transaction_type, category_id, bank_id |
| ListTransaction.ListTransactionPage.constructor | src/pages/transaction/ListTransaction.jsx:30-40 | page 1, limit 10, no filter |
| ListTransaction.ListTransactionPage.HandleClearFilters | src/pages/transaction/ListTransaction.jsx:127-134 | the five filters emptied, page 1, limit kept |
| ListTransaction.ListTransactionPage.SetFilter | src/pages/transaction/ListTransaction.jsx:186-256 | only the chosen filter changes, and the page goes back to 1 |
| ListTransaction.ListTransactionPage.SetLimit | src/pages/transaction/ListTransaction.jsx:278-280 | the limit is stored and the page goes back to 1 |
| ListTransaction.ListTransactionPage.Navigate | src/pages/transaction/ListTransaction.jsx:404-458 | disabled buttons do nothing, enabled ones set their target |
| ListTransaction.ListTransactionPage.ReceiveTotals | src/pages/transaction/ListTransaction.jsx:83-84 | totals with `\|\| 1` and `\|\| 0` |
| ListTransaction.ListTransactionPage.QueryParams | src/pages/transaction/ListTransaction.jsx:68-77 | the appends build exactly the transaction query |
| ListTransaction.ListTransactionPage.PageButtons | src/pages/transaction/ListTransaction.jsx:421-431 | the window's size, bounds and containment, as `Listing.PageWindow` gives them |
| ListTransaction.ListTransactionPage.ShowingRange | src/pages/transaction/ListTransaction.jsx:401 | the range with `limit` entries per page lies inside 1..totalItems |
| Users.UserQueryFilters | src/pages/users/Users.jsx:55-62 | page and page_size first; search, name, is_admin each sent exactly when non-empty |
| Users.UserQuerySort | src/pages/users/Users.jsx:63-66 | sort_by and sort_dir sent together exactly when a column is sorted |
| Users.UsersPage.constructor | src/pages/users/Users.jsx:34-43 | page 1, size 10, no search, no filter, unsorted |
| Users.UsersPage.SetSearchInput | src/pages/users/Users.jsx:166 | typing changes only the pending search text |
| Users.UsersPage.HandleSearch | src/pages/users/Users.jsx:119-122 | the typed text becomes the search, page 1 |
| Users.UsersPage.HandleSort | src/pages/users/Users.jsx:124-132 | sort becomes the toggled sort, page 1 |
| Users.UsersPage.HandleClearFilters | src/pages/users/Users.jsx:134-142 | search, typed text and both filters emptied, unsorted, page 1, page size kept |
| Users.UsersPage.SetFilterName | src/pages/users/Users.jsx:182-186 | the name filter is stored and the page goes back to 1 |
| Users.UsersPage.SetFilterIsAdmin | src/pages/users/Users.jsx:189-194 | the admin filter is stored and the page goes back to 1 |
| Users.UsersPage.SetPageSize | src/pages/users/Users.jsx:211-215 | the page size is stored and the page goes back to 1 |
| Users.UsersPage.Navigate | src/pages/users/Users.jsx:343-398 | the arrows pass the ignored `isDisabled`, so every click sets its target page, page 0 and totalPages + 1 included |
| Users.UsersPage.ReceiveTotals | src/pages/users/Users.jsx:74-75 | totals with `\|\| 1` and `\|\| 0` |
| Users.UsersPage.QueryParams | src/pages/users/Users.jsx:55-66 | the appends build exactly the users query |
| Users.UsersPage.PageButtons | src/pages/users/Users.jsx:360-370 | the window's size, bounds and containment, as `Listing.PageWindow` gives them |
| Users.UsersPage.ShowingRange | src/pages/users/Users.jsx:340 | the shown range lies inside 1..totalItems |
| Users.TypeThenSearch | src/pages/users/Users.jsx:165-168 | typing then searching applies exactly the typed text and touches no filter or sort |
| BudgetForm.With | src/pages/budget/BudgetForm.jsx:88-91 | the named field holds the new value, every other field is kept |
| BudgetForm.InputValueReadsNumerals | src/pages/budget/BudgetForm.jsx:86-92 | a typed numeral of amount or alert_at is stored as its number, '' as '', other fields as typed |
| BudgetForm.SelectValueReadsNumerals | src/pages/budget/BudgetForm.jsx:94-99 | the period is stored as selected, other fields parsed; an empty selection gives undefined or NaN |
| BudgetForm.InputValue | src/pages/budget/BudgetForm.jsx:86-92 | typing into amount or alert_at leaves a number, NaN or '' in the slot |
| BudgetForm.BrowserAcceptsExactly | src/pages/budget/BudgetForm.jsx:160-220 | with those slots, the browser submits exactly when amount is a number, a start date is shown and alert_at is a number from 1 to 100 |
| BudgetForm.ParsedOr | src/pages/budget/BudgetForm.jsx:109-110 | `parseInt(v) \|\| d` is an integer, never 0 when d is not, the parsed value unless 0 or NaN |
| BudgetForm.ParsedOrStable | src/pages/budget/BudgetForm.jsx:109-110 | applying `parseInt(·) \|\| d` twice equals applying it once |
| BudgetForm.SubmitData | src/pages/budget/BudgetForm.jsx:107-112 | amount an integer, alert_at a non-zero integer, category parsed, the rest copied |
| BudgetForm.SubmitDataDefaults | src/pages/budget/BudgetForm.jsx:107-112 | amount falls back to 0, alert_at to 80 when 0 or unparseable |
| BudgetForm.SubmitDataIdempotent | src/pages/budget/BudgetForm.jsx:107-112 | normalising a payload twice changes nothing |
| BudgetForm.InitialPayload | src/pages/budget/BudgetForm.jsx:27-34 | the untouched form is held back by the browser (amount and start date empty); its payload would carry amount 0, alert 80, period monthly, category NaN |
| BudgetForm.DatePart | src/pages/budget/BudgetForm.jsx:49 | a falsy start date loads as '', a string as the text before 'T', anything else throws |
| BudgetForm.LoadedForm | src/pages/budget/BudgetForm.jsx:44-52 | the loaded form: date cut before 'T', amount `parseInt \|\| 0`, alert `parseInt \|\| 80` (a non-zero number), other fields copied; nothing when `.split` would throw |
| BudgetForm.DatePartOfTimestamp | src/pages/budget/BudgetForm.jsx:49 | an ISO timestamp loads as its date part |
| BudgetForm.LoadThenSubmit | src/pages/budget/BudgetForm.jsx:44-52 | saving a loaded budget unchanged sends its amount and alert unchanged |
| BudgetForm.LoadedFormAccepted | src/pages/budget/BudgetForm.jsx:198-220 | a loaded budget can be saved unedited exactly when it has a start date and its alert level lies within 1..100 |
| BudgetForm.SubmitRequest | src/pages/budget/BudgetForm.jsx:101-116 | PUT budgets/{id} exactly in edit mode, POST budgets otherwise, with the normalised payload |
| BudgetForm.BudgetFormPage.constructor | src/pages/budget/BudgetForm.jsx:20-34 | the route id and the initial form |
| BudgetForm.BudgetFormPage.FetchBudget | src/pages/budget/BudgetForm.jsx:36-62 | the loaded form on success; an error reported and the form kept otherwise |
| BudgetForm.BudgetFormPage.HandleInputChange | src/pages/budget/BudgetForm.jsx:86-92 | only the named field changes |
| BudgetForm.BudgetFormPage.HandleSelectChange | src/pages/budget/BudgetForm.jsx:94-99 | only the named field changes |
| BudgetForm.BudgetFormPage.HandleSubmit | src/pages/budget/BudgetForm.jsx:101-133 | nothing is sent while the browser's check fails; otherwise the routed request is sent, and the page goes back to the list exactly on success |
| Transaction.With | src/pages/transaction/Transaction.jsx:116-133 | the named slot holds the new value, every other slot is kept |
| Transaction.EmptyForm | src/pages/transaction/Transaction.jsx:170-177 | every slot '' except the date, which is today |
| Transaction.SelectValue | src/pages/transaction/Transaction.jsx:124-129 | '' for an empty selection, otherwise an integer or NaN |
| Transaction.Payload | src/pages/transaction/Transaction.jsx:150-157 | exactly six fields copied from the form, the amount parsed |
| Transaction.SubmitRequest | src/pages/transaction/Transaction.jsx:135-161 | nothing sent exactly when amount, wallet, category or type is empty; otherwise POST v2/transactions |
| Transaction.EmptyFormIsRefused | src/pages/transaction/Transaction.jsx:138-144 | the reset form lacks every required field and is refused |
| Transaction.FillThenSubmit | src/pages/transaction/Transaction.jsx:116-157 | picking ids, typing a numeral amount and a type sends exactly those values when both ids are non-zero |
| Transaction.FilledForm | src/pages/transaction/Transaction.jsx:116-133 | the four handlers fill their four slots and keep the rest |
| Transaction.SubmitFilledForm | src/pages/transaction/Transaction.jsx:138-157 | the request for a filled form: sent iff both ids are non-zero, amount read back |
| Transaction.NonEmptyNumeralSelects | src/pages/transaction/Transaction.jsx:124-129 | selecting an id's numeral stores that id |
| Transaction.UnparsedAmountPassesGuard | src/pages/transaction/Transaction.jsx:138-155 | the guard reads the text: the amount ".5", a valid number `parseInt` cannot read, passes and is posted as NaN |
| Transaction.TransactionPage.constructor | src/pages/transaction/Transaction.jsx:36-43 | the empty form dated today |
| Transaction.TransactionPage.HandleInputChange | src/pages/transaction/Transaction.jsx:116-122 | only the named slot changes |
| Transaction.TransactionPage.HandleSelectChange | src/pages/transaction/Transaction.jsx:124-129 | only the named slot changes |
| Transaction.TransactionPage.HandleTypeSelect | src/pages/transaction/Transaction.jsx:131-133 | only the type changes |
| Transaction.TransactionPage.HandleSubmit | src/pages/transaction/Transaction.jsx:135-187 | refused forms are kept; a recorded transaction resets the form, dated today |
| Transaction.SubmitTwice | src/pages/transaction/Transaction.jsx:135-187 | after a recorded transaction, an immediate second submit sends nothing |
| WalletForm.With | src/pages/wallets/WalletForm.jsx:99-112 | the named slot holds the new value, every other slot is kept |
| WalletForm.BalanceText | src/pages/wallets/WalletForm.jsx:76 | no balance loads as '', a number as its numeral |
| WalletForm.LoadedForm | src/pages/wallets/WalletForm.jsx:73-80 | the currency is never empty; other text slots are a value or '' |
| WalletForm.LoadedFormDefaults | src/pages/wallets/WalletForm.jsx:73-80 | stored text kept, missing text '', missing currency 'IDR', a zero balance kept as "0" |
| WalletForm.Payload | src/pages/wallets/WalletForm.jsx:129-136 | bank_name and account_no present exactly when filled in; name, type, currency copied |
| WalletForm.SubmitRequest | src/pages/wallets/WalletForm.jsx:114-158 | nothing sent exactly when name, type or balance is empty; PUT wallets/{id} in edit mode, POST wallets otherwise |
| WalletForm.SaveThenLoad | src/pages/wallets/WalletForm.jsx:73-80 | saving then loading gives the form back, the balance as its numeral, an empty currency as 'IDR' |
| WalletForm.LoadedFormSubmits | src/pages/wallets/WalletForm.jsx:73-80 | a loaded wallet passes the handler's guard exactly when it has a name, a type and a balance, and the browser's check exactly when it has a name and a balance of at least 0 |
| WalletForm.WalletFormPage.constructor | src/pages/wallets/WalletForm.jsx:23-37 | the initial form; fetch loading exactly in edit mode |
| WalletForm.WalletFormPage.FetchWallet | src/pages/wallets/WalletForm.jsx:63-91 | the loaded form on success; back to the list and the form kept on failure |
| WalletForm.WalletFormPage.HandleInputChange | src/pages/wallets/WalletForm.jsx:99-105 | only the named slot changes |
| WalletForm.WalletFormPage.HandleSelectChange | src/pages/wallets/WalletForm.jsx:107-112 | the first selected value, into that slot only |
| WalletForm.WalletFormPage.HandleSubmit | src/pages/wallets/WalletForm.jsx:114-170 | nothing is sent while the browser's check or the handler's guard fails; otherwise the routed request; back to the list exactly on success |
| BudgetAlerts.SeverityColor | src/pages/budget/BudgetAlerts.jsx:106-110 | red exactly from 100, orange exactly from 90 below 100, yellow below 90 |
| BudgetAlerts.Unread | src/pages/budget/BudgetAlerts.jsx:123 | the unread selection is no longer than the list |
| BudgetAlerts.UnreadMembers | src/pages/budget/BudgetAlerts.jsx:123 | the unread selection holds exactly the unread alerts |
| BudgetAlerts.UnreadAppend | src/pages/budget/BudgetAlerts.jsx:123 | selection and count add up over the parts of a list |
| BudgetAlerts.UnreadCountExtremes | src/pages/budget/BudgetAlerts.jsx:123 | count 0 exactly when all are read, count = length exactly when none is |
| BudgetAlerts.MarkAllTargets | src/pages/budget/BudgetAlerts.jsx:79-89 | one request per unread alert, in list order |
| BudgetAlerts.MarkAllTargetsExactly | src/pages/budget/BudgetAlerts.jsx:79-89 | every unread alert is marked, and no read one is |
| BudgetAlerts.QuerySuffix | src/pages/budget/BudgetAlerts.jsx:33 | '?unread_only=true' exactly when the switch is on, '' otherwise |
| BudgetAlerts.HeaderText | src/pages/budget/BudgetAlerts.jsx:133 | "{n} unread alerts" when n > 0, "All caught up!" otherwise |
| BudgetAlerts.MarkAllShownIffTargets | src/pages/budget/BudgetAlerts.jsx:148 | the mark-all button shows exactly when it has requests to send, and exactly when the header is not "All caught up!" |
| BudgetAlerts.BudgetAlertsPage.constructor | src/pages/budget/BudgetAlerts.jsx:19-22 | no alerts, switch off |
| BudgetAlerts.BudgetAlertsPage.ToggleUnreadOnly | src/pages/budget/BudgetAlerts.jsx:140 | the switch flips |
| BudgetAlerts.BudgetAlertsPage.FetchAlerts | src/pages/budget/BudgetAlerts.jsx:28-48 | requests the suffixed path; stores `data \|\| []`; a failure keeps the list |
| BudgetAlerts.BudgetAlertsPage.MarkAllAsRead | src/pages/budget/BudgetAlerts.jsx:75-89 | as many requests as unread alerts, exactly the unread ones |
| ValueVisibility.Visibility.Provider | src/hooks/useValueVisibility.jsx:8 | the provider starts with amounts shown |
| ValueVisibility.Visibility.Local | src/hooks/useValueVisibility.jsx:39 | the local hook starts with amounts hidden |
| ValueVisibility.Visibility.ToggleVisibility | src/hooks/useValueVisibility.jsx:10-12 | the state flips |
| ValueVisibility.Visibility.FormatValue | src/hooks/useValueVisibility.jsx:14-19 | the mask while hidden, the formatter's result while shown |
| ValueVisibility.Visibility.FormatPlain | src/hooks/useValueVisibility.jsx:45-49 | with the default formatter, the value itself while shown |
| ValueVisibility.HiddenRevealsNothing | src/hooks/useValueVisibility.jsx:15-17 | while hidden the output depends on neither value nor formatter |
| ValueVisibility.ShownKeepsValues | src/hooks/useValueVisibility.jsx:45-49 | while shown, distinct values stay distinct |
| ValueVisibility.ToggleTwice | src/hooks/useValueVisibility.jsx:41-43 | two toggles restore the state and every formatted amount |
| ValueVisibility.UseValueVisibility | src/hooks/useValueVisibility.jsx:29-35 | the provider's state, or the error when there is no provider |
| AxiosConfig.Config | src/components/axios/Config.jsx:5-14 | both JSON defaults unless overridden, every custom header present, params exactly when truthy, no other keys |
| AxiosConfig.ConfigDefaults | src/components/axios/Config.jsx:5-14 | `Config()` has exactly the two JSON headers and no params |
| AxiosConfig.ConfigWithAuthorization | src/components/axios/Config.jsx:6-11 | an Authorization header is added beside the two defaults |
| AxiosConfig.ConfigIdempotent | src/components/axios/Config.jsx:6-11 | merging a config's own headers again changes nothing |
| AxiosConfig.WithToken | src/components/axios/Config.jsx:24-27 | Authorization is "Bearer {token}" exactly when a non-empty token is stored |
| AxiosConfig.WithTokenKeepsOthers | src/components/axios/Config.jsx:24-27 | the interceptor changes no header other than Authorization |
| AxiosConfig.LogoutOnlyOn401 | src/components/axios/Config.jsx:39-41 | interceptor and ErrorHandler agree; logout exactly on a response with status the number 401 |

## Left out

- Network I/O: every request, the service wrappers and the toasts. A request
  is modelled as the verb, path and body it would send. Its outcome
  (success, failure, returned data) is a method parameter.
- `localStorage`, `window.confirm`, `navigate` and redirects. A stored token
  and a confirmation are parameters. Navigation is a returned flag. The
  logout itself (clearing storage, going to /login) is left out; only the
  decision to log out is modelled.
- Concurrency: `Promise.all` in `markAllAsRead`. Only which alerts it
  targets is modelled, not how the requests run together.
- Floating point:
  - `parseFloat` of the wallet balance is a parameter of `WalletForm.Payload`
    and `WalletFormPage.HandleSubmit`;
  - percentages are `real`;
  - JavaScript numbers are otherwise integers.
- WalletForm.BalanceText: only integer balances are modelled. A stored
  fractional balance would load as its decimal text.
- Locale formatting: `Intl.NumberFormat`, `toLocaleDateString` and the date
  shown for `updated_at`.
- The clock: today's date for the transaction form is a parameter.
- URL encoding: the WHATWG `application/x-www-form-urlencoded`
  serialisation. A query is an ordered list of key/value pairs.
- Unicode whitespace: `parseInt`'s leading-whitespace skip models the ASCII
  white space, the no-break space and the line terminators. The other
  Unicode space separators are not recognised.
- A negative `total_pages` is excluded by `PageWindow`'s requires, because
  `Array(n)` throws a RangeError on a negative length. The pages never
  render such a window.
- The create/edit dialog of the budget list page is not part of this model:
  `handleInputChange`, `handleSelectChange`, `handleSubmit`, `handleEdit`,
  `handleAddNew` and `handleDelete` in Budget.jsx. Only `resetForm` is
  modelled, and the stand-alone budget form models the same editing rules.
- The user edit dialog and `deleteUser` in Users.jsx.
- `markAsRead` for a single alert in BudgetAlerts.jsx, beyond its path.
- Fetching the category, bank and wallet option lists (`fetchCategories`,
  `fetchBanks`, `fetchWallets`).
- Rendering: icons, colours of buttons, dialog state.
- The `required` of the selects: the category and period selects of the
  budget form, the type and currency selects of the wallet form and the
  bi-weekly weekday select sit inside a required `Field.Root`, but they are
  drawn by the UI library, and whether its hidden native select takes part
  in the browser's check is decided inside the library. The model treats
  the selects as unconstrained.
- Date syntax: a date input shows '' for a value that is not a date. The
  model takes the start date the form holds as the text the input shows.
- Constraints.ReadNumeral: numbers with an exponent ("1e2") are valid HTML
  numbers but are not read; such a text counts as empty.
- PayCycleSettings.PayCycleSettingsPage.FetchSettings: the page keeps the
  `||` loader as written (see Findings). The corrected loader,
  `FormFromRecordNullish`, is modelled and proved beside it, but the page
  does not use it, because the page model has to match what the page does.

## Findings

| source | as written | input that shows it | evidently intended | confidence | as-written member | corrected member |
|---|---|---|---|---|---|---|
| src/pages/budget/Budget.jsx:473-528 | the arrow buttons pass `isDisabled={page === 1}` and `isDisabled={page === totalPages}`, a prop the Button of Chakra UI v3 (the version whose `Field.Root` and `Dialog` the pages use) does not read; src/pages/users/Users.jsx:343-398 does the same | on page 1 of 3, Previous calls `setPage(0)`; on page 3 of 3, Next calls `setPage(4)` | `disabled={…}`, as src/pages/transaction/ListTransaction.jsx:404-458 writes it, so no click leaves 1..totalPages | medium, not executed | Listing.LiveArrowsLeaveRange | Listing.NavigateStaysInRange |
| src/pages/settings/PayCycleSettings.jsx:175-176 | `pay_day: response.data.pay_day \|\| null` and `cycle_start_offset: response.data.cycle_start_offset \|\| 1` | stored settings {bi_weekly, pay_day 0 (Sunday), offset 0 ("Same day as payday")} load as pay day null and offset 1; saving again sends {bi_weekly, null, 1} | keep a stored 0 (`??` instead of `\|\|`), so load-then-save sends back what was stored | medium, not executed | PayCycleSettings.ReloadLosesZeroes | PayCycleSettings.NullishReloadRoundTrip |
