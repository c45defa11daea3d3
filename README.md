# Gym session ledger, modelled in Dafny

This project models the core of a single-tenant gym management front end: the customer
**session ledger** and the rules around it. It models these parts:

- the data provider with its three collections (customers, classes, attendance records);
- the create, update, delete and lookup operations on customers and classes;
- the two ledger operations: `addSessions` credits a class balance or the drop-in balance, and
  `recordAttendance` logs a visit and debits the class balance;
- the `clockIn` guard chain that decides whether a visit may be recorded;
- the membership status machine: `freezeMembership`, `unfreezeMembership` and the read-only
  `checkFreezeStatus`;
- the pure derivations the pages and components compute from the same data: dashboard
  statistics, date helpers, the customer list filter, the customer card, the profile page,
  and the two registration forms.

## Layout

| file | module | models |
|---|---|---|
| `values.dfy` | `Values` | `Option`, `Result`, and `Date` (`Unset` for an empty date input, `At(ms)` otherwise) |
| `js_string.dfy` | `JsString` | the JavaScript string built-ins: `\s`, `trim`, `parseInt(s, 10)`, `toString`, `toLowerCase`, `includes`, and the two regex rewrites |
| `collections.dfy` | `Collections` | `filter`, `find`, `map` over an id, and sums of map values |
| `entities.dfy` | `Entities` | customers, classes, attendance records, freeze periods, record merges (`{ ...c, ...updates }`) and the error taxonomy |
| `data_context.dfy` | `DataContext` | `src/context/DataContext.jsx` |
| `clock_in.dfy` | `ClockIn` | `src/hooks/useClockIn.js` |
| `freeze_membership.dfy` | `FreezeMembership` | `src/hooks/useFreezeMembership.js` |
| `stats.dfy` | `Stats` | `src/hooks/useStats.js` |
| `format_date.dfy` | `FormatDate` | `src/utils/formatDate.js` |
| `customer_profile_page.dfy` | `CustomerProfilePage` | `src/pages/CustomerProfilePage.jsx` |
| `customers_page.dfy` | `CustomersPage` | `src/pages/CustomersPage.jsx` |
| `customer_card.dfy` | `CustomerCard` | `src/components/Customer/CustomerCard.jsx` |
| `customer_form.dfy` | `CustomerForm` | `src/components/Customer/CustomerForm.jsx` |
| `class_form.dfy` | `ClassForm` | `src/components/Class/ClassForm.jsx` |

Each provider operation is first written as a pure step function from one `Store` (the three
collections) to the next one, together with what the operation returns. The `Repository` class
holds the collections as `seq` fields. Each of its methods performs one step in place and states
the new `State()` as that step of the old state. The properties are lemmas about the step
functions. The hooks (`ClockIn`, `Freeze`, `Unfreeze`) and the form submit handlers are methods
that call the repository's methods, as the source does.

Ids, timestamps and "now" are parameters. Dates are integer milliseconds.

### Behaviour worth knowing

- **Drop-in balance at check-in.** `clockIn` has no drop-in fallback: a check-in the class
  balance cannot cover is refused, not charged to the drop-in balance. `clockIn` rejects any customer who is not enrolled in the class, and checks only the per-class balance.
  `dropInSessions` is credited by `addSessions` and never read or debited anywhere else. The
  lemmas `ClockIn.AdmitIgnoresDropIn` and `ClockIn.UnenrolledRefusedDespiteDropIn` state this.
- **Order of the `addSessions` checks.** `addSessions` looks up the customer before it parses
  the count, and looks up the class last.
- **Clamped debit.** `recordAttendance` itself never refuses a visit. It lowers an existing
  class balance to `max(0, balance - cost)` and leaves an absent entry absent. Balances stay
  non-negative because of this clamp and because `clockIn` checks the balance first.
- **Negative cost per visit.** The class form does not forbid a negative `sessionsPerVisit`.
  For such a class, a customer with no balance entry is admitted. `clockIn` then reports one
  or more sessions remaining, while no balance is stored
  (`ClockIn.NegativeCostReportsPhantomBalance`).
- **Status counts.** The application only ever writes the statuses active, frozen and expired.
  So the three dashboard counts add up to the number of customers exactly, not just at most.

## Model

| member | source | states |
|---|---|---|
| `DataContext.Repository.constructor` | src/context/DataContext.jsx:98-112 | the provider starts from the collections it is given |
| `DataContext.Repository.GetCustomer` | src/context/DataContext.jsx:148-150 | the lookup finds a stored customer with that id, and finds nothing exactly when no stored customer has it |
| `DataContext.Repository.GetClass` | src/context/DataContext.jsx:171-173 | the lookup finds a stored class with that id, and finds nothing exactly when no stored class has it |
| `DataContext.ParsedId` | src/context/DataContext.jsx:242 | `parseInt` of a numeric id gives that id back |
| `DataContext.NewCustomer` | src/context/DataContext.jsx:127-134 | the new customer keeps the form's fields and gets the fresh id, status active, no drop-in sessions, empty attendance and freeze histories, and no class balances |
| `DataContext.Repository.AddCustomer` | src/context/DataContext.jsx:126-137 | the new state is the add-customer step of the old state, and the method returns the new record |
| `DataContext.AddCustomerEffect` | src/context/DataContext.jsx:126-137 | adding appends exactly the new record; classes, records and existing lookups are unchanged; a fresh id now finds the new record |
| `DataContext.Repository.UpdateCustomer` | src/context/DataContext.jsx:139-141 | the new state is the update step of the old state |
| `DataContext.UpdateCustomerInPlace` | src/context/DataContext.jsx:139-141 | only records with the id are merged with the updates; every other record, the order and the length are unchanged |
| `DataContext.UpdateCustomerFinds` | src/context/DataContext.jsx:139-141 | after an update, a lookup of the id finds the record it found before, merged with the updates |
| `DataContext.UpdateCustomerMisses` | src/context/DataContext.jsx:139-141 | updating an unknown id leaves it unknown |
| `DataContext.UpdateCustomerKeeps` | src/context/DataContext.jsx:139-141 | an update does not change a lookup of any other id |
| `DataContext.Repository.DeleteCustomer` | src/context/DataContext.jsx:143-145 | the new state is the delete step of the old state |
| `DataContext.DeleteCustomerEffect` | src/context/DataContext.jsx:143-145 | deleting removes exactly the records with the id, keeps the rest in order, and leaves every other lookup unchanged |
| `DataContext.NewClass` | src/context/DataContext.jsx:153-158 | the new class keeps the form's fields and gets the fresh id and an enrolled count of 0 |
| `DataContext.Repository.AddClass` | src/context/DataContext.jsx:152-161 | the new state is the add-class step of the old state, and the method returns the new class |
| `DataContext.AddClassEffect` | src/context/DataContext.jsx:152-161 | adding appends exactly the new class; customers, records and existing lookups are unchanged |
| `DataContext.Repository.UpdateClass` | src/context/DataContext.jsx:163-165 | the new state is the class update step of the old state |
| `DataContext.UpdateClassInPlace` | src/context/DataContext.jsx:163-165 | only classes with the id are merged with the updates; every other class and the order are unchanged |
| `DataContext.UpdateClassFinds` | src/context/DataContext.jsx:163-165 | after an update, the id finds the merged class and every other lookup is unchanged |
| `DataContext.Repository.DeleteClass` | src/context/DataContext.jsx:167-169 | the new state is the class delete step of the old state |
| `DataContext.DeleteClassEffect` | src/context/DataContext.jsx:167-169 | deleting removes exactly the classes with the id and keeps the rest in order |
| `DataContext.TopUpRequestCases` | src/context/DataContext.jsx:182-192 | a count that does not parse to a positive integer is refused first; then a named class that does not parse or does not exist is refused |
| `DataContext.TopUpRequestAccepted` | src/context/DataContext.jsx:182-192 | an accepted request adds the parsed, positive count, to an existing class when it names one |
| `DataContext.Repository.AddSessions` | src/context/DataContext.jsx:176-223 | the new state and the result are the add-sessions step of the old state |
| `DataContext.AddSessionsRefusals` | src/context/DataContext.jsx:177-192 | an unknown customer is refused before any other check, and every refusal leaves the store unchanged |
| `DataContext.AddSessionsTopUp` | src/context/DataContext.jsx:194-222 | an accepted top-up merges its update into the customer and reports the top-up |
| `DataContext.AddSessionsDropInStep` | src/context/DataContext.jsx:215-222 | with no class given, the update merged is the drop-in credit |
| `DataContext.AddSessionsClassStep` | src/context/DataContext.jsx:187-212 | with an existing class given, the update merged is the class credit |
| `DataContext.AddSessionsDropIn` | src/context/DataContext.jsx:215-222 | a drop-in top-up raises the customer's drop-in balance by exactly the count, reports it, and changes no other customer, class or record |
| `DataContext.DropInPatchEffect` | src/context/DataContext.jsx:215-216 | the drop-in credit changes only `dropInSessions`, by the count |
| `DataContext.ClassTopUpEffect` | src/context/DataContext.jsx:194-205 | a class credit raises that class's balance by the count (an absent entry counting as 0), enrols the class, leaves an existing enrolment list unchanged, and leaves other balances unchanged |
| `DataContext.AddSessionsToClass` | src/context/DataContext.jsx:187-212 | a class top-up credits the customer found by the lookup, reports the class and count, and changes no other customer, class or record |
| `DataContext.Debit` | src/context/DataContext.jsx:243-247 | the debit keeps the same class entries and changes no other class's balance |
| `DataContext.VisitCost` | src/context/DataContext.jsx:237-238 | the cost charged per visit is never 0 |
| `DataContext.Repository.RecordAttendance` | src/context/DataContext.jsx:226-260 | the new state and the returned record are the record-attendance step of the old state |
| `DataContext.AttendancePatchEffect` | src/context/DataContext.jsx:243-257 | a visit appends the record to the customer's log, sets an existing class balance to `max(0, old - cost)`, leaves an absent entry absent, enrols the class, and changes nothing else |
| `DataContext.RecordAttendanceAppends` | src/context/DataContext.jsx:227-234 | exactly one record with the given ids and timestamp is appended to the global log; classes and other customers are unchanged |
| `DataContext.RecordAttendanceFinds` | src/context/DataContext.jsx:241-257 | a known customer gets the visit merged into the record its lookup finds |
| `DataContext.UpdateKeepsBalancesNonNegative` | src/context/DataContext.jsx:139-141 | an update that writes only non-negative balances keeps every drop-in and class balance non-negative |
| `DataContext.TopUpPatchNonNegative` | src/context/DataContext.jsx:194-216 | a positive top-up writes only non-negative balances |
| `DataContext.AddCustomerKeepsBalancesNonNegative` | src/context/DataContext.jsx:126-137 | a new customer has no drop-in sessions and no class balances, so adding one keeps every balance non-negative |
| `DataContext.AddSessionsKeepsBalancesNonNegative` | src/context/DataContext.jsx:176-223 | `addSessions` never makes a drop-in or class balance negative |
| `DataContext.RecordAttendanceKeepsBalancesNonNegative` | src/context/DataContext.jsx:243-247 | `recordAttendance` never makes a balance negative, whatever the cost |
| `DataContext.TopUpPatchKeepsEnrolment` | src/context/DataContext.jsx:197-200 | a top-up keeps every enrolled class |
| `DataContext.AddSessionsEnrolmentGrows` | src/context/DataContext.jsx:197-205 | after `addSessions`, the record a lookup of any id finds has an enrolment list extending the one the lookup found before |
| `DataContext.RecordAttendanceEnrolmentGrows` | src/context/DataContext.jsx:250-256 | after `recordAttendance`, the record a lookup of any id finds has an enrolment list extending the one the lookup found before |
| `Entities.SessionsPerVisit` | src/hooks/useClockIn.js:48 | the cost per visit is the stored value, or 1 when that is 0 |
| `Entities.Enrol` | src/context/DataContext.jsx:197-200 | the id is enrolled afterwards; the list is unchanged if it was there, and gains only the id otherwise |
| `Entities.ApplyCustomerPatch` | src/context/DataContext.jsx:140 | a merge keeps the id, and the empty update changes nothing |
| `ClockIn.ClockIn` | src/hooks/useClockIn.js:11-67 | the new state and the result are the clock-in step of the old state |
| `ClockIn.ClockInRefused` | src/hooks/useClockIn.js:14-56 | a refused check-in reports the guard's error and leaves the store unchanged |
| `ClockIn.ClockInAdmitted` | src/hooks/useClockIn.js:59-66 | an admitted check-in is `recordAttendance`, reported with the balance less the cost |
| `ClockIn.AdmittedHasClass` | src/hooks/useClockIn.js:27-29 | only a chosen class can be admitted |
| `ClockIn.ClockInUnknownCustomer` | src/hooks/useClockIn.js:12-16 | an unknown customer is refused first, with no change |
| `ClockIn.ClockInRefusals` | src/hooks/useClockIn.js:14-35 | expired, then frozen, then no class, then unknown class are refused in that order, and a refusal changes nothing |
| `ClockIn.ClockInClassRefusals` | src/hooks/useClockIn.js:37-56 | for an existing class, not enrolled is refused, then not enough sessions; otherwise the check-in succeeds with balance less cost remaining |
| `ClockIn.ClockInSucceedsIff` | src/hooks/useClockIn.js:14-56 | a check-in succeeds exactly when the customer exists and is active, a class was chosen and exists, the customer is enrolled, and the class balance (0 if absent) covers the cost (1 if 0) |
| `ClockIn.ClockInFailureIdempotent` | src/hooks/useClockIn.js:51-56 | repeating a refused check-in on the state it left gives the same refusal and the same state |
| `ClockIn.ClockInWithoutClass` | src/hooks/useClockIn.js:27-29 | calling with no class is refused with the class-required error for every active customer |
| `ClockIn.AdmitCustomerIgnoresDropIn` | src/hooks/useClockIn.js:18-56 | the guards after the customer lookup give the same verdict whatever the drop-in balance is |
| `ClockIn.AdmitIgnoresDropIn` | src/hooks/useClockIn.js:38-56 | overwriting any customer's drop-in balance does not change the check-in verdict |
| `ClockIn.UnenrolledRefusedDespiteDropIn` | src/hooks/useClockIn.js:38-43 | a customer not enrolled in the class is refused even with a positive drop-in balance |
| `ClockIn.AdmitFinds` | src/hooks/useClockIn.js:45-56 | an admitted customer is active, enrolled, and has a balance that covers the class's cost, which is also the cost `recordAttendance` charges |
| `ClockIn.ClockInReports` | src/hooks/useClockIn.js:45-66 | after a successful check-in, the reported remaining sessions are the class balance less the cost per visit and are not negative, and exactly the returned record is appended to the log |
| `ClockIn.ClockInDebits` | src/context/DataContext.jsx:241-257 | after a successful check-in, the customer's status, drop-in balance, freeze history, enrolment and other class balances are unchanged, and the stored balance for the class is the old balance less the cost whenever an entry existed or the cost is positive |
| `ClockIn.NegativeCostReportsPhantomBalance` | src/hooks/useClockIn.js:46-66 | with a negative cost and no balance entry, the check-in is admitted and reports 1 remaining while no balance is stored |
| `FreezeMembership.Freeze` | src/hooks/useFreezeMembership.js:10-41 | the new state and the result are the freeze step of the old state |
| `FreezeMembership.FreezeRefusals` | src/hooks/useFreezeMembership.js:11-19 | an unknown customer is refused, then an already frozen one; a refusal changes nothing |
| `FreezeMembership.FreezePatchEffect` | src/hooks/useFreezeMembership.js:29-34 | freezing sets status frozen, appends the period, and changes no other field |
| `FreezeMembership.FreezeEffect` | src/hooks/useFreezeMembership.js:21-40 | freezing an active or expired membership sets it frozen and appends exactly one period with the given dates and reason, without checking the dates; other records are untouched |
| `FreezeMembership.ThawedStatus` | src/hooks/useFreezeMembership.js:55-58 | the thawed status is never frozen, and is expired exactly when the membership end date is before now |
| `FreezeMembership.Unfreeze` | src/hooks/useFreezeMembership.js:43-66 | the new state and the result are the unfreeze step of the old state |
| `FreezeMembership.UnfreezeRefusals` | src/hooks/useFreezeMembership.js:44-52 | an unknown customer is refused, then a membership that is not frozen; a refusal changes nothing |
| `FreezeMembership.UnfreezeEffect` | src/hooks/useFreezeMembership.js:55-65 | unfreezing stores expired when the end date is past and active otherwise, reports the stored status, and keeps the freeze history and all other fields |
| `FreezeMembership.FreezeThenUnfreeze` | src/hooks/useFreezeMembership.js:10-66 | freeze then unfreeze leaves an unfrozen membership active or expired according to its end date, with exactly one more period |
| `FreezeMembership.FreezeHistoryGrows` | src/hooks/useFreezeMembership.js:29-34 | freezing extends the freeze history of the record a lookup of any id finds, and unfreezing keeps it |
| `FreezeMembership.FreezeAndUnfreezeKeepBalancesNonNegative` | src/hooks/useFreezeMembership.js:31-34 | freezing and unfreezing write no balance, so every balance stays non-negative |
| `FreezeMembership.CheckFreezeStatusFrozenIff` | src/hooks/useFreezeMembership.js:68-83 | the query reports frozen exactly for a known customer whose status is frozen, whatever the periods say; an unknown customer gets only "not frozen" |
| `FreezeMembership.CheckFreezeStatusActive` | src/hooks/useFreezeMembership.js:75-91 | the periods reported in force are exactly those with start ≤ now ≤ end, in history order and each as often as in the history, and the total is the rounded-up days of the history's covering periods summed |
| `FreezeMembership.TotalDaysAppend` | src/hooks/useFreezeMembership.js:85-90 | the summed days of periods in force add up over a concatenation |
| `FreezeMembership.TotalDaysOfInForce` | src/hooks/useFreezeMembership.js:76-90 | the reduce over the filtered periods equals the sum over the whole history in which non-covering periods count 0 |
| `FreezeMembership.TotalDaysNonNegative` | src/hooks/useFreezeMembership.js:85-90 | the sum of the rounded-up day spans of periods in force is never negative |
| `FreezeMembership.CheckFreezeStatusDaysNonNegative` | src/hooks/useFreezeMembership.js:82-91 | the reported total of freeze days is never negative |
| `Stats.StatusCountsPartition` | src/hooks/useStats.js:12-14 | the active, frozen and expired counts add up to the number of customers |
| `Stats.LowSessionsAmongActive` | src/hooks/useStats.js:78-80 | the low-session count is at most the active count |
| `Stats.MonthCount` | src/hooks/useStats.js:26-30 | a month's session count is at most the number of records |
| `Stats.MonthlyRevenue` | src/hooks/useStats.js:52-70 | the chart has six entries, oldest first; entry `j` is the month `5 - j` months back, and its revenue is the session price times that month's records, so a multiple of 50 |
| `Stats.Entries` | src/hooks/useStats.js:35-49 | one row per class, in class order, each the row for that class |
| `Stats.SortByAttendance` | src/hooks/useStats.js:50 | sorting keeps the length and the rows |
| `Stats.SortSorted` | src/hooks/useStats.js:50 | the sorted table is in non-increasing order of attendance |
| `Stats.SortStable` | src/hooks/useStats.js:50 | rows with equal attendance keep their order |
| `Stats.SortSum` | src/hooks/useStats.js:50 | sorting does not change the total attendance |
| `Stats.EntriesSumBound` | src/hooks/useStats.js:35-38 | with distinct class ids the rows' attendance totals at most the number of records |
| `Stats.ClassPopularityFacts` | src/hooks/useStats.js:35-50 | the popularity table is sorted, is a permutation of one row per class, keeps ties in class order, and with distinct ids totals at most the records |
| `Stats.PopularityCoversClasses` | src/hooks/useStats.js:35-45 | each class has its row, carrying its id and the number of records naming it |
| `Stats.ComputeStats` | src/hooks/useStats.js:10-97 | the dashboard's counts, incomes (50 per session, the month's at most the total), low-session count, popularity table and revenue chart are as stated above |
| `FormatDate.Abs` | src/utils/formatDate.js:39 | the absolute value is non-negative and is the argument or its negation |
| `FormatDate.CeilDays` | src/utils/formatDate.js:40 | the result is the least whole number of days covering the milliseconds |
| `FormatDate.CeilDaysUnique` | src/utils/formatDate.js:40 | any whole number of days that covers the milliseconds tightly is the result |
| `FormatDate.DaysBetween` | src/utils/formatDate.js:36-42 | the day difference is defined exactly for two valid dates and is never negative |
| `FormatDate.DaysBetweenSymmetric` | src/utils/formatDate.js:39 | the difference does not depend on the argument order |
| `FormatDate.DaysBetweenSame` | src/utils/formatDate.js:39-40 | a date is 0 days from itself |
| `FormatDate.DaysBetweenWholeDays` | src/utils/formatDate.js:40 | instants exactly k days apart are \|k\| days apart |
| `FormatDate.DaysBetweenUnderADay` | src/utils/formatDate.js:40 | any positive gap under a day counts as 1 day |
| `FormatDate.IsPast` | src/utils/formatDate.js:49-51 | only a valid date can be in the past |
| `FormatDate.IsFuture` | src/utils/formatDate.js:58-60 | only a valid date can be in the future |
| `FormatDate.PastFutureExclusive` | src/utils/formatDate.js:49-60 | a date is never both past and future, and is neither exactly when it is invalid or equals now |
| `FormatDate.FormatWith` | src/utils/formatDate.js:6-28 | `formatDate` and `formatTime` alike render an empty date as 'N/A' and a valid one through their locale rendering |
| `CustomerProfilePage.ProfileCustomer` | src/pages/CustomerProfilePage.jsx:22-27 | a route id that does not parse finds no customer; one that parses finds the customer with the parsed id |
| `CustomerProfilePage.ProfileOfOwnId` | src/pages/CustomerProfilePage.jsx:22-27 | a customer's own id, followed by any non-digit text, opens that customer's profile |
| `CustomerProfilePage.NonNumericRouteNotFound` | src/pages/CustomerProfilePage.jsx:22-48 | a route id without digits renders the not-found view |
| `CustomerProfilePage.ClassDetails` | src/pages/CustomerProfilePage.jsx:50-65 | the rows are the enrolled ids whose class exists, in enrolment order, each with the balance (0 if absent) and the cost per visit (1 if 0) |
| `CustomerProfilePage.EnrolledClassDetailsComplete` | src/pages/CustomerProfilePage.jsx:50-65 | the table has at most one row per enrolled class, and all of them when every enrolled class exists |
| `CustomerProfilePage.WhatsAppNumberShape` | src/pages/CustomerProfilePage.jsx:123-141 | the number-less branch is taken exactly when the phone has no digit; a chat number is all digits and never starts with '0' |
| `CustomerProfilePage.WhatsAppNumberPassThrough` | src/pages/CustomerProfilePage.jsx:140-141 | digits not starting with '0' are used unchanged |
| `CustomerProfilePage.WhatsAppNumberTrunkPrefix` | src/pages/CustomerProfilePage.jsx:141 | a leading trunk '0' becomes the country code "20" |
| `CustomerProfilePage.WhatsAppNumberInternationalPrefix` | src/pages/CustomerProfilePage.jsx:140 | a leading "00" is dropped |
| `CustomerProfilePage.WhatsAppNumberTripleZero` | src/pages/CustomerProfilePage.jsx:140-141 | only one "00" is dropped, so "000" followed by a national number becomes "20" followed by it |
| `CustomerProfilePage.WhatsAppNumberOfDoubleZero` | src/pages/CustomerProfilePage.jsx:140 | a phone of just "00" opens a chat with an empty number |
| `CustomerProfilePage.CardFileNameShape` | src/pages/CustomerProfilePage.jsx:169 | the file name ends with "_virtual_card.png", its stem has no whitespace, and the stem keeps the name's other text |
| `CustomerProfilePage.HandleClockIn` | src/pages/CustomerProfilePage.jsx:71-78 | with no class selected nothing is called and nothing changes; otherwise the parsed selection is passed to `clockIn` |
| `CustomerProfilePage.HandleAddSessions` | src/pages/CustomerProfilePage.jsx:179-189 | with an empty count nothing is called and nothing changes; otherwise `addSessions` gets the count and the selection, empty meaning none |
| `CustomersPage.FilteredCustomers` | src/pages/CustomersPage.jsx:51-68 | the list is an order-preserving subsequence of the customers, holding exactly those that match the search and the status filter |
| `CustomersPage.EmptySearchMatches` | src/pages/CustomersPage.jsx:53-57 | every customer matches the empty search |
| `CustomersPage.ShowAll` | src/pages/CustomersPage.jsx:51-66 | an empty search with filter 'all' lists every customer |
| `CustomersPage.StatusFilterExact` | src/pages/CustomersPage.jsx:63-64 | a status filter keeps only customers with exactly that status |
| `CustomersPage.LowSessionsFilter` | src/pages/CustomersPage.jsx:61-62 | 'low-sessions' keeps only active customers with fewer than five remaining sessions |
| `CustomersPage.UnknownFilterShowsNone` | src/pages/CustomersPage.jsx:63-64 | a filter value naming no status and no special rule shows nobody |
| `CustomersPage.NameAndEmailIgnoreCase` | src/pages/CustomersPage.jsx:54-56 | lower-casing the term or the stored name and email does not change a match |
| `CustomersPage.PhoneMatchesRaw` | src/pages/CustomersPage.jsx:55 | a term occurring anywhere in the stored phone is a match |
| `CustomersPage.FilterCountsMatchList` | src/pages/CustomersPage.jsx:18-49 | with an empty search, each filter button's count is the length of the list its filter shows |
| `CustomerCard.StatusClass` | src/components/Customer/CustomerCard.jsx:5-16 | active, frozen and expired get 'badge ' plus the status; anything else gets 'badge' |
| `CustomerCard.StatusClassOfStatus` | src/components/Customer/CustomerCard.jsx:5-16 | every status the application writes gets its own badge |
| `CustomerCard.TotalSessionsNonNegative` | src/components/Customer/CustomerCard.jsx:19-21 | with non-negative balances the card's total is non-negative |
| `CustomerCard.TotalSessionsAfterClassTopUp` | src/components/Customer/CustomerCard.jsx:19-21 | a class top-up raises the total by the count; a customer with no class balances starts from 0 |
| `CustomerCard.TotalSessionsIgnoresDropIn` | src/components/Customer/CustomerCard.jsx:19-21 | a drop-in top-up does not change the total |
| `CustomerCard.TotalSessionsAfterVisit` | src/components/Customer/CustomerCard.jsx:19-21 | a visit the balance covers lowers the total by exactly its cost |
| `CustomerCard.SessionWarning` | src/components/Customer/CustomerCard.jsx:23-27 | 'critical' exactly for 0, 'low' exactly for other values below 5, and '' exactly for 5 or more |
| `CustomerCard.EnrolledCountGrows` | src/components/Customer/CustomerCard.jsx:69 | a class top-up or a visit adds one to the enrolled count exactly when the class was not listed, and never removes one |
| `CustomerForm.FindMembership` | src/components/Customer/CustomerForm.jsx:22-39 | the lookup returns the catalog entry with that name, or nothing when no entry has it |
| `CustomerForm.AutoFillingMembershipsArePositive` | src/components/Customer/CustomerForm.jsx:22-31 | every catalog entry other than 'Custom' grants sessions, lasts at least a month and costs something |
| `CustomerForm.ChoosingMembershipApplies` | src/components/Customer/CustomerForm.jsx:38-49 | with a start date set, choosing a catalog membership other than 'Custom' sets the sessions and fee to its values and the end date from the start date |
| `CustomerForm.ChoosingMembershipWithoutStartDate` | src/components/Customer/CustomerForm.jsx:35-49 | with the start date cleared, choosing any membership changes only its name: the invalid date makes `toISOString` throw before sessions, fee and end date are set |
| `CustomerForm.ChoosingCustomKeeps` | src/components/Customer/CustomerForm.jsx:38-40 | choosing 'Custom' or an unknown name changes only the membership name |
| `CustomerForm.ChangingStartDate` | src/components/Customer/CustomerForm.jsx:52-63 | a new start date moves the end date along under a catalog membership; a cleared start date, or another membership, changes only itself |
| `CustomerForm.OtherInputsAssignOnly` | src/components/Customer/CustomerForm.jsx:33-35 | every other input sets its own field only |
| `CustomerForm.Validate` | src/components/Customer/CustomerForm.jsx:66-78 | one error under each failing field's own key; valid exactly when name, phone and email are not blank, both dates are given and sessions are positive |
| `CustomerForm.InitialDraftFollowsCatalog` | src/components/Customer/CustomerForm.jsx:8-18 | the opening sessions and fee are the opening membership's, and the opening form is not valid |
| `CustomerForm.CustomerFormState.constructor` | src/components/Customer/CustomerForm.jsx:8-20 | the form opens with the initial values and no errors |
| `CustomerForm.CustomerFormState.HandleChange` | src/components/Customer/CustomerForm.jsx:33-64 | the form becomes the change applied to the old form, the auto-fill skipped when the date it reads is empty; the errors are kept |
| `CustomerForm.CustomerFormState.HandleSubmit` | src/components/Customer/CustomerForm.jsx:80-88 | `addCustomer` is called exactly when the form is valid; otherwise the store is unchanged |
| `ClassForm.EditForm` | src/components/Class/ClassForm.jsx:21-33 | editing loads the stored fields, with cost per visit 1, monthly fee 100 and drop-in fee 20 where the stored value is 0 |
| `ClassForm.SavingUntouchedEdit` | src/components/Class/ClassForm.jsx:21-33 | saving an untouched edit keeps the class's id, enrolled count and cost per visit, and writes back the stored class when its fees and cost are non-zero |
| `ClassForm.Validate` | src/components/Class/ClassForm.jsx:41-51 | one error under each failing field's own key; valid exactly when name, instructor and schedule are not blank and capacity is positive |
| `ClassForm.ValidityIgnoresFees` | src/components/Class/ClassForm.jsx:41-50 | the cost per visit and the two fees never change validity |
| `ClassForm.NewFormNeedsNaming` | src/components/Class/ClassForm.jsx:8-17 | the opening form is invalid, and becomes valid exactly when name, instructor and schedule are filled in |
| `ClassForm.ClassFormState.constructor` | src/components/Class/ClassForm.jsx:8-34 | a new form opens with capacity 20, cost 1, monthly fee 100 and drop-in fee 20; an edit form loads the class being edited |
| `ClassForm.ClassFormState.HandleChange` | src/components/Class/ClassForm.jsx:36-39 | the input's field takes the new value |
| `ClassForm.ClassFormState.HandleSubmit` | src/components/Class/ClassForm.jsx:53-65 | an invalid form changes nothing in the store; a valid one calls `updateClass` with every form field when editing, and `addClass` otherwise |
| `JsString.TrimEmptyIffBlank` | src/components/Customer/CustomerForm.jsx:69-71 | a string trims to empty exactly when it is all whitespace |
| `JsString.ParseIntOfIntToString` | src/pages/CustomerProfilePage.jsx:23 | `parseInt` reads back a number's decimal text, ignoring any non-digit text after it |
| `JsString.ParseIntWithoutDigits` | src/pages/CustomerProfilePage.jsx:23-24 | `parseInt` of text with no digit is NaN |

## Left out

- Persistence to browser storage (src/context/DataContext.jsx:98-124) is not modelled. The
  repository starts from the collections it is given, and every operation is an immediate,
  atomic update of them.
- React mechanics are not modelled: hooks, memoisation, batched and asynchronous state updates,
  and stale closures. Every call sees the latest state. `handleChange` in the customer form
  performs its two state updates in sequence; when the second one is never reached because an
  empty date makes `toISOString` throw, the first one still takes effect.
- Clock and id sources (`Date.now()`, `new Date()`) are parameters. Fresh ids are not proved
  unique. Duplicate ids are allowed. Lookups find the first match, and updates and deletes act
  on every match, as the source does. An update merges the patch built from the first match into
  every match, so a later record with the same id takes the first one's enrolment list or freeze
  history; the "grows" lemmas speak of the record a lookup finds, not of every duplicate.
- Calendar arithmetic is left out. The customer form's end date (`setMonth`, then the ISO date)
  is a parameter `addMonths`. The dashboard's month of a timestamp is a parameter `monthOf`, and
  "i months back" is month number minus i.
- Floating point and locale formatting are left out: `toFixed` utilisation and the average
  sessions per customer, progress widths, `formatCurrency`, and the `toLocale*String`
  renderings, which are the parameter `render` of `FormatWith`.
- Foreign calls in the card sharing handlers are left out: html2canvas, the Web Share API,
  `window.open`, `document.write` and the QR code. Only the phone rewrite and the file name
  are modelled.
- The profile page's `message` state and its timers are UI and are left out.
- JavaScript type coercion of form inputs is left out. Form values are modelled as `int` or
  `string`. Ids are numbers, so string/number comparison of ids is not modelled.
- `enrolledCount` is a separately edited display figure. It is set to 0 on creation, kept by
  updates, and never linked to enrolment.
- The profile page's session total (src/pages/CustomerProfilePage.jsx:67-69) is the same
  expression as the card's. Both are `CustomerCard.TotalSessions`.
- CustomersPage.NameAndEmailIgnoreCase: `toLowerCase` is modelled on ASCII letters only. Other
  characters are left as they are.
- JsString.ParseIntOfIntToString: integers are unbounded. `parseInt` of a digit string too long
  for a double (which gives a rounded or infinite value) is not modelled.
- Routing, login, the role flag, navigation, search and filter widgets, the class list, the
  dashboard panel, the customer detail view and the attendance tracker render or forward only.
  They are not part of this model.
