# BoardPay billing core in Dafny

BoardPay is a boarding-house management system. Landlords keep buildings, floors and
rooms, take in tenants, read electricity meters and bill each tenant once a month.
This project models the billing core of the system and proves properties of that model:

- the monthly bill engine: which tenants are due on a date, when a bill falls due,
  how each fee is resolved, the monthly run, the initial bill, the backfill of missing
  months, the overdue sweep with its late fee, and payment processing;
- the bill record (its six statuses and its derived total) and the meter reading
  (its usage and charge);
- the null-safe fee lookups on a tenant's room;
- the meter-reading service and its fail-soft variant, which is the one the billing
  code is wired to (`BoardPaySystem/Program.cs:46`);
- the landlord's bill screens: late-fee display, recorded, approved and batch payments,
  linking a reading to a bill, approving a bill, the landlord's initial-bill action;
- the tenant's bill screens: which bills a tenant sees, starting, confirming and
  cancelling a cash payment;
- the landlord's overview screens and actions: the unpaid overview, a tenant's bills,
  the unpaid check, the write-off, past-bill generation, the monthly income summary,
  adding, moving and archiving a tenant, and the manual meter-reading form.

The modules follow the source files:

| module | file | models |
|---|---|---|
| `Wrappers` | `wrappers.dfy` | `Option` and `Result` |
| `Calendar` | `calendar.dfy` | the `DateTime` arithmetic the code relies on |
| `BillModel` | `bill.dfy` | `Models/Bill.cs`, `Models/Payment.cs` |
| `MeterModel` | `meter_reading.dfy` | `Models/MeterReading.cs` |
| `Entities` | `entities.dfy` | users, rooms, floors, buildings and their navigations |
| `EntityExtensions` | `entity_extensions.dfy` | `Models/EntityExtensions.cs` |
| `MeterReadingService` | `meter_reading_service.dfy` | `Services/MeterReadingService.cs` |
| `ResilienceMeterReadingService` | `resilience_meter_reading_service.dfy` | `Services/ResilienceMeterReadingService.cs` |
| `Store` | `store.dfy` | the database context: a class whose tables are sequences |
| `BillingService` | `billing_service.dfy` | the pure rules of `Services/BillingService.cs` |
| `BillingRuns` | `billing_runs.dfy` | the store operations of `Services/BillingService.cs` |
| `BillingController` | `billing_controller.dfy` | `Controllers/BillingController.cs` |
| `TenantController` | `tenant_controller.dfy` | `Controllers/TenantController.cs` |
| `LandlordBilling` | `landlord_billing.dfy` | the billing actions of `Controllers/LandlordController.cs` |
| `LandlordTenancy` | `landlord_tenancy.dfy` | the tenancy and meter-reading actions of `Controllers/LandlordController.cs` |

Modelling conventions:

- Money is an exact `real`.
- A date is a year, a month and a day; a value that is not a calendar date cannot be
  built, because that is where `DateTime` throws.
- "Today" and "now", and the time stamps written into notes, are parameters.
- The store is the class `Store.Database`. Its tables are sequences. A bill's or a
  reading's id is its position in its table; no operation in the core deletes a row.
- A lookup by id returns the first match, as `FirstOrDefaultAsync` does.
- An exception becomes an `Err` value, or an `aborted` field of a run's outcome. Rows
  saved before the exception stay saved.
- A database failure in the fail-soft reading service is a `failed` flag or a `Fault`
  value given by the caller.

The backfill (`BoardPaySystem/Services/BillingService.cs:403-429`) only calls the
monthly generator, which creates an unpaid bill; the model does the same.

## Model

| member | source | states |
|---|---|---|
| `Calendar.DaysInMonth` | BoardPaySystem/Services/BillingService.cs:392 | a month has 28 to 31 days; February has 29 exactly in a leap year; other months have at least 30 |
| `Calendar.LastOfMonth` | BoardPaySystem/Services/MeterReadingService.cs:87-90 | `first.AddMonths(1).AddDays(-1)` is the month's last day |
| `Calendar.ClampedDate` | BoardPaySystem/Services/BillingService.cs:392-393 | the date in the given month whose day is the smaller of the wanted day and the month's length |
| `Calendar.NextMonth` | BoardPaySystem/Services/BillingService.cs:385-391 | the following month, December rolling over to January of the next year |
| `Calendar.AddOneMonth` | BoardPaySystem/Services/BillingService.cs:425 | `AddMonths(1)` lands in the next month, on the same day clamped to that month's length |
| `Calendar.BeforeByMonth` | BoardPaySystem/Services/BillingService.cs:414 | dates compare by month first, then by day |
| `Calendar.InMonthWindowIsSameMonth` | BoardPaySystem/Services/MeterReadingService.cs:137-155 | a date lies between the first and last day of a month exactly when it is in that month |
| `Calendar.FirstOfMonthAtOrBefore` | BoardPaySystem/Services/BillingService.cs:411-414 | the first of a month is on or before today exactly when its month is not after today's |
| `BillModel.Amount` | BoardPaySystem/Models/Bill.cs:90-94 | `Amount` is the total: the four charges plus late fee and other fees, a null read as zero |
| `BillModel.OtherCharges` | BoardPaySystem/Models/Bill.cs:103 | other charges are the other fees, or zero when null |
| `BillModel.NewBill` | BoardPaySystem/Models/Bill.cs:57-90 | a new bill is unapproved, has no late fee, other fees or payment, and totals its four charges |
| `BillModel.TotalDependsOnlyOnCharges` | BoardPaySystem/Models/Bill.cs:90 | the total depends only on the six money fields, never on status or payment fields |
| `BillModel.TotalTracksComponentEdits` | BoardPaySystem/Models/Bill.cs:90 | editing a charge moves the total by exactly the change in that charge |
| `BillModel.SettingLateFeeRaisesTotal` | BoardPaySystem/Models/Bill.cs:57-90 | setting a null or zero late fee to x raises the total by exactly x |
| `MeterModel.NewReading` | BoardPaySystem/Models/MeterReading.cs:40 | a new reading is not linked to any bill |
| `MeterModel.UsageKwh` | BoardPaySystem/Models/MeterReading.cs:28-29 | usage is current minus previous, never negative, and zero without a previous reading |
| `MeterModel.TotalCharge` | BoardPaySystem/Models/MeterReading.cs:35 | the charge is the advance of the meter times the rate; zero without a previous reading or when the meter did not advance, and never negative at a non-negative rate |
| `Entities.FirstIndex` | BoardPaySystem/Services/BillingService.cs:56-64 | the position of the first matching key, or none exactly when no key matches |
| `Entities.UserIndex` | BoardPaySystem/Services/BillingService.cs:56-64 | the position of the first account with the id, or none exactly when no account has it |
| `Entities.RoomIndex` | BoardPaySystem/Services/BillingService.cs:56-64 | the position of the first room with the id, or none exactly when no room has it |
| `Entities.ResolveChain` | BoardPaySystem/Services/BillingService.cs:56-64 | the tenant, its current room and that room's building; the failure says which link was missing |
| `EntityExtensions.GetRoomId` | BoardPaySystem/Models/EntityExtensions.cs:6-9 | the current room's id, or 0 without a current room |
| `EntityExtensions.GetRoomFee` | BoardPaySystem/Models/EntityExtensions.cs:11-85 | a room override wins even when zero; then the room's own building default; then the supplied building's; then zero |
| `EntityExtensions.GetRoomFeeWithLoadedChain` | BoardPaySystem/Models/EntityExtensions.cs:11-85 | once the room's building is loaded, the supplied building never matters |
| `EntityExtensions.GetRoomFeeIsACandidate` | BoardPaySystem/Models/EntityExtensions.cs:11-85 | every fee returned is one of the three candidates or zero |
| `MeterReadingService.TenantReadings` | BoardPaySystem/Services/MeterReadingService.cs:66-72 | exactly the tenant's readings |
| `MeterReadingService.PeriodReadings` | BoardPaySystem/Services/MeterReadingService.cs:76-81 | exactly the tenant's readings dated within the period, each as often as stored |
| `MeterReadingService.MonthReadings` | BoardPaySystem/Services/MeterReadingService.cs:93-96 | exactly the tenant's readings dated in the month of the given date |
| `MeterReadingService.InsertByDate` | BoardPaySystem/Services/MeterReadingService.cs:80 | inserting into a date-sorted list keeps it sorted and adds exactly the one reading |
| `MeterReadingService.SortByDate` | BoardPaySystem/Services/MeterReadingService.cs:80 | `OrderBy(ReadingDate)`: sorted by date and a permutation of its input |
| `MeterReadingService.Latest` | BoardPaySystem/Services/MeterReadingService.cs:68-71 | a reading of the list dated no earlier than any other, and none only for an empty list |
| `MeterReadingService.GetLatestReading` | BoardPaySystem/Services/MeterReadingService.cs:66-72 | the tenant's latest-dated reading, and none exactly when the tenant has no reading |
| `MeterReadingService.GetReadingsForPeriod` | BoardPaySystem/Services/MeterReadingService.cs:74-82 | the tenant's readings within `[start, end]`, sorted by date, each as often as stored |
| `MeterReadingService.CalculateElectricityCharge` | BoardPaySystem/Services/MeterReadingService.cs:84-108 | zero without a reading in the month; otherwise the charge of the month's latest reading |
| `MeterReadingService.UsersWithIds` | BoardPaySystem/Services/MeterReadingService.cs:127-129 | exactly the accounts whose id is in the set |
| `MeterReadingService.GetTenantsWithCompletedReadings` | BoardPaySystem/Services/MeterReadingService.cs:110-132 | exactly the accounts with a reading in the current month |
| `MeterReadingService.HasCompletedReadingMeansReadingInMonth` | BoardPaySystem/Services/MeterReadingService.cs:134-157 | true exactly when the query succeeds and the tenant has a reading in the billing month; false on error |
| `MeterReadingService.ReadingToRecord` | BoardPaySystem/Services/MeterReadingService.cs:19-64 | refused exactly when the tenant, room, floor or building is missing; otherwise unlinked, rated at the room override or building default, and continuing from the latest reading's value (none for a first reading) |
| `MeterReadingService.RecordReading` | BoardPaySystem/Services/MeterReadingService.cs:19-64 | the reading is appended exactly when it can be built; otherwise nothing is stored |
| `MeterReadingService.RecordedReadingBecomesLatest` | BoardPaySystem/Services/MeterReadingService.cs:19-72 | a reading dated no earlier than the tenant's others becomes the tenant's latest |
| `ResilienceMeterReadingService.RecordOutcome` | BoardPaySystem/Services/ResilienceMeterReadingService.cs:23-108 | stored exactly when nothing fails and the room chain exists, and then as the plain service stores it; every fallback reading starts from 0, at rate 5 after an outer failure, 0 after a failed previous-reading query, the real rate after a failed save |
| `ResilienceMeterReadingService.RecordReading` | BoardPaySystem/Services/ResilienceMeterReadingService.cs:23-108 | the store gains the reading exactly when it was stored, and the reading is returned either way |
| `ResilienceMeterReadingService.GetLatestReading` | BoardPaySystem/Services/ResilienceMeterReadingService.cs:110-124 | none on error, otherwise the plain service's answer |
| `ResilienceMeterReadingService.GetReadingsForPeriod` | BoardPaySystem/Services/ResilienceMeterReadingService.cs:126-142 | empty on error, otherwise the tenant's readings within the period, sorted |
| `ResilienceMeterReadingService.CalculateElectricityCharge` | BoardPaySystem/Services/ResilienceMeterReadingService.cs:144-190 | 500 on error; the plain charge when the month has a reading; otherwise the building default rate times 100 kWh, or 500 without a building |
| `ResilienceMeterReadingService.GetTenantsWithCompletedReadings` | BoardPaySystem/Services/ResilienceMeterReadingService.cs:192-222 | no one on error, otherwise exactly the accounts with a reading in the month |
| `ResilienceMeterReadingService.HasCompletedReadingForBillingPeriod` | BoardPaySystem/Services/ResilienceMeterReadingService.cs:224-250 | true on error or when the tenant has a reading in the month, so an error answers the opposite of the plain service |
| `Store.FindBill` | BoardPaySystem/Services/BillingService.cs:223-227 | a bill is found exactly when its id is a position in the table |
| `BillingService.EffectiveBillingDay` | BoardPaySystem/Services/BillingService.cs:368-379 | the start day clamped to the month: a valid day, never after the start day, equal to it or the month's last day |
| `BillingService.CalculateBillDueDate` | BoardPaySystem/Services/BillingService.cs:382-394 | due in the month after the billing month (December rolls to January) on the clamped anchor day |
| `BillingService.DueDateIsLaterBillingDay` | BoardPaySystem/Services/BillingService.cs:368-394 | a bill falls due after its billing date, on a billing day of the tenant |
| `BillingService.CalculateNextBillingDate` | BoardPaySystem/Services/BillingService.cs:321-365 | a billing day of the tenant not before the given date, in its month or the next |
| `BillingService.NextBillingDateIsFirst` | BoardPaySystem/Services/BillingService.cs:321-379 | no billing day lies between the given date and the next billing date |
| `BillingService.BillingDayUniqueInMonth` | BoardPaySystem/Services/BillingService.cs:368-379 | a tenant has one billing day per month |
| `BillingService.ResolveFee` | BoardPaySystem/Services/BillingService.cs:85-104 | a non-zero override, else a non-zero building default, else the fallback; a non-zero fallback gives a non-zero fee |
| `BillingService.GeneratedFeesAreNeverZero` | BoardPaySystem/Services/BillingService.cs:85-104 | rent, water and wifi of a generated bill are never zero, so the zero-fee warning cannot fire |
| `BillingService.BillElectricityFee` | BoardPaySystem/Services/BillingService.cs:108-118 | zero with fewer than two readings in the month, otherwise the charge of the month's latest reading |
| `BillingService.MonthlyBill` | BoardPaySystem/Services/BillingService.cs:84-135 | the generated bill: keyed on the billing date's month, due per the due-date rule, resolved fees, unpaid and unapproved |
| `BillingService.BillForTenant` | BoardPaySystem/Services/BillingService.cs:47-140 | fails exactly when the tenant, room, floor or building is missing, with that error; otherwise the monthly bill |
| `BillingService.InitialBill` | BoardPaySystem/Services/BillingService.cs:164-203 | billed on the first of the start month, due a month after the start date (clamped), no electricity, unpaid |
| `BillingService.InitialBillDueMatchesMonthlyRule` | BoardPaySystem/Services/BillingService.cs:164-203 | the initial bill's due date is what the monthly due-date rule gives for the start month |
| `BillingService.InitialBillForTenant` | BoardPaySystem/Services/BillingService.cs:142-219 | fails exactly when the room chain is missing; otherwise the initial bill |
| `BillingService.ProcessedBill` | BoardPaySystem/Services/BillingService.cs:229-233 | paid now with the reference and amount; nothing else changes, so the total is kept |
| `BillingService.SweepBill` | BoardPaySystem/Services/BillingService.cs:255-285 | an unpaid or pending bill past due becomes overdue; a null or zero late fee becomes the building's percentage of the total; a non-zero late fee is kept; nothing else changes |
| `BillingService.SweepBillIdempotent` | BoardPaySystem/Services/BillingService.cs:255-285 | sweeping twice on one day equals sweeping once |
| `BillingRuns.WithRoom` | BoardPaySystem/Services/BillingService.cs:293-295 | exactly the accounts with a room |
| `BillingRuns.DueAmong` | BoardPaySystem/Services/BillingService.cs:301-316 | exactly the listed tenants that are due |
| `BillingRuns.GetTenantsWithDueBills` | BoardPaySystem/Services/BillingService.cs:290-319 | the due tenants among the accounts with a room |
| `BillingRuns.DueTenantsAreExactly` | BoardPaySystem/Services/BillingService.cs:290-319 | due exactly when the tenant has a room, it is their billing day, and it is their first month or they have a reading this month |
| `BillingRuns.GenerateBillForTenant` | BoardPaySystem/Services/BillingService.cs:47-140 | the bill is appended exactly when it can be built; otherwise nothing changes |
| `BillingRuns.GeneratorIsKeyed` | BoardPaySystem/Services/BillingService.cs:47-140 | a generated bill belongs to the tenant asked for and is keyed on the billing date's month |
| `BillingRuns.GenerateMonthlyBills` | BoardPaySystem/Services/BillingService.cs:22-46 | the store ends as the monthly run over the due tenants leaves it; the count or the error that stopped it is returned |
| `BillingRuns.GenerateForDue` | BoardPaySystem/Services/BillingService.cs:28-43 | the loop skips a tenant already billed in the month, stops at a failed generation, and appends the others' bills |
| `BillingRuns.GeneratorApplies` | BoardPaySystem/Services/BillingService.cs:40 | the run's generator is the tenant bill generation |
| `BillingRuns.MonthlyRunStep` | BoardPaySystem/Services/BillingService.cs:28-43 | one tenant of the run: skipped when billed, stopping on error, or appended and counted |
| `BillingRuns.MonthlyRunAppends` | BoardPaySystem/Services/BillingService.cs:22-46 | a run only appends, and appends as many bills as it reports |
| `BillingRuns.HasBillDatedInMonthGrows` | BoardPaySystem/Services/BillingService.cs:31-35 | appending bills keeps every existing month bill |
| `BillingRuns.MonthlyRunCovers` | BoardPaySystem/Services/BillingService.cs:22-46 | after a complete run every due tenant has a bill dated in the month |
| `BillingRuns.MonthlyRunOverCoveredIsNoop` | BoardPaySystem/Services/BillingService.cs:31-35 | a run over tenants all billed in the month creates nothing |
| `BillingRuns.MonthlyRunRerunCreatesNothing` | BoardPaySystem/Services/BillingService.cs:22-46 | running the monthly generation twice on a date: the second run creates nothing |
| `BillingRuns.MonthlyRunKeepsOneBillPerTenantMonth` | BoardPaySystem/Services/BillingService.cs:31-35 | the run never creates a second bill for a tenant and month |
| `BillingRuns.GenerateInitialBillForTenant` | BoardPaySystem/Services/BillingService.cs:142-219 | the initial bill is appended exactly when it can be built |
| `BillingRuns.ProcessPayment` | BoardPaySystem/Services/BillingService.cs:221-248 | false for an unknown bill with nothing changed; otherwise the bill is paid and one in-person payment of the amount is added |
| `BillingRuns.SweepAll` | BoardPaySystem/Services/BillingService.cs:255-285 | every bill swept with its own room's building |
| `BillingRuns.UpdateBillStatuses` | BoardPaySystem/Services/BillingService.cs:250-288 | the bill table becomes its sweep |
| `BillingRuns.SweepAllProperties` | BoardPaySystem/Services/BillingService.cs:255-285 | after the sweep no bill is open past due, no non-zero late fee changed, and a second sweep changes nothing |
| `BillingRuns.BillMonths` | BoardPaySystem/Services/BillingService.cs:413 | the set of (month, year) keys of the tenant's bills |
| `BillingRuns.BackfillBillsForAllTenants` | BoardPaySystem/Services/BillingService.cs:403-429 | the store ends as the backfill over the accounts with a room leaves it; the count or the error that stopped it is returned |
| `BillingRuns.HasBillForMonthGrows` | BoardPaySystem/Services/BillingService.cs:413-423 | appending bills keeps every existing month key |
| `BillingRuns.BackfillTenantAppends` | BoardPaySystem/Services/BillingService.cs:414-426 | a tenant's backfill only appends, and as many bills as it counts |
| `BillingRuns.BackfillTenantCovers` | BoardPaySystem/Services/BillingService.cs:414-426 | after a tenant's complete backfill, every month from the start month through today's has a bill |
| `BillingRuns.BackfillTenantOverCoveredIsNoop` | BoardPaySystem/Services/BillingService.cs:416-418 | over months that all have a bill, the backfill creates nothing |
| `BillingRuns.BackfillAllCovers` | BoardPaySystem/Services/BillingService.cs:403-429 | after a complete backfill, every tenant with a room has a bill for each month from its start month through today's, and the count is the number of bills added |
| `BillingRuns.BackfillAllOverCoveredIsNoop` | BoardPaySystem/Services/BillingService.cs:403-429 | a backfill over tenants whose months are all billed creates nothing |
| `BillingRuns.BackfillRerunCreatesNothing` | BoardPaySystem/Services/BillingService.cs:403-429 | running the backfill twice on one day: the second run creates nothing |
| `BillingController.OverdueDisplay` | BoardPaySystem/Controllers/BillingController.cs:67-100 | shown for an overdue bill, or an open one past due, when the building is known: late fee = the four charges times the percentage, adjusted total = total + that − stored late fee |
| `BillingController.BillDetails` | BoardPaySystem/Controllers/BillingController.cs:46-108 | not found exactly for an unknown id; otherwise the bill and its overdue block |
| `BillingController.SweepKeepsDisplayedTotal` | BoardPaySystem/Controllers/BillingController.cs:67-100 | the adjusted total shown is the same before and after the sweep stores the late fee |
| `BillingController.DisplayedLateFeeIsSweptLateFee` | BoardPaySystem/Controllers/BillingController.cs:67-100 | without other fees, the displayed late fee is the one the sweep stores |
| `BillingController.PaymentApplied` | BoardPaySystem/Controllers/BillingController.cs:241-287 | the amount is added to what was paid; paid in full becomes Paid, a positive part payment Pending; the total is kept |
| `BillingController.RecordPayment` | BoardPaySystem/Controllers/BillingController.cs:198-303 | an unknown bill or a non-positive amount changes nothing; otherwise the bill is updated, one ledger entry added, and a confirmation raised when paid |
| `BillingController.PaymentsAccumulate` | BoardPaySystem/Controllers/BillingController.cs:241-287 | after positive payments the amount paid is their sum, and the bill is Paid exactly when that reaches the total, else Pending |
| `BillingController.SumOfPositive` | BoardPaySystem/Controllers/BillingController.cs:241-249 | positive payments sum to a positive amount |
| `BillingController.PaymentApproved` | BoardPaySystem/Controllers/BillingController.cs:369-378 | paid now with the amount paid overwritten; the total is kept |
| `BillingController.ApprovePayment` | BoardPaySystem/Controllers/BillingController.cs:357-408 | only a pending bill is approved; it becomes paid, one cash payment and one confirmation are added |
| `BillingController.ApprovalOverwritesAmountPaid` | BoardPaySystem/Controllers/BillingController.cs:241-249 | approval and a recorded payment agree on the amount paid exactly when nothing was paid before |
| `BillingController.SplitFrom` | BoardPaySystem/Controllers/BillingController.cs:420 | split pieces are non-empty |
| `BillingController.Split` | BoardPaySystem/Controllers/BillingController.cs:420 | `Split(',', RemoveEmptyEntries)` gives non-empty pieces without the separator |
| `BillingController.SplitReadsPiece` | BoardPaySystem/Controllers/BillingController.cs:420 | a piece without separators only extends the current piece |
| `BillingController.SplitJoin` | BoardPaySystem/Controllers/BillingController.cs:420 | splitting a joined list of non-empty pieces gives the pieces back |
| `BillingController.ParseInt32` | BoardPaySystem/Controllers/BillingController.cs:425 | `int.TryParse` succeeds only with a value within 32 bits |
| `BillingController.DecimalString` | BoardPaySystem/Controllers/BillingController.cs:425 | an id's decimal digits are a non-empty string of digits |
| `BillingController.DecimalStringValue` | BoardPaySystem/Controllers/BillingController.cs:425 | reading back an id's digits gives the id |
| `BillingController.ParseDecimalString` | BoardPaySystem/Controllers/BillingController.cs:425 | parsing the digits of a 32-bit id gives the id |
| `BillingController.ParsedIdsOfDecimalStrings` | BoardPaySystem/Controllers/BillingController.cs:423-425 | the ids read from their digit strings are the ids, in order |
| `BillingController.CommaListRoundTrip` | BoardPaySystem/Controllers/BillingController.cs:420-425 | a comma-joined list of bill ids is read back as exactly those ids |
| `BillingController.BatchPaid` | BoardPaySystem/Controllers/BillingController.cs:442-450 | paid in full: amount paid is the total, date, method and reference set, earlier notes kept as a prefix |
| `BillingController.BatchOne` | BoardPaySystem/Controllers/BillingController.cs:427-488 | a missing or paid bill is skipped; any other is paid in full, with one payment of its total and one confirmation |
| `BillingController.BatchRecordPayment` | BoardPaySystem/Controllers/BillingController.cs:410-502 | a blank list is refused with nothing changed; otherwise each parsed id is processed in order and the count returned |
| `BillingController.ParsedIdsStep` | BoardPaySystem/Controllers/BillingController.cs:423-425 | the ids read are those of the first piece, then the rest |
| `BillingController.BatchStep` | BoardPaySystem/Controllers/BillingController.cs:423-493 | a batch is its first id, then the others |
| `BillingController.BatchPaysListedBills` | BoardPaySystem/Controllers/BillingController.cs:412-493 | every listed existing bill ends paid, other and already paid bills are untouched, one payment per processed bill |
| `BillingController.BatchRerunProcessesNothing` | BoardPaySystem/Controllers/BillingController.cs:436-440 | submitting the same batch again processes nothing and changes nothing |
| `BillingController.BatchOverPaidIsNoop` | BoardPaySystem/Controllers/BillingController.cs:431-440 | a batch whose bills are all missing or paid changes nothing |
| `BillingController.LinkOutcome` | BoardPaySystem/Controllers/BillingController.cs:545-550 | refused for an unknown bill or reading, or a reading already linked; otherwise only that reading is linked and only that bill's electricity fee becomes the reading's charge |
| `BillingController.LinkMeterReading` | BoardPaySystem/Controllers/BillingController.cs:537-557 | the tables change as the link outcome says, or not at all when refused |
| `BillingController.ReadingLinksOnce` | BoardPaySystem/Controllers/BillingController.cs:545-550 | once linked, a reading cannot be linked again to any bill |
| `BillingController.GuardedLinkOutcome` | BoardPaySystem/Controllers/BillingController.cs:545-550 | the link with a check on the bill's side: refused as well exactly when the bill already carries a reading; otherwise the action's outcome |
| `BillingController.GuardedLinkKeepsOneReadingPerBill` | BoardPaySystem/Controllers/BillingController.cs:545-550 | the guarded link keeps every bill at one reading at most |
| `BillingController.BillApproved` | BoardPaySystem/Controllers/BillingController.cs:571-575 | approved, and nothing else changes |
| `BillingController.ApproveBill` | BoardPaySystem/Controllers/BillingController.cs:559-600 | an unknown bill changes nothing; otherwise it is approved and a new-bill notice is raised on every call |
| `BillingController.ApprovalIsIdempotent` | BoardPaySystem/Controllers/BillingController.cs:571-575 | approving twice equals approving once |
| `BillingController.ControllerInitialBill` | BoardPaySystem/Controllers/BillingController.cs:313-355 | fails without the room chain, or when the anchor day does not exist this month; otherwise billed on the first, due on the anchor day this month, Pending, month and year left 0 |
| `BillingController.GenerateInitialBill` | BoardPaySystem/Controllers/BillingController.cs:313-355 | the bill is appended exactly when it can be built |
| `BillingController.ControllerInitialBillFailsOnShortMonth` | BoardPaySystem/Controllers/BillingController.cs:337 | a tenant who started on the 31st gets no initial bill in April |
| `BillingController.ClampedControllerInitialBill` | BoardPaySystem/Controllers/BillingController.cs:337 | with the day clamped the bill exists whenever the room chain does, is due this month on the clamped day, and carries this month's keys; it agrees with the action wherever that succeeds |
| `TenantController.VisibleBills` | BoardPaySystem/Controllers/TenantController.cs:38-42 | exactly the tenant's approved bills, in ascending id order |
| `TenantController.ReadingsByBill` | BoardPaySystem/Controllers/TenantController.cs:44-51 | the listed bills that carry a reading, each mapped to a reading linked to it; fails exactly when a listed bill carries two readings |
| `TenantController.BillList` | BoardPaySystem/Controllers/TenantController.cs:35-54 | the tenant's bills and their readings; fails exactly when a bill the tenant sees carries two readings |
| `TenantController.LinkingTwiceBreaksBillList` | BoardPaySystem/Controllers/TenantController.cs:51 | the link action accepts two readings for one visible bill, and the tenant's bill list then fails |
| `TenantController.OneReadingPerBillListLoads` | BoardPaySystem/Controllers/TenantController.cs:35-54 | with every bill at one reading at most, the bill list loads |
| `TenantController.GuardedLinksKeepBillList` | BoardPaySystem/Controllers/TenantController.cs:51 | after a guarded link the bill list still loads |
| `TenantController.FindVisibleBill` | BoardPaySystem/Controllers/TenantController.cs:64 | a bill loads exactly when it is the tenant's and approved |
| `TenantController.DetailsOpenListedBills` | BoardPaySystem/Controllers/TenantController.cs:39-64 | a bill opens on the details page exactly when it is in the tenant's list |
| `TenantController.TenantBillDetails` | BoardPaySystem/Controllers/TenantController.cs:57-104 | refused exactly for a bill the tenant does not see; otherwise the bill and its overdue block |
| `TenantController.TenantSeesLandlordFigures` | BoardPaySystem/Controllers/TenantController.cs:57-104 | the tenant sees the same late-fee figures as the landlord |
| `TenantController.ApprovedBillBecomesVisible` | BoardPaySystem/Controllers/TenantController.cs:39-40 | an approved bill is visible to its tenant and to no one else |
| `TenantController.Initiated` | BoardPaySystem/Controllers/TenantController.cs:176-184 | pending with a `Cash-` reference, nothing else changed |
| `TenantController.InitiatePayment` | BoardPaySystem/Controllers/TenantController.cs:172-190 | any bill of the tenant's becomes pending, whatever its status; another's is refused |
| `TenantController.Confirmed` | BoardPaySystem/Controllers/TenantController.cs:212-215 | paid now with method and reference; the amount paid and the total are kept |
| `TenantController.ConfirmPayment` | BoardPaySystem/Controllers/TenantController.cs:192-236 | only the tenant's pending bill with a reference is confirmed; one payment of the bill's amount is added |
| `TenantController.PaymentCancelled` | BoardPaySystem/Controllers/TenantController.cs:242-252 | unpaid again and without a reference, nothing else changed |
| `TenantController.CancelPayment` | BoardPaySystem/Controllers/TenantController.cs:238-259 | only the tenant's pending bill is cancelled |
| `TenantController.CancelUndoesInitiate` | BoardPaySystem/Controllers/TenantController.cs:176-184 | cancelling undoes starting a payment on an unpaid bill without a reference |
| `TenantController.TenantStep` | BoardPaySystem/Controllers/TenantController.cs:172-259 | starting a payment always leaves the bill pending; the other actions leave a non-pending bill as it is |
| `TenantController.TenantCanUnpayPaidBill` | BoardPaySystem/Controllers/TenantController.cs:176-184 | starting then cancelling a payment turns a paid bill unpaid, with its payment kept |
| `TenantController.GuardedTenantStep` | BoardPaySystem/Controllers/TenantController.cs:176-184 | starting a payment on a bill not owed is refused; everything else is as in the action |
| `TenantController.GuardedStepsKeepPaidBill` | BoardPaySystem/Controllers/TenantController.cs:172-259 | with the guard no run of tenant actions changes a paid bill |
| `TenantController.GuardAgreesOnOwedBills` | BoardPaySystem/Controllers/TenantController.cs:176-184 | on a bill still owed the guard changes nothing |
| `LandlordBilling.UnpaidIsOpen` | BoardPaySystem/Controllers/LandlordController.cs:170 | unpaid (not Paid, Cancelled or WrittenOff) is the same as open (NotPaid, Pending or Overdue) |
| `LandlordBilling.UnpaidOf` | BoardPaySystem/Controllers/LandlordController.cs:170 | exactly the tenant's unpaid bills |
| `LandlordBilling.OpenOfIsUnpaidOf` | BoardPaySystem/Controllers/LandlordController.cs:1668-1670 | the write-off's selection lists the same bills as the overview's, in order |
| `LandlordBilling.SelectedBills` | BoardPaySystem/Controllers/LandlordController.cs:112-156 | exactly the bills that pass the status, period and building filters |
| `LandlordBilling.TenantKeys` | BoardPaySystem/Controllers/LandlordController.cs:160 | each tenant with a bill, once |
| `LandlordBilling.AmountDueCountsLateFeesTwice` | BoardPaySystem/Controllers/LandlordController.cs:182 | the overview's amount due is the unpaid totals plus the late fees again |
| `LandlordBilling.AmountDueOverstatesOverdueBill` | BoardPaySystem/Controllers/LandlordController.cs:182 | a bill of 100 with a late fee of 5 totals 105 but is shown as 110 due |
| `LandlordBilling.AmountDue` | BoardPaySystem/Controllers/LandlordController.cs:182 | the amount due counts each unpaid bill's total once |
| `LandlordBilling.UnpaidTenantIsKey` | BoardPaySystem/Controllers/LandlordController.cs:160-185 | every tenant with an unpaid bill is a group of the overview |
| `LandlordBilling.OverviewOverKeys` | BoardPaySystem/Controllers/LandlordController.cs:160-185 | the overview built over all groups is the overview of the bills |
| `LandlordBilling.SummarizeUnpaid` | BoardPaySystem/Controllers/LandlordController.cs:160-185 | tenants with several unpaid bills, tenants with one, and each one's unpaid count and amount due |
| `LandlordBilling.Billing` | BoardPaySystem/Controllers/LandlordController.cs:100-199 | the backfill and the sweep run first, then the overview summarises the filtered bills; an error comes exactly when the backfill aborts, and then the table holds the bills saved before the abort |
| `LandlordBilling.BillIdsOf` | BoardPaySystem/Controllers/LandlordController.cs:1205-1207 | exactly the ids of the tenant's bills |
| `LandlordBilling.MonthKeys` | BoardPaySystem/Controllers/LandlordController.cs:1225-1228 | exactly the bills' (month, year) keys, with no more keys than bills |
| `LandlordBilling.MonthKeysAreKeySet` | BoardPaySystem/Controllers/LandlordController.cs:1225-1228 | the collected keys are the set of the bills' (month, year) pairs |
| `LandlordBilling.TenantBillsAsWritten` | BoardPaySystem/Controllers/LandlordController.cs:1184-1194 | always an error: the missing id as such, every other id a load failure |
| `LandlordBilling.TenantBillsNeverLoads` | BoardPaySystem/Controllers/LandlordController.cs:1192-1194 | for an existing tenant the page as written fails, while the intended page loads |
| `LandlordBilling.TenantBills` | BoardPaySystem/Controllers/LandlordController.cs:1182-1244 | refused without an id or for an unknown tenant; otherwise all the tenant's bills, the unpaid total, and the number of distinct (month, year) pairs among the unpaid bills |
| `LandlordBilling.CheckUnpaidBills` | BoardPaySystem/Controllers/LandlordController.cs:1683-1693 | whether the tenant has an open bill, and a zero total when not |
| `LandlordBilling.OwedTotalsAgree` | BoardPaySystem/Controllers/LandlordController.cs:1213-1217 | the unpaid check and the tenant page report the same owed total, each bill counted once |
| `LandlordBilling.WriteOffOne` | BoardPaySystem/Controllers/LandlordController.cs:1673-1677 | an open bill of the tenant's is written off with a note appended; every other bill is unchanged; totals kept |
| `LandlordBilling.WrittenOffBills` | BoardPaySystem/Controllers/LandlordController.cs:1668-1679 | each bill written off or kept as one write-off step says |
| `LandlordBilling.WriteOffTenantBills` | BoardPaySystem/Controllers/LandlordController.cs:1666-1680 | refused with nothing changed when the tenant has no open bill; otherwise the bills are written off |
| `LandlordBilling.WriteOffClearsTenant` | BoardPaySystem/Controllers/LandlordController.cs:1666-1680 | afterwards the tenant owes nothing, totals are kept, other tenants' bills are untouched |
| `LandlordBilling.PastBillBuilding` | BoardPaySystem/Controllers/LandlordController.cs:1296-1303 | the floor's building, or the built-in defaults when the floor has none |
| `LandlordBilling.PastBill` | BoardPaySystem/Controllers/LandlordController.cs:1293-1325 | billed on the first of the month, due that month on the clamped anchor day, room or building fees, always Overdue with the percentage late fee |
| `LandlordBilling.PastBillGeneratorIsKeyed` | BoardPaySystem/Controllers/LandlordController.cs:1305-1311 | each past bill is the tenant's and keyed on the month visited |
| `LandlordBilling.PastBillsAsWritten` | BoardPaySystem/Controllers/LandlordController.cs:1249-1255 | always an error, with the bill table unchanged |
| `LandlordBilling.PastBillsNeverGenerated` | BoardPaySystem/Controllers/LandlordController.cs:1253-1255 | as written no start-month bill is added, where the intended generation adds one |
| `LandlordBilling.GeneratePastBillsForTenant` | BoardPaySystem/Controllers/LandlordController.cs:1247-1345 | refused without an id, tenant or room with nothing changed; otherwise one bill per month from the start month through today's that has none |
| `LandlordBilling.PastMonthsNotRevisited` | BoardPaySystem/Controllers/LandlordController.cs:1277-1290 | the set taken before the loop answers the month check as the growing table would |
| `LandlordBilling.PastBillIsOverdueBeforeItsDueDate` | BoardPaySystem/Controllers/LandlordController.cs:1320-1325 | a bill due on 28 March generated on 10 March is already overdue with a late fee |
| `LandlordBilling.PastBillIntended` | BoardPaySystem/Controllers/LandlordController.cs:1320-1325 | overdue with the late fee exactly when its due date has passed, otherwise unpaid without one |
| `LandlordBilling.SweepChargesPercent` | BoardPaySystem/Services/BillingService.cs:255-285 | the sweep of an open past-due bill without a late fee sets Overdue and the percentage of the total |
| `LandlordBilling.PastBillIntendedIsSwept` | BoardPaySystem/Controllers/LandlordController.cs:1320-1325 | the corrected past bill is what the overdue sweep makes of the unpaid bill |
| `LandlordBilling.YearBills` | BoardPaySystem/Controllers/LandlordController.cs:1513-1520 | exactly the year's bills, of the building when one is chosen |
| `LandlordBilling.YearOf` | BoardPaySystem/Controllers/LandlordController.cs:1513-1520 | exactly the bills of the year |
| `LandlordBilling.MonthSumSplits` | BoardPaySystem/Controllers/LandlordController.cs:1522-1549 | sums over disjoint status sets add up |
| `LandlordBilling.InsertMonth` | BoardPaySystem/Controllers/LandlordController.cs:1522-1549 | the month is in the strictly increasing list, and nothing else is added |
| `LandlordBilling.Months` | BoardPaySystem/Controllers/LandlordController.cs:1522-1549 | the distinct billing months of the bills, ascending |
| `LandlordBilling.Rows` | BoardPaySystem/Controllers/LandlordController.cs:1522-1549 | one row per month, in the months' order |
| `LandlordBilling.RowMonths` | BoardPaySystem/Controllers/LandlordController.cs:1522-1549 | the months of the rows, in order |
| `LandlordBilling.SummaryRowsAreMonths` | BoardPaySystem/Controllers/LandlordController.cs:1522-1549 | one row for each month with a bill, ascending, each computed from that month's bills |
| `LandlordBilling.RowBalances` | BoardPaySystem/Controllers/LandlordController.cs:1522-1549 | each row's billed amount is collected plus outstanding plus written off, and outstanding includes cancelled bills |
| `LandlordBilling.SumsBalance` | BoardPaySystem/Controllers/LandlordController.cs:1522-1549 | sums of balanced rows balance |
| `LandlordBilling.SummaryBalances` | BoardPaySystem/Controllers/LandlordController.cs:1511-1555 | the summary's totals balance: billed = collected + outstanding + written off |
| `LandlordTenancy.RoomBuildingId` | BoardPaySystem/Controllers/LandlordController.cs:254 | `room.Floor?.BuildingId` |
| `LandlordTenancy.CurrentTenantAppend` | BoardPaySystem/Controllers/LandlordController.cs:247-268 | a new account adds only its own room to the occupied ones |
| `LandlordTenancy.CurrentTenantUpdate` | BoardPaySystem/Controllers/LandlordController.cs:1489-1501 | changing one account's room frees only its old room and takes only its new one |
| `LandlordTenancy.NewTenant` | BoardPaySystem/Controllers/LandlordController.cs:247-256 | the new account has the chosen room, that room's building and the start date, and is not archived |
| `LandlordTenancy.AddTenantTables` | BoardPaySystem/Controllers/LandlordController.cs:225-271 | refused for a missing or occupied room, or when the account is not created; otherwise the account is added and the room flagged occupied |
| `LandlordTenancy.AddTenantKeepsConsistent` | BoardPaySystem/Controllers/LandlordController.cs:225-271 | adding keeps ids unique, one tenant per room and occupancy flags in step; the new tenant's current room is the chosen one |
| `LandlordTenancy.AddTenant` | BoardPaySystem/Controllers/LandlordController.cs:210-306 | the tables change as above; an initial bill is added when it can be built and its failure is swallowed |
| `LandlordTenancy.MoveTenantTables` | BoardPaySystem/Controllers/LandlordController.cs:1477-1503 | refused without an id, for an unknown tenant, or for a missing or occupied room; otherwise the old room is freed, the new one taken, and the tenant's room, building and start date set |
| `LandlordTenancy.MovedRooms` | BoardPaySystem/Controllers/LandlordController.cs:1486-1501 | only the old and the new room change, and only their occupancy |
| `LandlordTenancy.MoveKeepsConsistent` | BoardPaySystem/Controllers/LandlordController.cs:1486-1501 | the room left is free and the room taken occupied |
| `LandlordTenancy.MoveTenantKeepsConsistent` | BoardPaySystem/Controllers/LandlordController.cs:1486-1501 | a move keeps the tables consistent; the tenant's current room is the new one; the room left has no tenant and is free |
| `LandlordTenancy.MoveTenant` | BoardPaySystem/Controllers/LandlordController.cs:1477-1509 | the move is saved; then an initial bill is added, and its failure is reported with the move kept |
| `LandlordTenancy.ArchiveTenantTables` | BoardPaySystem/Controllers/LandlordController.cs:348-371 | refused for an unknown tenant; otherwise the room is freed and the tenant archived without room or building |
| `LandlordTenancy.ArchiveTenantKeepsConsistent` | BoardPaySystem/Controllers/LandlordController.cs:348-371 | archiving keeps the tables consistent; the tenant is archived without a room; the room left is free |
| `LandlordTenancy.ArchiveTenant` | BoardPaySystem/Controllers/LandlordController.cs:348-371 | the tables change as above, or not at all when refused |
| `LandlordTenancy.ManualReading` | BoardPaySystem/Controllers/LandlordController.cs:426-460 | refused when the month already has a reading, without a tenant or room, or without any rate; otherwise rated at the room override or building default, continuing from the latest reading |
| `LandlordTenancy.ManualReadingMatchesService` | BoardPaySystem/Controllers/LandlordController.cs:426-457 | with the building loaded, the form records exactly what the reading service records |
| `LandlordTenancy.SecondReadingInMonthRefused` | BoardPaySystem/Controllers/LandlordController.cs:426-434 | once a reading is stored, a second one for the tenant and month is refused |
| `LandlordTenancy.ManualReadingKeepsOnePerMonth` | BoardPaySystem/Controllers/LandlordController.cs:426-457 | the form keeps at most one reading per tenant and month |
| `LandlordTenancy.RecordManualReading` | BoardPaySystem/Controllers/LandlordController.cs:423-465 | the reading is appended exactly when the form accepts it |

## Left out

- SMS sending, notification delivery and logging. A notification the code raises is a
  `Notice` row with its recipient, kind and bill; message texts are not modelled.
- Account creation and roles. `UserManager.CreateAsync` in `AddTenant` is the `created`
  parameter, and the new account's id is a parameter. Role assignment and the
  account's names, e-mail and phone are not modelled.
- Request handling: model-state validation, `TempData`/`ViewBag` messages, redirects
  and view models. Where the code catches an exception and redirects, the model
  returns an error value.
- Parsing the screens' filter strings (status, period, building). The filters are
  given already parsed. The ordering of the lists shown (the tenant's bill list, newest billing date first; the landlord's tenant page, newest month first; others by due date or by group) and
  the display-only strings (`BillingPeriod`, days overdue, the list of unpaid periods)
  are not modelled.
- The time of day, `decimal` rounding and overflow, and dates after year 9999: dates
  have no time, money is exact, and a date's upper bound is not checked.
- Concurrency between the background billing service and the landlord's actions,
  and the background service itself. Every operation runs alone.
- `BillingRuns.DueAmong`: the reading check it relies on comes from the fail-soft
  reading service, which answers yes when its query fails. The model assumes the
  query succeeds. The same check inside `GenerateBillForTenantAsync` only logs a
  warning and is left out.
- Among a tenant's readings with equal dates, the database order decides which is
  "latest". The model picks the last stored.
- `LandlordTenancy.MoveTenant` takes the new start date already parsed, as an optional date.
- `LandlordTenancy.AddTenant` does not model the catch-all that turns any other exception
  into an error page.
- `LandlordTenancy.ManualReading`: without a rate override and without a building the
  code dereferences a null building and throws; the model returns `RateUnavailable`.
- `LandlordBilling.GeneratePastBillsForTenant`: a failed save is not modelled; a
  failed generation is reported with nothing saved.
- Database failures in `MeterReadingService` queries other than
  `HasCompletedReadingForBillingPeriodAsync` are not modelled; in the plain service
  they propagate as exceptions.
- Deleting tenants, rooms, floors and buildings with their cascades, the room and
  floor screens, dashboards and reporting counts outside the monthly income summary.

## Findings

| source | as written | input that shows it | evidently intended | confidence | as-written member | corrected member |
|---|---|---|---|---|---|---|
| BoardPaySystem/Controllers/BillingController.cs:337 | the initial bill's due date is built from the tenant's anchor day in the current month without clamping | a tenant who started on 31 January, asked for on 10 April: 31 April does not exist and the action fails | clamp the day to the month's length, as the billing service does, and set the bill's month and year | not executed | `BillingController.ControllerInitialBillFailsOnShortMonth` | `BillingController.ClampedControllerInitialBill` |
| BoardPaySystem/Controllers/TenantController.cs:176-184 | starting a payment sets any of the tenant's bills to Pending, whatever its status | a paid bill; the tenant starts a payment, then cancels it: the bill is NotPaid again | only a bill still owed may be set to Pending | not executed | `TenantController.TenantCanUnpayPaidBill` | `TenantController.GuardedStepsKeepPaidBill` |
| BoardPaySystem/Controllers/LandlordController.cs:182 | the amount due adds each unpaid bill's late fee to its total, which already contains it | one overdue bill of rent 100 with late fee 5: total 105, shown as 110 due | sum the unpaid totals, as the tenant page and the unpaid check do | not executed | `LandlordBilling.AmountDueOverstatesOverdueBill` | `LandlordBilling.OwedTotalsAgree` |
| BoardPaySystem/Controllers/LandlordController.cs:1320 | the `if (dueDate < today)` test sits inside a line comment, so every past bill is Overdue with a late fee | start date 28 January, past bills asked for on 10 March: the March bill, due 28 March, is already Overdue. This shows only once the include at :1254 is fixed; as written the action fails before it | mark a past bill overdue, with the late fee, only when its due date has passed | not executed | `LandlordBilling.PastBillIsOverdueBeforeItsDueDate` | `LandlordBilling.PastBillIntendedIsSwept` |
| BoardPaySystem/Controllers/TenantController.cs:51 | the bill list builds a dictionary keyed on bill id from the linked readings, and the link action refuses only a reading already linked, never a bill that already has one | link reading 1 and then reading 2 to an approved bill: the tenant's bill list fails on the duplicate key | refuse to link a second reading to a bill, so that every bill carries one reading at most | not executed | `TenantController.LinkingTwiceBreaksBillList` | `TenantController.GuardedLinksKeepBillList` |
| BoardPaySystem/Controllers/LandlordController.cs:1194 | the tenant query includes `Room.Floor.Building`, but the account's room navigation is `CurrentRoom`, so the query throws and the page always ends in its catch | any existing tenant's id | include `CurrentRoom.Floor.Building` and show the tenant's bills | not executed | `LandlordBilling.TenantBillsNeverLoads` | `LandlordBilling.TenantBills` |
| BoardPaySystem/Controllers/LandlordController.cs:1254 | the same include, outside any `try`: every request with an id fails and no past bill is generated | a tenant with a room who started in January, with no bills, asked for in March | include `CurrentRoom.Floor.Building` and generate the missing months | not executed | `LandlordBilling.PastBillsNeverGenerated` | `LandlordBilling.GeneratePastBillsForTenant` |
