# Refillr inventory store in Dafny

Refillr is a grocery and inventory tracker. Its core is one store record that holds:

- the tracked items;
- the usage log;
- the settings and the monthly budget;
- the display theme;
- a streak counter;
- the date of the last daily rollover.

Every action replaces some fields of that record. The queries derive the analytics from it:

- today's calories;
- the items needing a refill;
- a 7-day calorie report;
- the five most-used items.

The model has three layers.

- **Pure functions** (`Transitions`). Each action is a function from the record before the action to the record after it, in the shape of the store's `set((state) => ...)` updaters. They are built from these modules:
  - `ItemList`: the item-list edits.
  - `Rollover`: the per-item pieces of the daily auto-subtraction.
  - `Analytics`: the query computations.
  - `Seqs`: order-preserving filtering.
- **The store as a class** (`Store.RefillrStore`). It has mutable fields, and each action is a method whose contract says that the new record is the corresponding `Transitions` function of the old one.
  - The daily rollover's updater (`Rollover.RolloverPass`) is a loop over the items. It pushes one usage record per auto-subtracted item while it builds the new item list.
  - The top-consumed query first runs a loop that accumulates the per-item usage map.
- **Lemmas** relating several actions:
  - the log is append-only over any run of actions;
  - quantities stay non-negative over any run of actions whose refill amounts are above 0 and whose new or edited quantities are assumed not negative;
  - ids stay unique;
  - a second rollover on the same day changes nothing;
  - a refill followed by a subtraction of the same amount restores the quantity;
  - the streak is counted twice when the dashboard runs the rollover and then the streak update;
  - the ranking is sound and complete.

Value modelling:

- Calendar dates are integer day numbers, and `today` is a parameter.
- The empty date string `''` is `None`.
- Quantities, calories and money are reals.
- A partial update (`Partial<T>`) is a patch record with one `Option` per field. For an optional item field, `Some(None)` is a key that is present with the value `undefined`, which the spread copies over the old value.
- Duplicate ids are not assumed away: every edit acts on every item with the id, exactly as the source's `map` does.

## Model

| member | source | states |
|---|---|---|
| Types.UsageOf | src/store/useRefillrStore.ts:113-122 | a usage record names the item, the day and the amount used, and its calories are the amount times the item's calories per unit |
| Types.InitialBudget | src/store/useRefillrStore.ts:48-53 | the initial budget has a limit of 200 (the initial monthly budget setting), nothing spent, and the month and year it is given |
| Types.ClampAtZero | src/store/useRefillrStore.ts:113 | `Math.max(0, x)` is never negative, never below `x`, and is either `x` or 0 |
| Types.MergeItemIdempotent | src/store/useRefillrStore.ts:87-92 | merging the same partial update into an item twice equals merging it once, and an empty update leaves the item unchanged |
| Types.MergeSettingsIdempotent | src/store/useRefillrStore.ts:133-136 | the settings merge is idempotent, and an empty update changes nothing |
| Types.MergeBudgetIdempotent | src/store/useRefillrStore.ts:141-144 | the budget merge is idempotent, and an empty update changes nothing |
| Seqs.Filter | src/store/useRefillrStore.ts:96 | `filter` keeps exactly the elements that pass the test, in their original order (a subsequence), and never lengthens the list |
| Seqs.FilterAppend | src/store/useRefillrStore.ts:200-202 | filtering a concatenation equals concatenating the filtered parts |
| Seqs.FilterAllOrNothing | src/store/useRefillrStore.ts:96 | a list whose every element passes is kept whole; one whose every element fails becomes empty |
| ItemList.FirstIndex | src/store/useRefillrStore.ts:110 | the position of the first item with the id, with no earlier match; it is the list length exactly when no item has the id |
| ItemList.Find | src/store/useRefillrStore.ts:110 | `find` returns nothing exactly when no item has the id; otherwise it returns an item of the list with that id |
| ItemList.FindFirstMatch | src/store/useRefillrStore.ts:110 | the item `find` returns is the first with the id: no earlier item has it |
| ItemList.Patched | src/store/useRefillrStore.ts:89-91 | every item with the id gets the update merged in, and every other item is kept in place |
| ItemList.Refilled | src/store/useRefillrStore.ts:101-105 | every item with the id gains the amount, with no clamping; every other item is kept |
| ItemList.WithQuantity | src/store/useRefillrStore.ts:125-127 | every item with the id gets the one new quantity; every other item is kept |
| ItemList.Removed | src/store/useRefillrStore.ts:96 | no item with the id remains; exactly the other items remain, in their order |
| ItemList.FreshId | src/store/useRefillrStore.ts:46 | an id that no current item has always exists, so a generator choosing one can always succeed |
| ItemList.MissingIdIsNoOp | src/store/useRefillrStore.ts:87-106 | an id that matches nothing makes update, refill, quantity-setting and remove leave the list unchanged |
| ItemList.AppendFreshKeepsUniqueIds | src/store/useRefillrStore.ts:76-85 | appending an item under a fresh id keeps ids unique, and `find` then returns that item |
| ItemList.MapEditsKeepUniqueIds | src/store/useRefillrStore.ts:87-106 | refill and quantity edits keep ids unique, and so does an update whose patch leaves `id` alone |
| ItemList.RemovedKeepsUniqueIds | src/store/useRefillrStore.ts:94-97 | removing items keeps the remaining ids unique |
| ItemList.RefillThenRestore | src/store/useRefillrStore.ts:99-127 | when every id in the list is unique and the id is present, a refill leaves the item at the same position with its quantity raised by the amount, and setting the old quantity back restores the original list |
| ItemList.SameIdsSameFirstIndex | src/store/useRefillrStore.ts:110 | two lists with the same ids position by position find an id at the same place |
| ItemList.SameIdsKeepUniqueIds | src/store/useRefillrStore.ts:87-106 | an edit that keeps the id at every position keeps ids unique |
| Analytics.RecordsOn | src/store/useRefillrStore.ts:200-202 | the records dated on the day are exactly the log's records with that date; the result is empty exactly when no record has that date |
| Analytics.SumCalories | src/store/useRefillrStore.ts:217 | the calorie sum of records with non-negative calories is non-negative |
| Analytics.CaloriesOn | src/store/useRefillrStore.ts:212-218 | a day without records has 0 calories; with non-negative record calories, every day's total is non-negative |
| Analytics.CaloriesOnAppend | src/store/useRefillrStore.ts:155-158 | logging a record adds its calories to its own day's total and to no other day, whichever item it names |
| Analytics.RefillList | src/store/useRefillrStore.ts:220-226 | the refill list holds exactly the items whose quantity is at or below their threshold, in list order |
| Analytics.DefaultThresholdBoundary | src/store/useRefillrStore.ts:223-224 | an absent threshold or a threshold of 0 acts as 5, inclusively: 5 needs a refill and 5.01 does not |
| Analytics.WeeklyReport | src/store/useRefillrStore.ts:228-242 | seven entries, oldest first: entry i is the day `today - 6 + i` with that day's calorie total |
| Analytics.WeeklyReportDays | src/store/useRefillrStore.ts:228-242 | the last entry is today with today's calories (what getTodaysCalories gives), the days strictly increase, and a day without records shows 0 |
| Analytics.WeeklyReportWindow | src/store/useRefillrStore.ts:230-234 | a day appears in the report exactly when it lies between six days ago and today |
| Analytics.TotalUsedUnseen | src/store/useRefillrStore.ts:248-251 | an id that no record names has a total of 0 |
| Analytics.FirstSeenMembers | src/store/useRefillrStore.ts:246-253 | the usage map's keys are distinct, and they are exactly the ids that some record names |
| Analytics.UsageTotalsKeys | src/store/useRefillrStore.ts:246-251 | the usage map has an entry for exactly the ids in its key order |
| Analytics.UsageTotalsAreSums | src/store/useRefillrStore.ts:248-251 | every entry of the usage map is the sum of the quantities of its id's records |
| Analytics.UsageStep | src/store/useRefillrStore.ts:248-251 | one more record adds its id to the keys if it is new, and adds its quantity to that id's entry, starting from 0 for a new id; other entries stay |
| Analytics.Resolved | src/store/useRefillrStore.ts:253-258 | each entry is an existing item (the one `find` returns) with its id's total; every id with an existing item gets an entry; distinct ids give distinct items |
| Analytics.Insert | src/store/useRefillrStore.ts:259 | inserting one entry adds exactly that entry (as a multiset) |
| Analytics.InsertMembers | src/store/useRefillrStore.ts:259 | an inserted list holds only the new entry and the old entries |
| Analytics.InsertSorted | src/store/useRefillrStore.ts:259 | inserting into a list sorted by decreasing total keeps it sorted |
| Analytics.ConsSorted | src/store/useRefillrStore.ts:259 | an entry whose total is at least every total of a sorted list can go in front of it |
| Analytics.InsertDistinct | src/store/useRefillrStore.ts:259 | inserting an entry for an item not yet listed keeps the items distinct |
| Analytics.ConsDistinct | src/store/useRefillrStore.ts:259 | an entry whose item is not in a list of distinct items can go in front of it |
| Analytics.SortByUsage | src/store/useRefillrStore.ts:259 | the sort returns a permutation of its input, sorted by decreasing total, and keeps distinct items distinct |
| Analytics.SortStepDistinct | src/store/useRefillrStore.ts:259 | in the sort's step on distinct items, the last entry's item is not among the sorted others, so inserting it keeps items distinct |
| Analytics.FirstFive | src/store/useRefillrStore.ts:260 | `slice(0, 5)` gives the first entries of the list, at most five of them, and the whole list when it is shorter than five |
| Analytics.TopConsumed | src/store/useRefillrStore.ts:244-261 | the ranking has at most five entries, sorted by decreasing total |
| Analytics.TopConsumedSound | src/store/useRefillrStore.ts:244-261 | every ranked entry is an item that still exists and that some usage record names, with the sum of its id's record quantities, and no item is listed twice |
| Analytics.TopConsumedComplete | src/store/useRefillrStore.ts:253-260 | if an existing item with records is not ranked, the ranking is full (five entries) and every ranked total is at least that item's |
| Analytics.CutKeepsLargest | src/store/useRefillrStore.ts:259-260 | an entry of a sorted list that the first five do not show is dominated by each of them, and the list had five to show |
| Rollover.AfterOneDay | src/store/useRefillrStore.ts:168-183 | only the quantity changes; an auto-subtracted item with truthy usage ends at or above 0, ends at the larger of 0 and its quantity less its daily usage (so exactly the loss when it had that much, and 0 when it had less), and, with a positive daily usage and a non-negative stock, never gains; any other item is unchanged |
| Rollover.RecordFor | src/store/useRefillrStore.ts:172-177 | the rollover's record names the item and today, with quantity equal to the daily usage and calories equal to that usage times the calories per unit |
| Rollover.ItemsAfterOneDay | src/store/useRefillrStore.ts:167-184 | the new item list has the same length, and each item is what one day does to the item at that position |
| Rollover.RolloverRecords | src/store/useRefillrStore.ts:179 | at most one record per item, all dated today |
| Rollover.RolloverRecordsInOrder | src/store/useRefillrStore.ts:167-184 | the rollover logs exactly one record per auto-subtracted item, in item order, and nothing else |
| Rollover.PrefixStep | src/store/useRefillrStore.ts:167-184 | processing one more item adds exactly that item's new state and, if it is auto-subtracted, its record |
| Rollover.RolloverPass | src/store/useRefillrStore.ts:167-190 | the loop that pushes records while mapping the items yields each item's one-day successor and the old log followed by the rollover's records |
| Rollover.RolloverLogsIffEligible | src/store/useRefillrStore.ts:168-179 | the rollover logs something exactly when some item is auto-subtracted with a truthy daily usage, and everything it logs is dated today |
| Transitions.Initial | src/store/useRefillrStore.ts:66-73 | the store starts empty, with the initial settings, the initial budget (limit 200, nothing spent, the given month and year), a streak of 0, no rollover date and the system theme |
| Transitions.AddItem | src/store/useRefillrStore.ts:76-85 | the old items are kept in order, the new item is appended under the chosen id, nothing else changes, and a fresh id keeps ids unique and makes `find` return the new item |
| Transitions.UpdateItem | src/store/useRefillrStore.ts:87-92 | items with the id get the patch merged in, the other items and all other fields are unchanged, and an unknown id changes nothing |
| Transitions.RemoveItem | src/store/useRefillrStore.ts:94-97 | exactly the items with the id are dropped, the rest stay in order, the usage log (orphaned records included) is untouched, and an unknown id changes nothing |
| Transitions.RefillItem | src/store/useRefillrStore.ts:99-106 | items with the id gain the amount with no clamping, nothing else changes, and an unknown id changes nothing |
| Transitions.SubtractQuantity | src/store/useRefillrStore.ts:108-130 | an unknown id changes nothing; otherwise exactly one record is appended, of the requested amount and priced with the first match's calories per unit, even when the amount exceeds the stock; the item count is kept and only the items and the log change |
| Transitions.SubtractQuantityItems | src/store/useRefillrStore.ts:113-127 | every item with the id gets the first match's quantity less the amount, clamped at 0, so never a negative quantity, even when the amount exceeds the stock; every other item is unchanged |
| Transitions.UpdateSettings | src/store/useRefillrStore.ts:133-136 | only the settings change, to the shallow merge of the update |
| Transitions.UpdateBudget | src/store/useRefillrStore.ts:141-144 | only the budget changes, to the shallow merge of the update |
| Transitions.AddExpense | src/store/useRefillrStore.ts:146-152 | only the amount spent changes, and it rises by exactly the amount |
| Transitions.AddUsageRecord | src/store/useRefillrStore.ts:155-158 | the record is appended to the log and nothing else changes |
| Transitions.UpdateStreak | src/store/useRefillrStore.ts:197-209 | the streak rises by exactly one when some record is dated today; otherwise nothing changes |
| Transitions.PerformDailySubtraction | src/store/useRefillrStore.ts:160-195 | if today was already rolled over, nothing changes; otherwise each item becomes its one-day successor, one record per auto-subtracted item is appended in item order after the old log, the date is recorded, the streak rises exactly when some record is dated today, and settings, budget and theme are unchanged |
| Transitions.RolloverIdempotent | src/store/useRefillrStore.ts:164 | a second rollover on the same day changes nothing, streak included |
| Transitions.RolloverRaisesStreak | src/store/useRefillrStore.ts:194-207 | when some item is auto-subtracted, a rollover on a new day raises the streak by exactly one |
| Transitions.StreakCountsDayTwice | src/pages/Dashboard.tsx:25-28 | the dashboard runs the rollover and then the streak update, and on a day the rollover logs something this raises the streak by two |
| Transitions.RefillThenSubtract | src/store/useRefillrStore.ts:99-130 | when every id in the list is unique and the item with the id has a quantity that is not negative, refilling x and then using x restores the item list and logs exactly one record of x |
| Transitions.SubtractAddsTodaysCalories | src/store/useRefillrStore.ts:108-130 | using an existing item raises today's calories by the calories of the record it logs, which are the amount times the item's calories per unit |
| Transitions.OneItemRollover | src/store/useRefillrStore.ts:160-195 | with one auto-subtracted item, a new day's rollover leaves that item's one-day successor, logs its one record and records the date |
| Transitions.Step | src/store/useRefillrStore.ts:76-209 | no action shortens or edits the usage log: the old log is a prefix of the new one |
| Transitions.RunKeepsLog | src/store/useRefillrStore.ts:128 | over any sequence of actions the usage log only grows at the end |
| Transitions.StepKeepsNonNegative | src/store/useRefillrStore.ts:113 | when every quantity is at least 0, a refill amount is above 0 and a new or edited quantity is assumed not negative, one action keeps every quantity at least 0 |
| Transitions.RunKeepsNonNegative | src/store/useRefillrStore.ts:169 | no quantity becomes negative over any sequence of actions meeting those input assumptions |
| Transitions.StepKeepsUniqueIds | src/store/useRefillrStore.ts:76-97 | ids stay unique under an action when new items get fresh ids and updates leave `id` alone |
| Store.RefillrStore.constructor | src/store/useRefillrStore.ts:66-73 | the new store holds the initial record |
| Store.RefillrStore.AddItem | src/store/useRefillrStore.ts:76-85 | appends one item under an id no item had; the new record is `Transitions.AddItem` of the old one with that id |
| Store.RefillrStore.UpdateItem | src/store/useRefillrStore.ts:87-92 | the new record is `Transitions.UpdateItem` of the old one |
| Store.RefillrStore.RemoveItem | src/store/useRefillrStore.ts:94-97 | the new record is `Transitions.RemoveItem` of the old one |
| Store.RefillrStore.RefillItem | src/store/useRefillrStore.ts:99-106 | the new record is `Transitions.RefillItem` of the old one |
| Store.RefillrStore.SubtractQuantity | src/store/useRefillrStore.ts:108-130 | applies the updater and writes back the items and the log; the new record is `Transitions.SubtractQuantity` of the old one |
| Store.RefillrStore.UpdateSettings | src/store/useRefillrStore.ts:133-136 | the new record is `Transitions.UpdateSettings` of the old one |
| Store.RefillrStore.UpdateBudget | src/store/useRefillrStore.ts:141-144 | the new record is `Transitions.UpdateBudget` of the old one |
| Store.RefillrStore.AddExpense | src/store/useRefillrStore.ts:146-152 | the new record is `Transitions.AddExpense` of the old one |
| Store.RefillrStore.AddUsageRecord | src/store/useRefillrStore.ts:155-158 | the new record is `Transitions.AddUsageRecord` of the old one |
| Store.RefillrStore.PerformDailySubtraction | src/store/useRefillrStore.ts:160-195 | the guard, the rollover and then the streak update leave exactly the record `Transitions.PerformDailySubtraction` describes |
| Store.RefillrStore.ApplyRollover | src/store/useRefillrStore.ts:166-191 | writes back the updater's new item list and longer log with today's date: the record `Transitions.RolledOver` describes |
| Store.RefillrStore.UpdateStreak | src/store/useRefillrStore.ts:197-209 | the new record is `Transitions.UpdateStreak` of the old one |
| Store.RefillrStore.TodaysCalories | src/store/useRefillrStore.ts:212-218 | the sum of the calories of the records dated today (`Analytics.CaloriesOn`); 0 when nothing is logged today; not negative when no record has negative calories |
| Store.RefillrStore.ItemsNeedingRefill | src/store/useRefillrStore.ts:220-226 | exactly the items at or below their threshold, in list order |
| Store.RefillrStore.WeeklyCalorieReport | src/store/useRefillrStore.ts:228-242 | equals `Analytics.WeeklyReport`, so each of the seven entries carries its day's calorie sum; the days run from `today - 6` to `today`, oldest first; the last entry agrees with `TodaysCalories`; days without records show 0 |
| Store.RefillrStore.TopConsumedItems | src/store/useRefillrStore.ts:244-261 | yields the ranking `Analytics.TopConsumed`: at most five existing items, each named by some usage record and carrying its total usage, no item twice, sorted by decreasing total |
| Store.RefillrStore.UsageTotals | src/store/useRefillrStore.ts:246-251 | the accumulation loop over the log builds exactly the usage map `Analytics.UsageTotals` and its key order `Analytics.FirstSeen` |

## Left out

- Persistence to browser storage (src/store/useRefillrStore.ts:263-274) is left out. The model's state is the record itself.
- Reading the clock and formatting dates as ISO strings is left out.
  - `today` is a parameter.
  - Days, including item purchase and expiry dates, are integers.
  - Whether the day is UTC or local is not modelled.
- Id generation with `crypto.randomUUID` is a foreign call. `Store.RefillrStore.AddItem` chooses any id that no current item has, so a collision with an existing id is excluded rather than left to chance.
- The initial budget's month and year come from the locale and the clock, so they are constructor parameters.
- JavaScript numbers are modelled as reals. Rounding, NaN and infinities are not modelled, so neither is a NaN total in the sort comparator.
- `setTheme` (src/store/useRefillrStore.ts:138) only stores a display preference. The theme is a field of the record, but there is no action for it.
- The page components, routing and the install-prompt hook are presentation code and are left out. One exception: the dashboard's call order (rollover, then streak update) appears in `Transitions.StreakCountsDayTwice`.
- Store.RefillrStore.ApplyRollover: the source pushes into the previous state's log array in place (src/store/useRefillrStore.ts:179) and then copies it. The model's updater appends to a copy of the log, which is written back, so the aliasing with an earlier snapshot of the record is not captured.
- Analytics.SortByUsage is modelled as a stable insertion sort. Sortedness and permutation are proved. That entries with equal totals keep their map order is not stated.
- Analytics.TopConsumed: its own contract gives only the bound and the order. Soundness and completeness are the lemmas `TopConsumedSound` and `TopConsumedComplete`.
- Transitions.SubtractQuantity: its own contract leaves the per-item values to the lemma `SubtractQuantityItems`.
- Analytics.TotalUsed, Analytics.FirstSeen and Analytics.UsageTotals carry no contract of their own. Their properties are the lemmas `TotalUsedUnseen`, `FirstSeenMembers`, `UsageTotalsKeys` and `UsageTotalsAreSums`.
- Analytics.WeeklyReport: its own contract gives each entry outright. That the last entry is today, that the days increase and that empty days show 0 are the lemma `WeeklyReportDays`.
- Rollover.RolloverRecords: its own contract gives only the bound and the dates. The exact records, in item order, are the lemma `RolloverRecordsInOrder`.
- Transitions.StepKeepsNonNegative: new items and edited quantities are assumed not negative. The pages do not enforce this; only the refill amount is checked (src/pages/EditRefill.tsx:25).
