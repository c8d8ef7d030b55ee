/** The store record and each action as a function from the record before the action
    to the record after it (the `set((state) => ...)` updater), with the laws they obey. */
module Transitions {
  import opened Types
  import Seqs
  import ItemList
  import Analytics
  import Rollover

  /** The persisted record. `lastAutoSubtractDate` is `None` where the store holds ''. */
  datatype State = State(
    items: seq<Item>,
    usageRecords: seq<UsageRecord>,
    settings: Settings,
    budget: Budget,
    theme: Theme,
    streak: nat,
    lastAutoSubtractDate: Option<Day>)

  /** The initial record. */
  function Initial(month: string, year: int): (s: State)
    ensures s.items == [] && s.usageRecords == [] && s.streak == 0
    ensures s.lastAutoSubtractDate.None? && s.theme == System && s.settings == InitialSettings
    ensures s.budget == InitialBudget(month, year)
    ensures s.budget.currentSpent == 0.0
  {
    State([], [], InitialSettings, InitialBudget(month, year), System, 0, None)
  }

  /** addItem: the item, with the id the generator chose, goes to the end of the list. */
  function AddItem(s: State, data: Item, id: ItemId): (t: State)
    ensures |t.items| == |s.items| + 1 && t.items[..|s.items|] == s.items
    ensures t.items[|s.items|] == data.(id := id)
    ensures t.(items := s.items) == s
    ensures ItemList.UniqueIds(s.items) && !ItemList.HasId(s.items, id) ==>
              ItemList.UniqueIds(t.items) && ItemList.Find(t.items, id) == Some(data.(id := id))
  {
    var t := s.(items := s.items + [data.(id := id)]);
    assert t.items[..|s.items|] == s.items;
    if ItemList.UniqueIds(s.items) && !ItemList.HasId(s.items, id) then
      ItemList.AppendFreshKeepsUniqueIds(s.items, data.(id := id));
      t
    else t
  }

  /** updateItem: every item with the id gets the patch merged in; nothing else changes. */
  function UpdateItem(s: State, id: ItemId, p: ItemPatch): (t: State)
    ensures t.(items := s.items) == s
    ensures |t.items| == |s.items|
    ensures forall i :: 0 <= i < |s.items| && s.items[i].id != id ==> t.items[i] == s.items[i]
    ensures forall i :: 0 <= i < |s.items| && s.items[i].id == id ==> t.items[i] == MergeItem(s.items[i], p)
    ensures !ItemList.HasId(s.items, id) ==> t == s
  {
    if !ItemList.HasId(s.items, id) then
      ItemList.MissingIdIsNoOp(s.items, id, p, 0.0, 0.0);
      s.(items := ItemList.Patched(s.items, id, p))
    else s.(items := ItemList.Patched(s.items, id, p))
  }

  /** removeItem: the items with the id are dropped; their usage records stay. */
  function RemoveItem(s: State, id: ItemId): (t: State)
    ensures t.(items := s.items) == s
    ensures !ItemList.HasId(t.items, id)
    ensures forall it :: it in t.items <==> it in s.items && it.id != id
    ensures Seqs.IsSubsequence(t.items, s.items)
    ensures !ItemList.HasId(s.items, id) ==> t == s
  {
    if !ItemList.HasId(s.items, id) then
      ItemList.MissingIdIsNoOp(s.items, id, NoItemChange, 0.0, 0.0);
      s.(items := ItemList.Removed(s.items, id))
    else s.(items := ItemList.Removed(s.items, id))
  }

  /** refillItem: the items with the id gain `amount`, with no clamping. */
  function RefillItem(s: State, id: ItemId, amount: real): (t: State)
    ensures t.(items := s.items) == s
    ensures |t.items| == |s.items|
    ensures forall i :: 0 <= i < |s.items| && s.items[i].id != id ==> t.items[i] == s.items[i]
    ensures forall i :: 0 <= i < |s.items| && s.items[i].id == id ==>
              t.items[i] == s.items[i].(quantity := s.items[i].quantity + amount)
    ensures !ItemList.HasId(s.items, id) ==> t == s
  {
    if !ItemList.HasId(s.items, id) then
      ItemList.MissingIdIsNoOp(s.items, id, NoItemChange, amount, 0.0);
      s.(items := ItemList.Refilled(s.items, id, amount))
    else s.(items := ItemList.Refilled(s.items, id, amount))
  }

  /** subtractQuantity: the quantity of the first item with the id, less `amount` and
      clamped at 0, is given to every item with the id, and one record is logged priced
      on the amount asked for, even when that exceeds what was there. */
  function SubtractQuantity(s: State, id: ItemId, amount: real, today: Day): (t: State)
    ensures !ItemList.HasId(s.items, id) ==> t == s
    ensures ItemList.HasId(s.items, id) ==>
              var found := ItemList.Find(s.items, id).value;
              t.usageRecords == s.usageRecords + [UsageOf(id, today, amount, found.caloriesPerUnit)]
    ensures |t.items| == |s.items|
    ensures t.(items := s.items, usageRecords := s.usageRecords) == s
  {
    if !ItemList.HasId(s.items, id) then s
    else
      var found := ItemList.Find(s.items, id).value;
      s.(items := ItemList.WithQuantity(s.items, id, ClampAtZero(found.quantity - amount)),
         usageRecords := s.usageRecords + [UsageOf(id, today, amount, found.caloriesPerUnit)])
  }

  /** Subtracting from an existing id: every item with the id gets the first match's
      quantity less the amount, clamped at 0, so never a negative quantity, even when the
      amount exceeds the stock; every other item stays as it was. */
  lemma SubtractQuantityItems(s: State, id: ItemId, amount: real, today: Day)
    requires ItemList.HasId(s.items, id)
    ensures var t := SubtractQuantity(s, id, amount, today);
            var found := ItemList.Find(s.items, id).value;
            && |t.items| == |s.items|
            && (forall i :: 0 <= i < |s.items| && s.items[i].id != id ==> t.items[i] == s.items[i])
            && (forall i :: 0 <= i < |s.items| && s.items[i].id == id ==>
                  t.items[i] == s.items[i].(quantity := ClampAtZero(found.quantity - amount)) &&
                  t.items[i].quantity >= 0.0)
  {
  }

  /** updateSettings: a shallow merge into the settings only. */
  function UpdateSettings(s: State, p: SettingsPatch): (t: State)
    ensures t.(settings := s.settings) == s
    ensures t.settings == MergeSettings(s.settings, p)
  {
    s.(settings := MergeSettings(s.settings, p))
  }

  /** updateBudget: a shallow merge into the budget only. */
  function UpdateBudget(s: State, p: BudgetPatch): (t: State)
    ensures t.(budget := s.budget) == s
    ensures t.budget == MergeBudget(s.budget, p)
  {
    s.(budget := MergeBudget(s.budget, p))
  }

  /** addExpense: the amount is added to what was spent; nothing else moves. */
  function AddExpense(s: State, amount: real): (t: State)
    ensures t.(budget := s.budget) == s
    ensures t.budget.(currentSpent := s.budget.currentSpent) == s.budget
    ensures t.budget.currentSpent - s.budget.currentSpent == amount
  {
    s.(budget := s.budget.(currentSpent := s.budget.currentSpent + amount))
  }

  /** addUsageRecord: the record goes to the end of the log. */
  function AddUsageRecord(s: State, r: UsageRecord): (t: State)
    ensures t.(usageRecords := s.usageRecords) == s
    ensures |t.usageRecords| == |s.usageRecords| + 1
    ensures t.usageRecords[..|s.usageRecords|] == s.usageRecords && t.usageRecords[|s.usageRecords|] == r
  {
    s.(usageRecords := s.usageRecords + [r])
  }

  /** updateStreak: one more when any record is dated today; there is no per-day guard. */
  function UpdateStreak(s: State, today: Day): (t: State)
    ensures t.(streak := s.streak) == s
    ensures !Analytics.NoRecordsOn(s.usageRecords, today) ==> t.streak == s.streak + 1
    ensures Analytics.NoRecordsOn(s.usageRecords, today) ==> t == s
  {
    if |Analytics.RecordsOn(s.usageRecords, today)| > 0 then s.(streak := s.streak + 1) else s
  }

  /** The rollover's single `set`: every item advanced one day, the records pushed, the
      date recorded. */
  function RolledOver(s: State, today: Day): (t: State)
  {
    s.(items := Rollover.ItemsAfterOneDay(s.items),
       usageRecords := s.usageRecords + Rollover.RolloverRecords(s.items, today),
       lastAutoSubtractDate := Some(today))
  }

  /** performDailySubtraction: nothing at all when today was already done; otherwise every
      auto-subtracted item drops by its daily usage (clamped at 0) and logs one record, in item
      order, the date is recorded, and the streak update runs. */
  function PerformDailySubtraction(s: State, today: Day): (t: State)
    ensures s.lastAutoSubtractDate == Some(today) ==> t == s
    ensures s.lastAutoSubtractDate != Some(today) ==>
              var due := Seqs.Filter(s.items, Rollover.Eligible);
              var n := |s.usageRecords|;
              && t.lastAutoSubtractDate == Some(today)
              && |t.items| == |s.items|
              && (forall i :: 0 <= i < |s.items| ==> t.items[i] == Rollover.AfterOneDay(s.items[i]))
              && |t.usageRecords| == n + |due|
              && t.usageRecords[..n] == s.usageRecords
              && (forall k :: 0 <= k < |due| ==> t.usageRecords[n + k] == Rollover.RecordFor(due[k], today))
              && t.streak == (if Analytics.NoRecordsOn(t.usageRecords, today) then s.streak else s.streak + 1)
              && t.settings == s.settings && t.budget == s.budget && t.theme == s.theme
  {
    if s.lastAutoSubtractDate == Some(today) then s
    else
      var rolled := RolledOver(s, today);
      Rollover.RolloverRecordsInOrder(s.items, today);
      assert rolled.usageRecords[..|s.usageRecords|] == s.usageRecords;
      UpdateStreak(rolled, today)
  }

  /// Laws relating several actions.

  /** A second rollover on the same day changes nothing, streak included. */
  lemma RolloverIdempotent(s: State, today: Day)
    ensures PerformDailySubtraction(PerformDailySubtraction(s, today), today) == PerformDailySubtraction(s, today)
  {
  }

  /** When some item is auto-subtracted, a rollover on a new day raises the streak by exactly one. */
  lemma RolloverRaisesStreak(s: State, today: Day)
    requires s.lastAutoSubtractDate != Some(today)
    requires exists i :: 0 <= i < |s.items| && Rollover.Eligible(s.items[i])
    ensures PerformDailySubtraction(s, today).streak == s.streak + 1
  {
  }

  /** The streak update has no per-day guard: calling it after a rollover that logged
      something (as the dashboard does on mount) counts the same day twice. */
  lemma StreakCountsDayTwice(s: State, today: Day)
    requires s.lastAutoSubtractDate != Some(today)
    requires exists i :: 0 <= i < |s.items| && Rollover.Eligible(s.items[i])
    ensures UpdateStreak(PerformDailySubtraction(s, today), today).streak == s.streak + 2
  {
  }

  /** When all ids are unique, refilling `x` and then using `x` of an item restores its quantity
      (when that was not negative) and logs exactly one record of `x`. */
  lemma RefillThenSubtract(s: State, id: ItemId, x: real, today: Day)
    requires ItemList.UniqueIds(s.items) && ItemList.HasId(s.items, id)
    requires ItemList.Find(s.items, id).value.quantity >= 0.0
    ensures var t := SubtractQuantity(RefillItem(s, id, x), id, x, today);
            && t.items == s.items
            && t.usageRecords == s.usageRecords +
                 [UsageOf(id, today, x, ItemList.Find(s.items, id).value.caloriesPerUnit)]
            && t.(items := s.items, usageRecords := s.usageRecords) == s
  {
    var k := ItemList.FirstIndex(s.items, id);
    ItemList.RefillThenRestore(s.items, id, x);
    var r := RefillItem(s, id, x);
    assert r.items == ItemList.Refilled(s.items, id, x);
    assert ItemList.HasId(r.items, id) by {
      assert r.items[k].id == id;
    }
    assert ItemList.Find(r.items, id).value == r.items[k];
    assert ClampAtZero(r.items[k].quantity - x) == s.items[k].quantity;
  }

  /** Subtracting from an existing item adds the calories of the record it logs
      (`amount * caloriesPerUnit`, by `UsageOf`) to today's calories. */
  lemma SubtractAddsTodaysCalories(s: State, id: ItemId, amount: real, today: Day)
    requires ItemList.HasId(s.items, id)
    ensures Analytics.CaloriesOn(SubtractQuantity(s, id, amount, today).usageRecords, today) ==
            Analytics.CaloriesOn(s.usageRecords, today) +
            UsageOf(id, today, amount, ItemList.Find(s.items, id).value.caloriesPerUnit).calories
  {
    var found := ItemList.Find(s.items, id).value;
    var record := UsageOf(id, today, amount, found.caloriesPerUnit);
    assert SubtractQuantity(s, id, amount, today).usageRecords == s.usageRecords + [record];
    Analytics.CaloriesOnAppend(s.usageRecords, record, today);
  }

  /** A rollover on a new day of a store holding one auto-subtracted item. */
  lemma OneItemRollover(s: State, it: Item, today: Day)
    requires s.items == [it] && Rollover.Eligible(it) && s.lastAutoSubtractDate != Some(today)
    ensures var t := PerformDailySubtraction(s, today);
            && t.items == [Rollover.AfterOneDay(it)]
            && t.usageRecords == s.usageRecords + [Rollover.RecordFor(it, today)]
            && t.lastAutoSubtractDate == Some(today)
  {
  }

  /// Arbitrary runs of actions.

  datatype Action =
    | AddItemAction(data: Item, newId: ItemId)
    | UpdateItemAction(id: ItemId, patch: ItemPatch)
    | RemoveItemAction(id: ItemId)
    | RefillItemAction(id: ItemId, amount: real)
    | SubtractQuantityAction(id: ItemId, amount: real)
    | UpdateSettingsAction(settingsPatch: SettingsPatch)
    | UpdateBudgetAction(budgetPatch: BudgetPatch)
    | AddExpenseAction(amount: real)
    | AddUsageRecordAction(record: UsageRecord)
    | PerformDailySubtractionAction
    | UpdateStreakAction

  /** An action taken on a given day. */
  datatype Call = Call(action: Action, today: Day)

  function Step(s: State, c: Call): (t: State)
    ensures |s.usageRecords| <= |t.usageRecords| && t.usageRecords[..|s.usageRecords|] == s.usageRecords
  {
    match c.action
    case AddItemAction(data, newId) => AddItem(s, data, newId)
    case UpdateItemAction(id, p) => UpdateItem(s, id, p)
    case RemoveItemAction(id) => RemoveItem(s, id)
    case RefillItemAction(id, amount) => RefillItem(s, id, amount)
    case SubtractQuantityAction(id, amount) =>
      var t := SubtractQuantity(s, id, amount, c.today);
      assert t.usageRecords[..|s.usageRecords|] == s.usageRecords;
      t
    case UpdateSettingsAction(p) => UpdateSettings(s, p)
    case UpdateBudgetAction(p) => UpdateBudget(s, p)
    case AddExpenseAction(amount) => AddExpense(s, amount)
    case AddUsageRecordAction(r) => AddUsageRecord(s, r)
    case PerformDailySubtractionAction => PerformDailySubtraction(s, c.today)
    case UpdateStreakAction => UpdateStreak(s, c.today)
  }

  function Run(s: State, calls: seq<Call>): State
    decreases |calls|
  {
    if calls == [] then s else Run(Step(s, calls[0]), calls[1..])
  }

  /** The usage log is append-only: after any run of actions the old log is a prefix of the new. */
  lemma {:induction false} RunKeepsLog(s: State, calls: seq<Call>)
    ensures |s.usageRecords| <= |Run(s, calls).usageRecords|
    ensures Run(s, calls).usageRecords[..|s.usageRecords|] == s.usageRecords
    decreases |calls|
  {
    if calls != [] {
      var t := Step(s, calls[0]);
      RunKeepsLog(t, calls[1..]);
      var u := Run(t, calls[1..]);
      assert u.usageRecords[..|s.usageRecords|] == u.usageRecords[..|t.usageRecords|][..|s.usageRecords|];
    }
  }

  /** The input assumptions under which quantities stay non-negative: a refill amount above 0
      (the refill page checks this) and a new or edited quantity not below 0 (assumed; the
      pages do not check it). */
  predicate AssumedValid(a: Action)
  {
    match a
    case AddItemAction(data, _) => data.quantity >= 0.0
    case UpdateItemAction(_, p) => p.quantity.None? || p.quantity.value >= 0.0
    case RefillItemAction(_, amount) => amount > 0.0
    case _ => true
  }

  /** One action keeps every quantity at or above 0 (subtraction and rollover clamp). */
  lemma StepKeepsNonNegative(s: State, c: Call)
    requires ItemList.AllNonNegative(s.items) && AssumedValid(c.action)
    ensures ItemList.AllNonNegative(Step(s, c).items)
  {
    var t := Step(s, c);
    match c.action
    case AddItemAction(data, newId) =>
      forall i | 0 <= i < |t.items| ensures t.items[i].quantity >= 0.0 {
        if i < |s.items| {
          assert t.items[i] == t.items[..|s.items|][i];
        }
      }
    case RemoveItemAction(id) =>
      forall i | 0 <= i < |t.items| ensures t.items[i].quantity >= 0.0 {
        assert t.items[i] in s.items;
      }
    case SubtractQuantityAction(id, amount) =>
      if ItemList.HasId(s.items, id) {
        SubtractQuantityItems(s, id, amount, c.today);
      }
    case PerformDailySubtractionAction =>
      if s.lastAutoSubtractDate != Some(c.today) {
        forall i | 0 <= i < |t.items| ensures t.items[i].quantity >= 0.0 {
          assert t.items[i] == Rollover.AfterOneDay(s.items[i]);
        }
      }
    case _ =>
  }

  /** No quantity becomes negative over any run of actions meeting `AssumedValid`. */
  lemma {:induction false} RunKeepsNonNegative(s: State, calls: seq<Call>)
    requires ItemList.AllNonNegative(s.items)
    requires forall k :: 0 <= k < |calls| ==> AssumedValid(calls[k].action)
    ensures ItemList.AllNonNegative(Run(s, calls).items)
    decreases |calls|
  {
    if calls != [] {
      StepKeepsNonNegative(s, calls[0]);
      assert forall k :: 0 <= k < |calls[1..]| ==> calls[1..][k] == calls[k + 1];
      RunKeepsNonNegative(Step(s, calls[0]), calls[1..]);
    }
  }

  /** Ids stay unique when new items get fresh ids and updates leave the `id` key alone. */
  lemma StepKeepsUniqueIds(s: State, c: Call)
    requires ItemList.UniqueIds(s.items)
    requires c.action.AddItemAction? ==> !ItemList.HasId(s.items, c.action.newId)
    requires c.action.UpdateItemAction? ==> c.action.patch.id.None?
    ensures ItemList.UniqueIds(Step(s, c).items)
  {
    match c.action
    case RemoveItemAction(id) => ItemList.RemovedKeepsUniqueIds(s.items, id);
    case _ =>
  }
}
