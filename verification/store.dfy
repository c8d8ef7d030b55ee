/** The inventory store: one mutable record whose fields the actions overwrite and whose
    queries read them. Each action's new record is the corresponding function of
    `Transitions` applied to the record before it. */
module Store {
  import opened Types
  import Seqs
  import ItemList
  import Analytics
  import Rollover
  import Transitions

  class RefillrStore {
    var items: seq<Item>
    var usageRecords: seq<UsageRecord>
    var settings: Settings
    var budget: Budget
    var theme: Theme
    var streak: nat
    var lastAutoSubtractDate: Option<Day>

    /** The record the store holds (the part that is persisted). */
    function Snapshot(): Transitions.State
      reads this
    {
      Transitions.State(items, usageRecords, settings, budget, theme, streak, lastAutoSubtractDate)
    }

    /** The initial state; the budget's month and year labels are given. */
    constructor (month: string, year: int)
      ensures Snapshot() == Transitions.Initial(month, year)
    {
      items := [];
      usageRecords := [];
      settings := InitialSettings;
      budget := InitialBudget(month, year);
      theme := System;
      streak := 0;
      lastAutoSubtractDate := None;
    }

    /** Appends the item under an id that no item has (the generator's choice). */
    method AddItem(data: Item)
      modifies this
      ensures |items| == |old(items)| + 1
      ensures !ItemList.HasId(old(items), items[|old(items)|].id)
      ensures Snapshot() == Transitions.AddItem(old(Snapshot()), data, items[|old(items)|].id)
    {
      assert !ItemList.HasId(items, ItemList.FreshId(items));
      var id: ItemId :| !ItemList.HasId(items, id);
      items := items + [data.(id := id)];
    }

    method UpdateItem(id: ItemId, updates: ItemPatch)
      modifies this
      ensures Snapshot() == Transitions.UpdateItem(old(Snapshot()), id, updates)
    {
      items := ItemList.Patched(items, id, updates);
    }

    method RemoveItem(id: ItemId)
      modifies this
      ensures Snapshot() == Transitions.RemoveItem(old(Snapshot()), id)
    {
      items := ItemList.Removed(items, id);
    }

    method RefillItem(id: ItemId, quantity: real)
      modifies this
      ensures Snapshot() == Transitions.RefillItem(old(Snapshot()), id, quantity)
    {
      items := ItemList.Refilled(items, id, quantity);
    }

    /** The updater finds the item, and when there is one returns the new item list and the
        log with one more record; `set` writes those two fields back. */
    method SubtractQuantity(id: ItemId, amount: real, today: Day)
      modifies this
      ensures Snapshot() == Transitions.SubtractQuantity(old(Snapshot()), id, amount, today)
    {
      var updated := Transitions.SubtractQuantity(Snapshot(), id, amount, today);
      items, usageRecords := updated.items, updated.usageRecords;
    }

    method UpdateSettings(newSettings: SettingsPatch)
      modifies this
      ensures Snapshot() == Transitions.UpdateSettings(old(Snapshot()), newSettings)
    {
      settings := MergeSettings(settings, newSettings);
    }

    method UpdateBudget(budgetUpdates: BudgetPatch)
      modifies this
      ensures Snapshot() == Transitions.UpdateBudget(old(Snapshot()), budgetUpdates)
    {
      budget := MergeBudget(budget, budgetUpdates);
    }

    method AddExpense(amount: real)
      modifies this
      ensures Snapshot() == Transitions.AddExpense(old(Snapshot()), amount)
    {
      budget := budget.(currentSpent := budget.currentSpent + amount);
    }

    method AddUsageRecord(record: UsageRecord)
      modifies this
      ensures Snapshot() == Transitions.AddUsageRecord(old(Snapshot()), record)
    {
      usageRecords := usageRecords + [record];
    }

    /** The daily rollover: nothing when today is already done; otherwise the items are
        rolled over and the streak update runs. */
    method PerformDailySubtraction(today: Day)
      modifies this
      ensures Snapshot() == Transitions.PerformDailySubtraction(old(Snapshot()), today)
    {
      if lastAutoSubtractDate == Some(today) {
        return;
      }
      ApplyRollover(today);
      UpdateStreak(today);
    }

    /** The rollover's `set`: the updater's pass over the items gives the new list and the
        longer log, which are written back together with the date. */
    method ApplyRollover(today: Day)
      modifies this
      ensures Snapshot() == Transitions.RolledOver(old(Snapshot()), today)
    {
      var updatedItems, records := Rollover.RolloverPass(items, usageRecords, today);
      items, usageRecords, lastAutoSubtractDate := updatedItems, records, Some(today);
    }

    method UpdateStreak(today: Day)
      modifies this
      ensures Snapshot() == Transitions.UpdateStreak(old(Snapshot()), today)
    {
      var todaysRecords := Analytics.RecordsOn(usageRecords, today);
      if |todaysRecords| > 0 {
        streak := streak + 1;
      }
    }

    /** getTodaysCalories: the calories logged today, 0 when nothing was. */
    function TodaysCalories(today: Day): (r: real)
      reads this
      ensures r == Analytics.CaloriesOn(usageRecords, today)
      ensures Analytics.NoRecordsOn(usageRecords, today) ==> r == 0.0
      ensures (forall i :: 0 <= i < |usageRecords| ==> usageRecords[i].calories >= 0.0) ==> r >= 0.0
    {
      Analytics.CaloriesOn(usageRecords, today)
    }

    /** getItemsNeedingRefill: exactly the items at or below their threshold, in list order. */
    function ItemsNeedingRefill(): (r: seq<Item>)
      reads this
      ensures forall it :: it in r <==> it in items && it.quantity <= Analytics.Threshold(it)
      ensures Seqs.IsSubsequence(r, items)
    {
      Analytics.RefillList(items)
    }

    /** getWeeklyCalorieReport: the seven days ending today, oldest first, the last one
        agreeing with getTodaysCalories and empty days showing 0. */
    function WeeklyCalorieReport(today: Day): (r: seq<Analytics.DayCalories>)
      reads this
      ensures r == Analytics.WeeklyReport(usageRecords, today)
      ensures |r| == Analytics.ReportDays
      ensures r[Analytics.ReportDays - 1] == Analytics.DayCalories(today, TodaysCalories(today))
      ensures forall i :: 0 <= i < Analytics.ReportDays ==> r[i].date == today - (Analytics.ReportDays - 1 - i)
      ensures forall i :: 0 <= i < Analytics.ReportDays && Analytics.NoRecordsOn(usageRecords, r[i].date) ==>
                r[i].calories == 0.0
    {
      Analytics.WeeklyReport(usageRecords, today)
    }

    /** getTopConsumedItems: the usage totals are accumulated per id, then resolved to
        existing items, sorted by total and cut to five. */
    method TopConsumedItems() returns (top: seq<Analytics.Consumption>)
      ensures top == Analytics.TopConsumed(items, usageRecords)
      ensures |top| <= Analytics.TopCount
      ensures forall k :: 0 <= k < |top| ==> ItemList.Find(items, top[k].item.id) == Some(top[k].item)
      ensures forall k :: 0 <= k < |top| ==>
                exists i :: 0 <= i < |usageRecords| && usageRecords[i].itemId == top[k].item.id
      ensures forall k :: 0 <= k < |top| ==> top[k].totalUsed == Analytics.TotalUsed(usageRecords, top[k].item.id)
      ensures Analytics.SortedByUsage(top) && Analytics.DistinctItems(top)
    {
      var itemUsage, keys := UsageTotals();
      Analytics.UsageTotalsKeys(usageRecords);
      var entries := Analytics.Resolved(keys, items, itemUsage);
      top := Analytics.FirstFive(Analytics.SortByUsage(entries));
      Analytics.TopConsumedSound(items, usageRecords);
    }

    /** The accumulation pass of getTopConsumedItems: one walk over the log adding each
        record's quantity to its id's entry of a `Map`, whose keys keep insertion order. */
    method UsageTotals() returns (itemUsage: map<ItemId, real>, keys: seq<ItemId>)
      ensures keys == Analytics.FirstSeen(usageRecords)
      ensures itemUsage == Analytics.UsageTotals(usageRecords)
    {
      var records := usageRecords;
      itemUsage := map[];
      keys := [];
      var i := 0;
      while i < |records|
        invariant 0 <= i <= |records|
        invariant keys == Analytics.FirstSeen(records[..i])
        invariant itemUsage == Analytics.UsageTotals(records[..i])
      {
        var record := records[i];
        Analytics.UsageStep(records, i);
        assert record.itemId in itemUsage <==> record.itemId in keys by {
          Analytics.UsageTotalsKeys(records[..i]);
        }
        var current := if record.itemId in itemUsage then itemUsage[record.itemId] else 0.0;
        if record.itemId !in itemUsage {
          keys := keys + [record.itemId];
        }
        itemUsage := itemUsage[record.itemId := current + record.quantity];
        i := i + 1;
      }
      assert records[..i] == records;
    }
  }
}
