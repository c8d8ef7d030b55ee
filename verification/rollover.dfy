/** The per-item pieces of the daily rollover: which items are auto-subtracted, what one
    day does to such an item, and the usage records a rollover logs. */
module Rollover {
  import opened Types
  import Seqs

  /** Auto-subtracted items with a daily usage; an absent daily usage and a daily usage of 0
      both count as none, so such items are skipped. */
  predicate Eligible(item: Item)
  {
    item.autoSubtractDaily && item.dailyUsage.Some? && item.dailyUsage.value != 0.0
  }

  function DailyAmount(item: Item): real
  {
    match item.dailyUsage
    case Some(u) => u
    case None => 0.0
  }

  /** What the rollover's `map` makes of one item. */
  function AfterOneDay(item: Item): (r: Item)
    ensures r.(quantity := item.quantity) == item
    ensures Eligible(item) ==> r.quantity >= 0.0
    ensures Eligible(item) && DailyAmount(item) > 0.0 && item.quantity >= 0.0 ==> r.quantity <= item.quantity
    ensures Eligible(item) && item.quantity >= DailyAmount(item) ==> r.quantity == item.quantity - DailyAmount(item)
    ensures Eligible(item) ==> r.quantity == ClampAtZero(item.quantity - DailyAmount(item))
    ensures !Eligible(item) ==> r == item
  {
    if Eligible(item) then item.(quantity := ClampAtZero(item.quantity - DailyAmount(item))) else item
  }

  /** The record the rollover pushes for an eligible item. */
  function RecordFor(item: Item, today: Day): (r: UsageRecord)
    ensures r.itemId == item.id && r.date == today
    ensures r.quantity == DailyAmount(item) && r.calories == r.quantity * item.caloriesPerUnit
  {
    UsageOf(item.id, today, DailyAmount(item), item.caloriesPerUnit)
  }

  /** The rolled-over item list, built left to right like the `map`. */
  function ItemsAfterOneDay(items: seq<Item>): (r: seq<Item>)
    ensures |r| == |items|
    ensures forall i :: 0 <= i < |items| ==> r[i] == AfterOneDay(items[i])
  {
    if items == [] then [] else ItemsAfterOneDay(items[..|items| - 1]) + [AfterOneDay(items[|items| - 1])]
  }

  /** The records pushed during one rollover, built left to right like the pushes. */
  function RolloverRecords(items: seq<Item>, today: Day): (r: seq<UsageRecord>)
    ensures |r| <= |items|
    ensures forall k :: 0 <= k < |r| ==> r[k].date == today
  {
    if items == [] then []
    else RolloverRecords(items[..|items| - 1], today) +
           if Eligible(items[|items| - 1]) then [RecordFor(items[|items| - 1], today)] else []
  }

  /** The rollover logs one record per eligible item, in item order, and nothing else. */
  lemma {:induction false} RolloverRecordsInOrder(items: seq<Item>, today: Day)
    ensures var due := Seqs.Filter(items, Eligible);
            var r := RolloverRecords(items, today);
            |r| == |due| && forall k :: 0 <= k < |r| ==> r[k] == RecordFor(due[k], today)
  {
    if items != [] {
      var init := items[..|items| - 1];
      var last := items[|items| - 1];
      assert items == init + [last];
      RolloverRecordsInOrder(init, today);
      Seqs.FilterAppend(init, [last], Eligible);
      assert Seqs.Filter([last], Eligible) == if Eligible(last) then [last] else [] by {
        assert [last][1..] == [];
      }
    }
  }

  /** Taking one more item of the list adds exactly that item's share of the rollover. */
  lemma PrefixStep(items: seq<Item>, i: nat, today: Day)
    requires i < |items|
    ensures ItemsAfterOneDay(items[..i + 1]) == ItemsAfterOneDay(items[..i]) + [AfterOneDay(items[i])]
    ensures RolloverRecords(items[..i + 1], today) ==
            RolloverRecords(items[..i], today) + if Eligible(items[i]) then [RecordFor(items[i], today)] else []
  {
    assert items[..i + 1][..i] == items[..i];
  }

  /** The rollover's updater: one pass over the items that pushes a record onto the log for
      each auto-subtracted item while building the new item list. */
  method RolloverPass(items: seq<Item>, log: seq<UsageRecord>, today: Day)
    returns (updatedItems: seq<Item>, records: seq<UsageRecord>)
    ensures updatedItems == ItemsAfterOneDay(items)
    ensures records == log + RolloverRecords(items, today)
  {
    updatedItems, records := [], log;
    var i := 0;
    while i < |items|
      invariant 0 <= i <= |items|
      invariant updatedItems == ItemsAfterOneDay(items[..i])
      invariant records == log + RolloverRecords(items[..i], today)
    {
      var item := items[i];
      PrefixStep(items, i, today);
      if item.autoSubtractDaily && item.dailyUsage.Some? && item.dailyUsage.value != 0.0 {
        var newQuantity := ClampAtZero(item.quantity - item.dailyUsage.value);
        var usageRecord := UsageOf(item.id, today, item.dailyUsage.value, item.caloriesPerUnit);
        assert records + [usageRecord] == log + (RolloverRecords(items[..i], today) + [usageRecord]);
        records := records + [usageRecord];
        updatedItems := updatedItems + [item.(quantity := newQuantity)];
      } else {
        updatedItems := updatedItems + [item];
      }
      i := i + 1;
    }
    assert items[..i] == items;
  }

  /** A rollover logs something exactly when some item is eligible. */
  lemma RolloverLogsIffEligible(items: seq<Item>, today: Day)
    ensures RolloverRecords(items, today) != [] <==> exists i :: 0 <= i < |items| && Eligible(items[i])
    ensures forall x :: x in RolloverRecords(items, today) ==> x.date == today
  {
  }
}
