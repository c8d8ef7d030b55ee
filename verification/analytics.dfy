/** The store's derived analytics: calories per day, the refill list, the 7-day
    calorie report and the top-consumed ranking. */
module Analytics {
  import opened Types
  import Seqs
  import ItemList

  /** No usage record is dated `d`. */
  predicate NoRecordsOn(recs: seq<UsageRecord>, d: Day)
  {
    forall i :: 0 <= i < |recs| ==> recs[i].date != d
  }

  /** The usage records dated `d`, in log order. */
  function RecordsOn(recs: seq<UsageRecord>, d: Day): (r: seq<UsageRecord>)
    ensures forall x :: x in r <==> x in recs && x.date == d
    ensures r == [] <==> NoRecordsOn(recs, d)
  {
    var r := Seqs.Filter(recs, (x: UsageRecord) => x.date == d);
    assert r != [] ==> r[0] in r;
    assert forall i :: 0 <= i < |recs| ==> recs[i] in recs;
    r
  }

  /** The sum of the records' calories, starting from 0 and folded from the left. */
  function SumCalories(recs: seq<UsageRecord>): (r: real)
    ensures (forall i :: 0 <= i < |recs| ==> recs[i].calories >= 0.0) ==> r >= 0.0
  {
    if recs == [] then 0.0 else SumCalories(recs[..|recs| - 1]) + recs[|recs| - 1].calories
  }

  /** Calories logged on day `d` (getTodaysCalories with `d` = today). */
  function CaloriesOn(recs: seq<UsageRecord>, d: Day): (r: real)
    ensures NoRecordsOn(recs, d) ==> r == 0.0
    ensures (forall i :: 0 <= i < |recs| ==> recs[i].calories >= 0.0) ==> r >= 0.0
  {
    var on := RecordsOn(recs, d);
    assert forall i :: 0 <= i < |on| ==> on[i] in on;
    SumCalories(on)
  }

  /** Logging a record adds its calories to its own day and to no other day;
      which item it names (even a deleted one) plays no part. */
  lemma CaloriesOnAppend(recs: seq<UsageRecord>, x: UsageRecord, d: Day)
    ensures CaloriesOn(recs + [x], d) == CaloriesOn(recs, d) + (if x.date == d then x.calories else 0.0)
  {
    var p := (y: UsageRecord) => y.date == d;
    Seqs.FilterAppend(recs, [x], p);
    assert Seqs.Filter([x], p) == if x.date == d then [x] else [] by {
      assert [x][1..] == [];
    }
    var on := Seqs.Filter(recs, p);
    if x.date == d {
      assert (on + [x])[..|on + [x]| - 1] == on;
    } else {
      assert on + [] == on;
    }
  }

  const DefaultRefillThreshold: real := 5.0

  /** The item's refill threshold, where a missing threshold and a threshold of 0 both become 5. */
  function Threshold(item: Item): real
  {
    match item.refillThreshold
    case Some(t) => if t != 0.0 then t else DefaultRefillThreshold
    case None => DefaultRefillThreshold
  }

  predicate NeedsRefill(item: Item)
  {
    item.quantity <= Threshold(item)
  }

  /** getItemsNeedingRefill: the items at or below their threshold, in list order. */
  function RefillList(items: seq<Item>): (r: seq<Item>)
    ensures forall it :: it in r <==> it in items && it.quantity <= Threshold(it)
    ensures Seqs.IsSubsequence(r, items)
  {
    Seqs.Filter(items, NeedsRefill)
  }

  /** The threshold boundary: a threshold that is absent or zero acts as 5, inclusively. */
  lemma DefaultThresholdBoundary(item: Item)
    requires item.refillThreshold.None? || item.refillThreshold == Some(0.0)
    ensures item.quantity == 5.0 ==> NeedsRefill(item)
    ensures item.quantity == 5.01 ==> !NeedsRefill(item)
    ensures NeedsRefill(item) <==> item.quantity <= 5.0
  {
  }

  datatype DayCalories = DayCalories(date: Day, calories: real)

  const ReportDays: nat := 7

  /** getWeeklyCalorieReport: one entry per day from `today - 6` to `today`, oldest first. */
  function WeeklyReport(recs: seq<UsageRecord>, today: Day): (r: seq<DayCalories>)
    ensures |r| == ReportDays
    ensures forall i :: 0 <= i < ReportDays ==>
              r[i] == DayCalories(today - (ReportDays - 1 - i), CaloriesOn(recs, today - (ReportDays - 1 - i)))
  {
    seq(ReportDays, i requires 0 <= i < ReportDays =>
      DayCalories(today - (ReportDays - 1 - i), CaloriesOn(recs, today - (ReportDays - 1 - i))))
  }

  /** The report ends with today's total (getTodaysCalories), its days strictly increase,
      and a day without records shows 0. */
  lemma WeeklyReportDays(recs: seq<UsageRecord>, today: Day)
    ensures var r := WeeklyReport(recs, today);
            && r[ReportDays - 1] == DayCalories(today, CaloriesOn(recs, today))
            && (forall i, j :: 0 <= i < j < ReportDays ==> r[i].date < r[j].date)
            && (forall i :: 0 <= i < ReportDays && NoRecordsOn(recs, r[i].date) ==> r[i].calories == 0.0)
  {
  }

  /** The report covers exactly the seven days ending today. */
  lemma WeeklyReportWindow(recs: seq<UsageRecord>, today: Day, d: Day)
    ensures (exists i :: 0 <= i < ReportDays && WeeklyReport(recs, today)[i].date == d) <==> today - 6 <= d <= today
  {
    var r := WeeklyReport(recs, today);
    if today - 6 <= d <= today {
      assert r[d - (today - 6)].date == d;
    }
  }

  /** Sum of the quantities of every record naming `id`, folded from the left. */
  function TotalUsed(recs: seq<UsageRecord>, id: ItemId): real
  {
    if recs == [] then 0.0
    else TotalUsed(recs[..|recs| - 1], id) + (if recs[|recs| - 1].itemId == id then recs[|recs| - 1].quantity else 0.0)
  }

  /** An id no record names has a total of 0. */
  lemma {:induction false} TotalUsedUnseen(recs: seq<UsageRecord>, id: ItemId)
    requires forall i :: 0 <= i < |recs| ==> recs[i].itemId != id
    ensures TotalUsed(recs, id) == 0.0
  {
    if recs != [] {
      TotalUsedUnseen(recs[..|recs| - 1], id);
    }
  }

  predicate Distinct<T(==)>(s: seq<T>)
  {
    forall i, j :: 0 <= i < j < |s| ==> s[i] != s[j]
  }

  /** The keys of the usage `Map`, in insertion order: each id at its first record. */
  function FirstSeen(recs: seq<UsageRecord>): seq<ItemId>
  {
    if recs == [] then []
    else
      var prev := FirstSeen(recs[..|recs| - 1]);
      if recs[|recs| - 1].itemId in prev then prev else prev + [recs[|recs| - 1].itemId]
  }

  /** The keys are exactly the ids some record names, each listed once. */
  lemma {:induction false} FirstSeenMembers(recs: seq<UsageRecord>)
    ensures Distinct(FirstSeen(recs))
    ensures forall id :: id in FirstSeen(recs) <==> exists i :: 0 <= i < |recs| && recs[i].itemId == id
  {
    if recs != [] {
      var init := recs[..|recs| - 1];
      FirstSeenMembers(init);
      assert forall i :: 0 <= i < |init| ==> init[i] == recs[i];
    }
  }

  /** The usage `Map` after the forEach: each record adds its quantity to its id's entry,
      which starts from 0 the first time the id is seen. The keys are the ids seen. */
  function UsageTotals(recs: seq<UsageRecord>): map<ItemId, real>
  {
    if recs == [] then map[]
    else
      var prev := UsageTotals(recs[..|recs| - 1]);
      var id := recs[|recs| - 1].itemId;
      prev[id := (if id in prev then prev[id] else 0.0) + recs[|recs| - 1].quantity]
  }

  /** The usage `Map` has an entry for exactly the ids in its key order. */
  lemma {:induction false} UsageTotalsKeys(recs: seq<UsageRecord>)
    ensures forall id :: id in UsageTotals(recs) <==> id in FirstSeen(recs)
  {
    if recs != [] {
      UsageTotalsKeys(recs[..|recs| - 1]);
    }
  }

  /** Every entry of the usage `Map` is the sum of its id's record quantities. */
  lemma {:induction false} UsageTotalsAreSums(recs: seq<UsageRecord>)
    ensures forall id :: id in UsageTotals(recs) ==> UsageTotals(recs)[id] == TotalUsed(recs, id)
  {
    if recs != [] {
      var init := recs[..|recs| - 1];
      var last := recs[|recs| - 1];
      UsageTotalsAreSums(init);
      if last.itemId !in UsageTotals(init) {
        assert forall k :: 0 <= k < |init| ==> init[k].itemId != last.itemId by {
          UsageTotalsKeys(init);
          FirstSeenMembers(init);
        }
        TotalUsedUnseen(init, last.itemId);
      }
    }
  }

  /** One more record: its id joins the keys of the usage `Map` if it is new, and its
      quantity is added to that id's entry. */
  lemma UsageStep(recs: seq<UsageRecord>, i: nat)
    requires i < |recs|
    ensures FirstSeen(recs[..i + 1]) ==
              if recs[i].itemId in FirstSeen(recs[..i]) then FirstSeen(recs[..i])
              else FirstSeen(recs[..i]) + [recs[i].itemId]
    ensures var prev := UsageTotals(recs[..i]);
            var id := recs[i].itemId;
            UsageTotals(recs[..i + 1]) == prev[id := (if id in prev then prev[id] else 0.0) + recs[i].quantity]
  {
    assert recs[..i + 1][..i] == recs[..i];
  }

  datatype Consumption = Consumption(item: Item, totalUsed: real)

  predicate DistinctItems(s: seq<Consumption>)
  {
    forall i, j :: 0 <= i < j < |s| ==> s[i].item.id != s[j].item.id
  }

  /** Pairs each id with the item it finds and its total, in key order; ids whose item no
      longer exists are dropped. */
  function Resolved(ids: seq<ItemId>, items: seq<Item>, totals: map<ItemId, real>): (r: seq<Consumption>)
    requires forall id :: id in ids ==> id in totals
    ensures forall e :: e in r ==> e.item.id in ids && ItemList.Find(items, e.item.id) == Some(e.item) &&
                                   e.totalUsed == totals[e.item.id]
    ensures forall id :: id in ids && ItemList.HasId(items, id) ==> exists e :: e in r && e.item.id == id
    ensures Distinct(ids) ==> DistinctItems(r)
  {
    if ids == [] then []
    else
      var init := ids[..|ids| - 1];
      var id := ids[|ids| - 1];
      assert forall x :: x in init ==> x in ids;
      var prev := Resolved(init, items, totals);
      assert forall x :: x in ids ==> x in init || x == id;
      assert Distinct(ids) ==> Distinct(init) && id !in init;
      match ItemList.Find(items, id)
      case Some(it) => prev + [Consumption(it, totals[id])]
      case None => prev
  }

  predicate SortedByUsage(s: seq<Consumption>)
  {
    forall i, j :: 0 <= i < j < |s| ==> s[i].totalUsed >= s[j].totalUsed
  }

  /** Places `x` after every entry whose total is at least `x`'s, so equal totals keep
      their arrival order. */
  function Insert(x: Consumption, s: seq<Consumption>): (r: seq<Consumption>)
    ensures multiset(r) == multiset(s) + multiset{x}
    ensures |r| == |s| + 1
  {
    if s == [] then [x]
    else if s[0].totalUsed >= x.totalUsed then
      assert s == [s[0]] + s[1..];
      [s[0]] + Insert(x, s[1..])
    else
      [x] + s
  }

  /** Every entry of `Insert(x, s)` is `x` or an entry of `s`. */
  lemma InsertMembers(x: Consumption, s: seq<Consumption>)
    ensures forall y :: y in Insert(x, s) ==> y == x || y in s
  {
  }

  /** Inserting into a sorted list keeps it sorted. */
  lemma {:induction false} InsertSorted(x: Consumption, s: seq<Consumption>)
    requires SortedByUsage(s)
    ensures SortedByUsage(Insert(x, s))
  {
    if s != [] && s[0].totalUsed >= x.totalUsed {
      var rest := Insert(x, s[1..]);
      InsertSorted(x, s[1..]);
      InsertMembers(x, s[1..]);
      assert forall y :: y in s[1..] ==> y.totalUsed <= s[0].totalUsed by {
        forall y | y in s[1..] ensures y.totalUsed <= s[0].totalUsed {
          var k :| 0 <= k < |s[1..]| && s[1..][k] == y;
          assert s[k + 1] == y;
        }
      }
      ConsSorted(s[0], rest);
    } else if s != [] {
      assert forall y :: y in s ==> y.totalUsed <= x.totalUsed by {
        forall y | y in s ensures y.totalUsed <= x.totalUsed {
          var k :| 0 <= k < |s| && s[k] == y;
          assert s[0].totalUsed >= s[k].totalUsed || k == 0;
        }
      }
      ConsSorted(x, s);
    }
  }

  /** An entry whose total is at least every total of a sorted list can go in front of it. */
  lemma ConsSorted(h: Consumption, t: seq<Consumption>)
    requires SortedByUsage(t) && forall y :: y in t ==> y.totalUsed <= h.totalUsed
    ensures SortedByUsage([h] + t)
  {
    var r := [h] + t;
    forall i, j | 0 <= i < j < |r| ensures r[i].totalUsed >= r[j].totalUsed {
      if i == 0 {
        assert r[j] == t[j - 1] && r[j] in t;
      } else {
        assert r[i] == t[i - 1] && r[j] == t[j - 1];
      }
    }
  }

  /** Inserting an entry for an item not yet listed keeps items distinct. */
  lemma {:induction false} InsertDistinct(x: Consumption, s: seq<Consumption>)
    requires DistinctItems(s) && forall y :: y in s ==> y.item.id != x.item.id
    ensures DistinctItems(Insert(x, s))
  {
    if s != [] && s[0].totalUsed >= x.totalUsed {
      var tail := s[1..];
      assert DistinctItems(tail) by {
        forall i, j | 0 <= i < j < |tail| ensures tail[i].item.id != tail[j].item.id {
          assert tail[i] == s[i + 1] && tail[j] == s[j + 1];
        }
      }
      assert forall y :: y in tail ==> y in s;
      InsertDistinct(x, tail);
      InsertMembers(x, tail);
      var rest := Insert(x, tail);
      assert forall y :: y in tail ==> y.item.id != s[0].item.id by {
        forall y | y in tail ensures y.item.id != s[0].item.id {
          var k :| 0 <= k < |tail| && tail[k] == y;
          assert s[k + 1] == y;
        }
      }
      ConsDistinct(s[0], rest);
    } else if s != [] {
      ConsDistinct(x, s);
    }
  }

  /** An entry whose item is not among a distinct list's items can go in front of it. */
  lemma ConsDistinct(h: Consumption, t: seq<Consumption>)
    requires DistinctItems(t) && forall y :: y in t ==> y.item.id != h.item.id
    ensures DistinctItems([h] + t)
  {
    var r := [h] + t;
    forall i, j | 0 <= i < j < |r| ensures r[i].item.id != r[j].item.id {
      if i == 0 {
        assert r[j] == t[j - 1] && r[j] in t;
      } else {
        assert r[i] == t[i - 1] && r[j] == t[j - 1];
      }
    }
  }

  /** A stable sort by total, largest first. */
  function SortByUsage(s: seq<Consumption>): (r: seq<Consumption>)
    ensures multiset(r) == multiset(s)
    ensures SortedByUsage(r)
    ensures DistinctItems(s) ==> DistinctItems(r)
  {
    if s == [] then []
    else
      var init := s[..|s| - 1];
      var last := s[|s| - 1];
      assert s == init + [last];
      var sorted := SortByUsage(init);
      InsertSorted(last, sorted);
      if DistinctItems(s) then
        SortStepDistinct(s, sorted);
        Insert(last, sorted)
      else
        Insert(last, sorted)
  }

  /** The step of the sort on a list of distinct items: the last entry's item is not among
      the sorted others, so inserting it keeps items distinct. */
  lemma SortStepDistinct(s: seq<Consumption>, sorted: seq<Consumption>)
    requires s != [] && DistinctItems(s)
    requires multiset(sorted) == multiset(s[..|s| - 1]) && DistinctItems(sorted)
    ensures DistinctItems(Insert(s[|s| - 1], sorted))
  {
    var init := s[..|s| - 1];
    var last := s[|s| - 1];
    forall y | y in sorted ensures y.item.id != last.item.id {
      assert y in multiset(init);
      var k :| 0 <= k < |init| && init[k] == y;
      assert s[k] == y;
    }
    InsertDistinct(last, sorted);
  }

  const TopCount: nat := 5

  /** The first five entries, or all of them when there are fewer. */
  function FirstFive(s: seq<Consumption>): (r: seq<Consumption>)
    ensures |r| <= TopCount && |r| <= |s|
    ensures |r| < TopCount ==> r == s
    ensures forall k :: 0 <= k < |r| ==> r[k] == s[k]
  {
    s[..if |s| < TopCount then |s| else TopCount]
  }

  /** getTopConsumedItems, as a composition: the usage totals in `Map` order, resolved to
      existing items, sorted, cut to five. */
  function TopConsumed(items: seq<Item>, recs: seq<UsageRecord>): (r: seq<Consumption>)
    ensures |r| <= TopCount
    ensures SortedByUsage(r)
  {
    UsageTotalsKeys(recs);
    FirstFive(SortByUsage(Resolved(FirstSeen(recs), items, UsageTotals(recs))))
  }

  /** Every ranked entry is an item that still exists (the one `find` returns for its id)
      and that some usage record names, with the sum of that id's record quantities; no
      item is listed twice. */
  lemma TopConsumedSound(items: seq<Item>, recs: seq<UsageRecord>)
    ensures var r := TopConsumed(items, recs);
            (forall k :: 0 <= k < |r| ==> ItemList.Find(items, r[k].item.id) == Some(r[k].item)) &&
            (forall k :: 0 <= k < |r| ==> exists i :: 0 <= i < |recs| && recs[i].itemId == r[k].item.id) &&
            (forall k :: 0 <= k < |r| ==> r[k].totalUsed == TotalUsed(recs, r[k].item.id)) &&
            DistinctItems(r)
  {
    UsageTotalsKeys(recs);
    FirstSeenMembers(recs);
    var totals := UsageTotals(recs);
    var entries := Resolved(FirstSeen(recs), items, totals);
    var sorted := SortByUsage(entries);
    var r := FirstFive(sorted);
    assert r == TopConsumed(items, recs);
    forall k | 0 <= k < |r|
      ensures ItemList.Find(items, r[k].item.id) == Some(r[k].item)
      ensures exists i :: 0 <= i < |recs| && recs[i].itemId == r[k].item.id
      ensures r[k].totalUsed == TotalUsed(recs, r[k].item.id)
    {
      var e := sorted[k];
      assert e in multiset(entries);
      assert e.totalUsed == totals[e.item.id];
      UsageTotalsAreSums(recs);
    }
  }

  /** Nothing that belongs in the ranking is missed: an existing item with records that is
      not listed means five entries are listed, each with at least that item's total. */
  lemma TopConsumedComplete(items: seq<Item>, recs: seq<UsageRecord>, i: int)
    requires 0 <= i < |recs| && ItemList.HasId(items, recs[i].itemId)
    requires forall k :: 0 <= k < |TopConsumed(items, recs)| ==> TopConsumed(items, recs)[k].item.id != recs[i].itemId
    ensures |TopConsumed(items, recs)| == TopCount
    ensures forall k :: 0 <= k < |TopConsumed(items, recs)| ==>
              TopConsumed(items, recs)[k].totalUsed >= TotalUsed(recs, recs[i].itemId)
  {
    var id := recs[i].itemId;
    var ids := FirstSeen(recs);
    FirstSeenMembers(recs);
    UsageTotalsKeys(recs);
    var entries := Resolved(ids, items, UsageTotals(recs));
    assert id in ids;
    var e :| e in entries && e.item.id == id;
    UsageTotalsAreSums(recs);
    var sorted := SortByUsage(entries);
    assert e in multiset(sorted);
    assert e in sorted;
    assert TopConsumed(items, recs) == FirstFive(sorted);
    CutKeepsLargest(sorted, e);
  }

  /** A sorted entry that the first five do not show is dominated by each of them,
      and there were five to show. */
  lemma CutKeepsLargest(sorted: seq<Consumption>, e: Consumption)
    requires SortedByUsage(sorted) && e in sorted
    requires forall k :: 0 <= k < |FirstFive(sorted)| ==> FirstFive(sorted)[k].item.id != e.item.id
    ensures |FirstFive(sorted)| == TopCount
    ensures forall k :: 0 <= k < |FirstFive(sorted)| ==> FirstFive(sorted)[k].totalUsed >= e.totalUsed
  {
  }
}
