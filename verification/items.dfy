/** Edits of the item list: the `map`/`filter`/`find` expressions of the item actions. */
module ItemList {
  import opened Types
  import Seqs

  predicate HasId(items: seq<Item>, id: ItemId)
  {
    exists i :: 0 <= i < |items| && items[i].id == id
  }

  /** No two items share an id (what fresh ids from `addItem` give). */
  predicate UniqueIds(items: seq<Item>)
  {
    forall i, j :: 0 <= i < j < |items| ==> items[i].id != items[j].id
  }

  /** The store's invariant: no quantity is negative. */
  predicate AllNonNegative(items: seq<Item>)
  {
    forall i :: 0 <= i < |items| ==> items[i].quantity >= 0.0
  }

  /** Position of the first item with this id, or `|items|` when there is none. */
  function FirstIndex(items: seq<Item>, id: ItemId): (k: nat)
    ensures k <= |items|
    ensures k < |items| ==> items[k].id == id
    ensures forall j :: 0 <= j < k ==> items[j].id != id
    ensures k == |items| <==> !HasId(items, id)
  {
    if items == [] then 0
    else if items[0].id == id then 0
    else 1 + FirstIndex(items[1..], id)
  }

  /** The first item with this id, if any. */
  function Find(items: seq<Item>, id: ItemId): (r: Option<Item>)
    ensures r.None? <==> !HasId(items, id)
    ensures r.Some? ==> r.value.id == id && r.value in items
  {
    var k := FirstIndex(items, id);
    if k < |items| then Some(items[k]) else None
  }

  /** What `find` returns is the first item with the id: no earlier item has it. */
  lemma FindFirstMatch(items: seq<Item>, id: ItemId)
    requires HasId(items, id)
    ensures exists k :: 0 <= k < |items| && items[k] == Find(items, id).value &&
                        forall j :: 0 <= j < k ==> items[j].id != id
  {
    var k := FirstIndex(items, id);
    assert items[k] == Find(items, id).value;
  }

  /** Applies `f` to every item with this id and keeps every other item, in place. */
  function MapMatching(items: seq<Item>, id: ItemId, f: Item -> Item): (r: seq<Item>)
    ensures |r| == |items|
    ensures forall i :: 0 <= i < |items| ==> r[i] == if items[i].id == id then f(items[i]) else items[i]
  {
    if items == [] then []
    else [if items[0].id == id then f(items[0]) else items[0]] + MapMatching(items[1..], id, f)
  }

  /** updateItem: every item with this id gets the patch merged into it. */
  function Patched(items: seq<Item>, id: ItemId, p: ItemPatch): (r: seq<Item>)
    ensures |r| == |items|
    ensures forall i :: 0 <= i < |items| ==> r[i] == if items[i].id == id then MergeItem(items[i], p) else items[i]
  {
    MapMatching(items, id, (it: Item) => MergeItem(it, p))
  }

  /** refillItem: every item with this id gains `amount`, unclamped. */
  function Refilled(items: seq<Item>, id: ItemId, amount: real): (r: seq<Item>)
    ensures |r| == |items|
    ensures forall i :: 0 <= i < |items| ==>
              r[i] == if items[i].id == id then items[i].(quantity := items[i].quantity + amount) else items[i]
  {
    MapMatching(items, id, (it: Item) => it.(quantity := it.quantity + amount))
  }

  /** subtractQuantity's map: every item with this id gets quantity `q`. */
  function WithQuantity(items: seq<Item>, id: ItemId, q: real): (r: seq<Item>)
    ensures |r| == |items|
    ensures forall i :: 0 <= i < |items| ==>
              r[i] == if items[i].id == id then items[i].(quantity := q) else items[i]
  {
    MapMatching(items, id, (it: Item) => it.(quantity := q))
  }

  /** removeItem: drops every item with this id and keeps the rest in order. */
  function Removed(items: seq<Item>, id: ItemId): (r: seq<Item>)
    ensures !HasId(r, id)
    ensures forall it :: it in r <==> it in items && it.id != id
    ensures Seqs.IsSubsequence(r, items)
  {
    var r := Seqs.Filter(items, (it: Item) => it.id != id);
    assert forall i :: 0 <= i < |r| ==> r[i] in r;
    r
  }

  /** The longest id length; every id is at most this long. */
  function MaxIdLength(items: seq<Item>): (n: nat)
    ensures forall i :: 0 <= i < |items| ==> |items[i].id| <= n
  {
    if items == [] then 0
    else
      var rest := MaxIdLength(items[1..]);
      assert forall i :: 1 <= i < |items| ==> items[i] == items[1..][i - 1];
      if |items[0].id| > rest then |items[0].id| else rest
  }

  /** An id that no item has: longer than every id in the list. */
  function FreshId(items: seq<Item>): (id: ItemId)
    ensures !HasId(items, id)
  {
    seq(MaxIdLength(items) + 1, _ => '#')
  }

  /** An id that matches nothing makes every item edit a no-op. */
  lemma MissingIdIsNoOp(items: seq<Item>, id: ItemId, p: ItemPatch, amount: real, q: real)
    requires !HasId(items, id)
    ensures Patched(items, id, p) == items
    ensures Refilled(items, id, amount) == items
    ensures WithQuantity(items, id, q) == items
    ensures Removed(items, id) == items
  {
    assert Patched(items, id, p) == items;
    assert Refilled(items, id, amount) == items;
    assert WithQuantity(items, id, q) == items;
    Seqs.FilterAllOrNothing(items, (it: Item) => it.id != id);
  }

  /** Appending an item with a fresh id keeps ids unique, and the new item is what `find` returns. */
  lemma {:induction false} AppendFreshKeepsUniqueIds(items: seq<Item>, item: Item)
    requires UniqueIds(items) && !HasId(items, item.id)
    ensures UniqueIds(items + [item])
    ensures Find(items + [item], item.id) == Some(item)
  {
    var s := items + [item];
    forall i, j | 0 <= i < j < |s| ensures s[i].id != s[j].id {
      if j == |items| {
        assert s[i] == items[i];
      }
    }
    assert FirstIndex(s, item.id) == |items| by {
      assert s[|items|].id == item.id;
      forall j | 0 <= j < |items| ensures s[j].id != item.id {
        assert s[j] == items[j];
      }
    }
  }

  /** The per-item edits keep ids, so they keep ids unique; an update keeps them
      unique when it does not touch the `id` key. */
  lemma MapEditsKeepUniqueIds(items: seq<Item>, id: ItemId, p: ItemPatch, amount: real, q: real)
    requires UniqueIds(items)
    ensures UniqueIds(Refilled(items, id, amount))
    ensures UniqueIds(WithQuantity(items, id, q))
    ensures p.id.None? ==> UniqueIds(Patched(items, id, p))
  {
    SameIdsKeepUniqueIds(items, Refilled(items, id, amount));
    SameIdsKeepUniqueIds(items, WithQuantity(items, id, q));
    if p.id.None? {
      SameIdsKeepUniqueIds(items, Patched(items, id, p));
    }
  }

  /** Removing an item keeps the others' ids unique. */
  lemma {:induction false} RemovedKeepsUniqueIds(items: seq<Item>, id: ItemId)
    requires UniqueIds(items)
    ensures UniqueIds(Removed(items, id))
    decreases |items|
  {
    if items != [] {
      var rest := items[1..];
      assert UniqueIds(rest) by {
        forall i, j | 0 <= i < j < |rest| ensures rest[i].id != rest[j].id {
          assert rest[i] == items[i + 1] && rest[j] == items[j + 1];
        }
      }
      RemovedKeepsUniqueIds(rest, id);
      var tail := Removed(rest, id);
      assert Removed(items, id) == if items[0].id != id then [items[0]] + tail else tail;
      forall x | x in tail ensures x.id != items[0].id {
        var k :| 0 <= k < |rest| && rest[k] == x;
        assert items[k + 1] == x;
      }
      if items[0].id != id {
        var r := [items[0]] + tail;
        forall i, j | 0 <= i < j < |r| ensures r[i].id != r[j].id {
          if i == 0 {
            assert r[j] == tail[j - 1] && r[j] in tail;
          } else {
            assert r[i] == tail[i - 1] && r[j] == tail[j - 1];
          }
        }
      }
    }
  }

  /** In a list whose ids are all unique, refilling an item and then setting its quantity back to what it
      was gives back the original list; the refill is found where the item was. */
  lemma RefillThenRestore(items: seq<Item>, id: ItemId, x: real)
    requires UniqueIds(items) && HasId(items, id)
    ensures FirstIndex(Refilled(items, id, x), id) == FirstIndex(items, id)
    ensures Refilled(items, id, x)[FirstIndex(items, id)].quantity == items[FirstIndex(items, id)].quantity + x
    ensures WithQuantity(Refilled(items, id, x), id, items[FirstIndex(items, id)].quantity) == items
  {
    var k := FirstIndex(items, id);
    var refilled := Refilled(items, id, x);
    SameIdsSameFirstIndex(items, refilled, id);
    var back := WithQuantity(refilled, id, items[k].quantity);
    forall i | 0 <= i < |items|
      ensures back[i] == items[i]
    {
      assert refilled[i].id == items[i].id;
      if items[i].id == id {
        assert i == k;
        assert back[i] == items[i].(quantity := items[k].quantity);
      }
    }
  }

  /** Lists that agree on every id agree on where an id first occurs. */
  lemma SameIdsSameFirstIndex(a: seq<Item>, b: seq<Item>, id: ItemId)
    requires |a| == |b| && forall i :: 0 <= i < |a| ==> a[i].id == b[i].id
    ensures FirstIndex(a, id) == FirstIndex(b, id)
  {
  }

  /** An edit that keeps every position's id keeps ids unique. */
  lemma SameIdsKeepUniqueIds(a: seq<Item>, b: seq<Item>)
    requires |a| == |b| && forall i :: 0 <= i < |a| ==> a[i].id == b[i].id
    requires UniqueIds(a)
    ensures UniqueIds(b)
  {
  }
}
