/** The inventory of js/inventoryManager.js: a list of item records, where
    adding stacks onto an entry with the same id and removing decrements the
    first such entry, deleting it once its quantity is no longer positive.

    The list operations are specified by functions on `seq<Item>`, which the
    combat engine, the scene engine and the input handlers reuse on the
    game's own inventory array; `InventoryManager` is the class that owns a
    list and updates it in place. */
module Inventory {
  import opened Common

  // ------------------------------------------------------------- lookups

  /** `items.findIndex(i => i.id === id)`: the first index holding `id`,
      or -1. */
  function FindIndex(items: seq<Item>, id: string): (k: int)
    ensures -1 <= k < |items|
    ensures k == -1 <==> forall i :: 0 <= i < |items| ==> items[i].id != id
    ensures k >= 0 ==> items[k].id == id && forall i :: 0 <= i < k ==> items[i].id != id
  {
    if |items| == 0 then -1
    else if items[0].id == id then 0
    else
      var k := FindIndex(items[1..], id);
      if k == -1 then -1 else k + 1
  }

  /** `getItem(id)`: the first entry with that id. */
  function GetItem(items: seq<Item>, id: string): (r: Option<Item>)
    ensures r.None? <==> forall i :: 0 <= i < |items| ==> items[i].id != id
    ensures r.Some? ==> exists k :: 0 <= k < |items| && r.value == items[k] && items[k].id == id
                                    && forall j :: 0 <= j < k ==> items[j].id != id
  {
    var k := FindIndex(items, id);
    if k == -1 then None else Some(items[k])
  }

  /** `hasItem(id, q)`: the first entry with that id holds at least `q`. */
  function HasItem(items: seq<Item>, id: string, q: int): (b: bool)
    ensures b <==> exists k :: 0 <= k < |items| && items[k].id == id
                              && (forall j :: 0 <= j < k ==> items[j].id != id)
                              && items[k].quantity >= q
  {
    var k := FindIndex(items, id);
    k >= 0 && items[k].quantity >= q
  }

  /** `getItemsByType(t)`: the entries whose type or category is `t`. */
  function GetItemsByType(items: seq<Item>, t: string): (r: seq<Item>)
    ensures |r| <= |items|
    ensures forall x :: x in r <==> x in items && HasKind(x, t)
  {
    if |items| == 0 then []
    else
      assert items == [items[0]] + items[1..];
      (if HasKind(items[0], t) then [items[0]] else []) + GetItemsByType(items[1..], t)
  }

  /** Filtering commutes with concatenation, so the selected entries keep
      the order they have in the inventory. */
  lemma {:induction false} GetItemsByTypeAppend(a: seq<Item>, b: seq<Item>, t: string)
    ensures GetItemsByType(a + b, t) == GetItemsByType(a, t) + GetItemsByType(b, t)
  {
    if |a| == 0 {
      assert a + b == b;
    } else {
      assert (a + b)[0] == a[0];
      assert (a + b)[1..] == a[1..] + b;
      GetItemsByTypeAppend(a[1..], b, t);
    }
  }

  // ------------------------------------------------------- adding, removing

  /** The stacking rule: with `stack` and an entry of the same id, that entry
      grows by `q`; otherwise a copy of the item with quantity `q` is
      appended.  `addItem` stacks when `item.stackable !== false`; the combat
      loot and scene-item loops always stack. */
  function Put(items: seq<Item>, item: Item, q: int, stack: bool): (r: seq<Item>)
    ensures var k := FindIndex(items, item.id);
      if k >= 0 && stack then
        |r| == |items| && r[k] == items[k].(quantity := items[k].quantity + q)
        && forall i :: 0 <= i < |items| && i != k ==> r[i] == items[i]
      else
        |r| == |items| + 1 && r[..|items|] == items && r[|items|] == item.(quantity := q)
  {
    var k := FindIndex(items, item.id);
    if k >= 0 && stack then items[k := items[k].(quantity := items[k].quantity + q)]
    else items + [item.(quantity := q)]
  }

  /** `addItem(item, q)` on a present item. */
  function Added(items: seq<Item>, item: Item, q: int): seq<Item> {
    Put(items, item, q, item.stackable())
  }

  /** `removeItem(id, q)`: the first entry with that id loses `q`, and is
      deleted, the others keeping their order, once it is not positive. */
  function Removed(items: seq<Item>, id: string, q: int): (r: seq<Item>)
    ensures var k := FindIndex(items, id);
      if k == -1 then r == items
      else if items[k].quantity - q <= 0 then
        |r| == |items| - 1 && r[..k] == items[..k] && r[k..] == items[k + 1..]
      else
        |r| == |items| && r[k] == items[k].(quantity := items[k].quantity - q)
        && forall i :: 0 <= i < |items| && i != k ==> r[i] == items[i]
  {
    var k := FindIndex(items, id);
    if k == -1 then items
    else if items[k].quantity - q <= 0 then items[..k] + items[k + 1..]
    else items[k := items[k].(quantity := items[k].quantity - q)]
  }

  /** `item.quantity || 1`, the quantity `addItems` passes on. */
  function QuantityOr1(x: Item): int {
    if x.quantity == 0 then 1 else x.quantity
  }

  /** `addItems(xs)` on a non-empty list: `addItem` for each, in order. */
  function AddedAll(items: seq<Item>, xs: seq<Item>): seq<Item>
    decreases |xs|
  {
    if |xs| == 0 then items
    else
      var last := xs[|xs| - 1];
      Added(AddedAll(items, xs[..|xs| - 1]), last, QuantityOr1(last))
  }

  // ---------------------------------------------------------------- counts

  function Contribution(x: Item, id: string): int {
    if x.id == id then x.quantity else 0
  }

  /** Total quantity held under `id`, over every entry with that id. */
  function Count(items: seq<Item>, id: string): int {
    if |items| == 0 then 0 else Contribution(items[0], id) + Count(items[1..], id)
  }

  lemma {:induction false} CountAppend(a: seq<Item>, b: seq<Item>, id: string)
    ensures Count(a + b, id) == Count(a, id) + Count(b, id)
  {
    if |a| == 0 {
      assert a + b == b;
    } else {
      assert (a + b)[0] == a[0];
      assert (a + b)[1..] == a[1..] + b;
      CountAppend(a[1..], b, id);
    }
  }

  lemma CountSplit(items: seq<Item>, k: int, id: string)
    requires 0 <= k < |items|
    ensures Count(items, id) == Count(items[..k], id) + Contribution(items[k], id) + Count(items[k + 1..], id)
  {
    assert items == items[..k] + ([items[k]] + items[k + 1..]);
    CountAppend(items[..k], [items[k]] + items[k + 1..], id);
    assert ([items[k]] + items[k + 1..])[1..] == items[k + 1..];
  }

  lemma CountUpdate(items: seq<Item>, k: int, x: Item, id: string)
    requires 0 <= k < |items|
    ensures Count(items[k := x], id) == Count(items, id) - Contribution(items[k], id) + Contribution(x, id)
  {
    var r := items[k := x];
    CountSplit(items, k, id);
    CountSplit(r, k, id);
    assert r[..k] == items[..k];
    assert r[k + 1..] == items[k + 1..];
  }

  lemma CountDelete(items: seq<Item>, k: int, id: string)
    requires 0 <= k < |items|
    ensures Count(items[..k] + items[k + 1..], id) == Count(items, id) - Contribution(items[k], id)
  {
    CountSplit(items, k, id);
    CountAppend(items[..k], items[k + 1..], id);
  }

  /** Adding `q` of an item raises the total held under its id by exactly
      `q`, whether it stacks or appends, and leaves every other id's total
      alone. */
  lemma PutCount(items: seq<Item>, item: Item, q: int, stack: bool, id: string)
    ensures Count(Put(items, item, q, stack), id)
         == Count(items, id) + (if id == item.id then q else 0)
  {
    var k := FindIndex(items, item.id);
    if k >= 0 && stack {
      var x := items[k].(quantity := items[k].quantity + q);
      assert Put(items, item, q, stack) == items[k := x];
      CountUpdate(items, k, x, id);
    } else {
      assert Put(items, item, q, stack) == items + [item.(quantity := q)];
      CountAppend(items, [item.(quantity := q)], id);
    }
  }

  /** Removing takes `q` from the total under `id`, or the whole entry's
      quantity when that entry is deleted; nothing is taken for an absent id
      and other ids keep their totals. */
  lemma RemovedCount(items: seq<Item>, id: string, q: int, other: string)
    ensures var k := FindIndex(items, id);
      Count(Removed(items, id, q), other)
      == Count(items, other)
         - (if k == -1 || other != id then 0
            else if items[k].quantity - q <= 0 then items[k].quantity
            else q)
  {
    var k := FindIndex(items, id);
    if k >= 0 {
      if items[k].quantity - q <= 0 {
        assert Removed(items, id, q) == items[..k] + items[k + 1..];
        CountDelete(items, k, other);
      } else {
        var x := items[k].(quantity := items[k].quantity - q);
        assert Removed(items, id, q) == items[k := x];
        CountUpdate(items, k, x, other);
      }
    }
  }

  /** Total quantity `addItems(xs)` asks for under `id`. */
  function Requested(xs: seq<Item>, id: string): int
    decreases |xs|
  {
    if |xs| == 0 then 0
    else Requested(xs[..|xs| - 1], id) + (if xs[|xs| - 1].id == id then QuantityOr1(xs[|xs| - 1]) else 0)
  }

  /** `addItems` loses nothing: every id's total grows by what the list
      asked for under it. */
  lemma {:induction false} AddedAllCount(items: seq<Item>, xs: seq<Item>, id: string)
    ensures Count(AddedAll(items, xs), id) == Count(items, id) + Requested(xs, id)
    decreases |xs|
  {
    if |xs| > 0 {
      var last := xs[|xs| - 1];
      AddedAllCount(items, xs[..|xs| - 1], id);
      PutCount(AddedAll(items, xs[..|xs| - 1]), last, QuantityOr1(last), last.stackable(), id);
    }
  }

  /** `removeItem(id, q)` undoes `addItem(item, q)` for a positive `q` when
      the item was absent, or was stacked onto a positive entry.  (It does
      not for a non-stackable duplicate: the copy is appended, but removal
      hits the first entry.) */
  lemma RemovedUndoesPut(items: seq<Item>, item: Item, q: int, stack: bool)
    requires q > 0
    requires var k := FindIndex(items, item.id);
      k == -1 || (stack && items[k].quantity > 0)
    ensures Removed(Put(items, item, q, stack), item.id, q) == items
  {
    var k := FindIndex(items, item.id);
    var r := Put(items, item, q, stack);
    if k == -1 {
      var x := item.(quantity := q);
      assert r == items + [x];
      RemovedUndoesAppend(items, x, q);
      assert Removed(items + [x], x.id, q) == items;
    } else {
      assert stack;
      var bumped := items[k := items[k].(quantity := items[k].quantity + q)];
      assert r == bumped;
      RemovedUndoesStack(items, item.id, k, q);
      assert Removed(bumped, item.id, q) == items;
    }
  }

  lemma FindIndexIs(items: seq<Item>, id: string, k: int)
    requires 0 <= k < |items| && items[k].id == id
    requires forall i :: 0 <= i < k ==> items[i].id != id
    ensures FindIndex(items, id) == k
  {
  }

  lemma RemovedUndoesAppend(items: seq<Item>, x: Item, q: int)
    requires q > 0 && x.quantity == q
    requires FindIndex(items, x.id) == -1
    ensures Removed(items + [x], x.id, q) == items
  {
    var r := items + [x];
    FindIndexIs(r, x.id, |items|);
    assert r[..|items|] + r[|items| + 1..] == items;
  }

  lemma RemovedUndoesStack(items: seq<Item>, id: string, k: int, q: int)
    requires 0 <= k < |items| && items[k].quantity > 0 && items[k].id == id
    requires FindIndex(items, id) == k
    ensures Removed(items[k := items[k].(quantity := items[k].quantity + q)], id, q) == items
  {
    var x := items[k];
    var r := items[k := x.(quantity := x.quantity + q)];
    FindIndexIs(r, id, k);
    var left := r[k].quantity - q;
    assert r[k].(quantity := left) == x;
    assert r[k := r[k].(quantity := left)] == items;
    var rr := Removed(r, id, q);
    assert rr == r[k := r[k].(quantity := left)];
    assert rr == items;
  }

  /** A non-stackable item whose id is already held gets a second entry
      with the same id. */
  lemma NonStackableDuplicates(items: seq<Item>, item: Item, q: int)
    requires !item.stackable() && FindIndex(items, item.id) >= 0
    ensures var r := Added(items, item, q);
      |r| == |items| + 1 && Count(r, item.id) == Count(items, item.id) + q
      && FindIndex(r, item.id) == FindIndex(items, item.id)
      && r[|items|].id == item.id
  {
    var r := Added(items, item, q);
    var k := FindIndex(items, item.id);
    PutCount(items, item, q, false, item.id);
    assert r[..|items|] == items;
    assert forall i :: 0 <= i < k ==> r[i] == items[i];
  }

  // ------------------------------------------------------------- the class

  /** What `useItem` reports. */
  datatype UseOutcome =
    | NotFound
    | Consumed(success: bool)   // the consumable hook's verdict
    | IsMaterial
    | NotUsable

  class InventoryManager {
    var items: seq<Item>

    constructor ()
      ensures items == []
    {
      items := [];
    }

    /** `addItem(item, quantity)`; `None` is a null item. */
    method AddItem(item: Option<Item>, quantity: int) returns (ok: bool)
      modifies this
      ensures ok == item.Some?
      ensures items == if ok then Added(old(items), item.value, quantity) else old(items)
    {
      if item.None? {
        return false;
      }
      var it := item.value;
      var k := FindIndex(items, it.id);
      if k >= 0 && it.stackable() {
        items := items[k := items[k].(quantity := items[k].quantity + quantity)];
      } else {
        items := items + [it.(quantity := quantity)];
      }
      return true;
    }

    /** `addItems(list)`: refused for a null or empty list, otherwise each
        entry is added with `item.quantity || 1`. */
    method AddItems(list: Option<seq<Item>>) returns (ok: bool)
      modifies this
      ensures ok <==> list.Some? && |list.value| > 0
      ensures items == if ok then AddedAll(old(items), list.value) else old(items)
    {
      if list.None? || |list.value| == 0 {
        return false;
      }
      var xs := list.value;
      var i := 0;
      while i < |xs|
        invariant 0 <= i <= |xs|
        invariant items == AddedAll(old(items), xs[..i])
      {
        var x := xs[i];
        var added := AddItem(Some(x), QuantityOr1(x));
        assert xs[..i + 1][..i] == xs[..i];
        i := i + 1;
      }
      assert xs[..|xs|] == xs;
      return true;
    }

    /** `removeItem(id, quantity)`: false, and no change, for an absent id. */
    method RemoveItem(id: string, quantity: int) returns (ok: bool)
      modifies this
      ensures ok <==> FindIndex(old(items), id) >= 0
      ensures items == Removed(old(items), id, quantity)
    {
      var k := FindIndex(items, id);
      if k == -1 {
        return false;
      }
      var left := items[k].quantity - quantity;
      if left <= 0 {
        items := items[..k] + items[k + 1..];
      } else {
        items := items[k := items[k].(quantity := left)];
      }
      return true;
    }

    /** `useItem(id)`.  `hookSucceeds` is the verdict of the game's
        consumable hook, which this model does not contain. */
    method UseItem(id: string, hookSucceeds: bool) returns (r: UseOutcome)
      modifies this
      ensures GetItem(old(items), id).None? ==> r == NotFound
      ensures GetItem(old(items), id).Some? ==>
        var it := GetItem(old(items), id).value;
        r == (if HasKind(it, "consumable") then Consumed(hookSucceeds)
              else if HasKind(it, "material") then IsMaterial
              else NotUsable)
      ensures items == if r == Consumed(true) then Removed(old(items), id, 1) else old(items)
    {
      var found := GetItem(items, id);
      if found.None? {
        return NotFound;
      }
      var it := found.value;
      if HasKind(it, "consumable") {
        if hookSucceeds {
          var removed := RemoveItem(id, 1);
        }
        return Consumed(hookSucceeds);
      } else if HasKind(it, "material") {
        return IsMaterial;
      } else {
        return NotUsable;
      }
    }

    method Save() returns (saved: seq<Item>)
      ensures saved == items
    {
      return items;
    }

    /** `load(data)`: `None` is a missing list, which yields an empty one. */
    method Load(data: Option<seq<Item>>)
      modifies this
      ensures items == if data.Some? then data.value else []
    {
      items := if data.Some? then data.value else [];
    }
  }

  /** Loading what was saved gives back the same list. */
  method SaveLoadRoundTrip(inv: InventoryManager)
    modifies inv
    ensures inv.items == old(inv.items)
  {
    var saved := inv.Save();
    inv.Load(Some(saved));
  }
}
