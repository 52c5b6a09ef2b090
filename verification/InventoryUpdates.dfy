/**
 Inventory changes are checked against the state before the turn and applied in order: an update of an item
 that an earlier change of the same delta removed is accepted and then lost.
 */
module InventoryUpdates {
  import opened Wrappers
  import opened Sequences
  import opened Text
  import opened Domain
  import opened DeltaValidation
  import opened Reduction
  import opened Rosters

  /** What a change says about an item being in the inventory, if anything. */
  function Presence(id: EntityKey): InventoryChange -> Option<bool> {
    (c: InventoryChange) =>
      match c
      case ItemAdded(item, _) => if item.id == id then Some(true) else None
      case ItemRemoved(itemId, _) => if itemId == id then Some(false) else None
      case ItemUpdated(_, _) => None
  }

  lemma PresentAfterStep(items: seq<InventoryItem>, change: InventoryChange, id: EntityKey)
    ensures Any(StepInventory(items, change), ItemIs(id)) <==>
            Presence(id)(change).GetOr(Any(items, ItemIs(id)))
  {
    var after := StepInventory(items, change);
    AnyIff(items, ItemIs(id));
    AnyIff(after, ItemIs(id));
    if !change.ItemRemoved? {
      var hit := ItemIs(change.item.id);
      var i := FirstIndex(items, hit);
      assert forall k | 0 <= k < |items| :: after[k].id == items[k].id && after[k] in after && items[k] in items;
      if change.ItemAdded? && i == |items| {
        assert after[i] == change.item && after[i] in after;
      }
    }
  }

  /** An item is in the inventory after some changes when the last one to add or remove it added it. */
  lemma {:induction false} PresentItems(items: seq<InventoryItem>, changes: seq<InventoryChange>, id: EntityKey)
    ensures Any(Inventory(items, changes), ItemIs(id)) ==
            LastOr(FilterMap(changes, Presence(id)), Any(items, ItemIs(id)))
    decreases |changes|
  {
    if |changes| > 0 {
      PresentItems(items, Init(changes), id);
      PresentAfterStep(Inventory(items, Init(changes)), Last(changes), id);
      RegisterStep(changes, Presence(id), Any(items, ItemIs(id)));
    }
  }

  /** The update finds no item to act on. */
  predicate Lost(items: seq<InventoryItem>, changes: seq<InventoryChange>, i: nat)
    requires i < |changes|
  {
    changes[i].ItemUpdated? && !Any(Inventory(items, changes[..i]), ItemIs(changes[i].item.id))
  }

  /** An accepted update is lost exactly when the last change before it to add or remove the item removed it. */
  lemma LostIff(s: WorldState, changes: seq<InventoryChange>, i: nat)
    requires i < |changes| && changes[i].ItemUpdated? && CheckInventory(s, changes[i]).Pass?
    ensures Lost(s.inventory, changes, i) <==>
            !LastOr(FilterMap(changes[..i], Presence(changes[i].item.id)), true)
  {
    var id := changes[i].item.id;
    PresentItems(s.inventory, changes[..i], id);
    AnyIff(s.inventory, ItemIs(id));
    assert id in ItemIds(s);
  }

  lemma {:induction false} InventoryInTwo(
    items: seq<InventoryItem>, first: seq<InventoryChange>, later: seq<InventoryChange>)
    ensures Inventory(items, first + later) == Inventory(Inventory(items, first), later)
    decreases |later|
  {
    hide StepInventory;
    if |later| == 0 {
      assert first + later == first;
    } else {
      InventoryInTwo(items, first, Init(later));
      assert Init(first + later) == first + Init(later) && Last(first + later) == Last(later);
    }
  }

  lemma LostStep(items: seq<InventoryItem>, changes: seq<InventoryChange>, i: nat)
    requires i < |changes| && Lost(items, changes, i)
    ensures Inventory(items, changes[..i + 1]) == Inventory(items, changes[..i])
  {
    PrefixStep(changes, i);
    var before := Inventory(items, changes[..i]);
    assert StepInventory(before, changes[i]) == before;
  }

  /** A lost update leaves no trace: the turn does what it would do without it. */
  lemma LostLeavesNoTrace(items: seq<InventoryItem>, changes: seq<InventoryChange>, i: nat)
    requires i < |changes| && Lost(items, changes, i)
    ensures Inventory(items, changes) == Inventory(items, changes[..i] + changes[i + 1..])
  {
    LostStep(items, changes, i);
    hide Inventory, Lost;
    CutAndJoined(changes, i + 1);
    var first, upTo, later := changes[..i], changes[..i + 1], changes[i + 1..];
    InventoryInTwo(items, first, later);
    InventoryInTwo(items, upTo, later);
  }

  /** A delta that removes an item and then updates it. */
  function UpdatedTooLate(item: InventoryItem): WorldStateDelta {
    EMPTY_DELTA.(inventoryChanges := [ItemRemoved(item.id, "reason"), ItemUpdated(item, "reason")])
  }

  lemma UpdatedTooLateAccepted(lower: string -> string, sc: Scenario, s: WorldState, item: InventoryItem)
    requires item.id in ItemIds(s)
    ensures Accepts(lower, sc, s, UpdatedTooLate(item))
  {
    var d := UpdatedTooLate(item);
    var removed, updated := d.inventoryChanges[0], d.inventoryChanges[1];
    assert removed.reason[0] == 'r';
    assert CheckInventory(s, removed).Pass?;
    assert CheckInventory(s, updated).Pass?;
    hide CheckInventory;
    assert CheckCast(lower, sc, s, d).Pass? && CheckGroups(sc, s, d).Pass? && CheckPossessions(sc, s, d).Pass?;
  }

  /** It is accepted for every item the player has, and the update is gone with the item. */
  lemma LateUpdateIsLost(lower: string -> string, sc: Scenario, s: WorldState, item: InventoryItem)
    requires item.id in ItemIds(s)
    ensures Accepts(lower, sc, s, UpdatedTooLate(item))
    ensures Lost(s.inventory, UpdatedTooLate(item).inventoryChanges, 1)
    ensures Applied(s, UpdatedTooLate(item)).inventory == Filter(s.inventory, ItemIsNot(item.id))
  {
    hide Accepts;
    UpdatedTooLateAccepted(lower, sc, s, item);
    var changes := UpdatedTooLate(item).inventoryChanges;
    assert changes[..1] == [changes[0]] && Init(changes) == [changes[0]] && Init([changes[0]]) == [];
    assert Inventory(s.inventory, []) == s.inventory;
    var left := Inventory(s.inventory, [changes[0]]);
    assert left == Filter(s.inventory, ItemIsNot(item.id));
    AnyIff(left, ItemIs(item.id));
  }
}
