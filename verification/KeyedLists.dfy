/**
 Lists as maps. Inventory, clues and relationships are vectors searched by key. Folding changes over the
 vector equals the corresponding operations on a finite map (put, remove, update if present), and keys
 stay unique, so the vector never holds two entries for one key.
 */
module KeyedLists {
  import opened Wrappers
  import opened Sequences
  import opened Domain
  import opened Reduction

  /** The map a list stands for; with unique keys no entry shadows another. */
  function Index<T, K>(xs: seq<T>, key: T -> K): map<K, T> {
    if |xs| == 0 then map[] else Index(Init(xs), key)[key(Last(xs)) := Last(xs)]
  }

  lemma {:induction false} IndexKeys<T, K>(xs: seq<T>, key: T -> K, k: K)
    ensures k in Index(xs, key) <==> exists i :: 0 <= i < |xs| && key(xs[i]) == k
  {
    if |xs| > 0 {
      IndexKeys(Init(xs), key, k);
      if k in Index(Init(xs), key) {
        var i :| 0 <= i < |Init(xs)| && key(Init(xs)[i]) == k;
        assert key(xs[i]) == k;
      }
      if exists i :: 0 <= i < |xs| && key(xs[i]) == k {
        var i :| 0 <= i < |xs| && key(xs[i]) == k;
        assert i < |Init(xs)| ==> key(Init(xs)[i]) == k;
      }
    }
  }

  lemma {:induction false} IndexLookup<T, K>(xs: seq<T>, key: T -> K, i: nat)
    requires Unique(xs, key) && i < |xs|
    ensures key(xs[i]) in Index(xs, key) && Index(xs, key)[key(xs[i])] == xs[i]
    decreases |xs|
  {
    if i < |xs| - 1 {
      assert Unique(Init(xs), key);
      IndexLookup(Init(xs), key, i);
      assert Init(xs)[i] == xs[i];
      assert key(xs[i]) != key(Last(xs));
    }
  }

  /** Two maps built from lists agree when they agree entry by entry. */
  lemma IndexIs<T, K>(xs: seq<T>, key: T -> K, m: map<K, T>)
    requires Unique(xs, key)
    requires forall i | 0 <= i < |xs| :: key(xs[i]) in m && m[key(xs[i])] == xs[i]
    requires forall k | k in m :: exists i :: 0 <= i < |xs| && key(xs[i]) == k
    ensures Index(xs, key) == m
  {
    var index := Index(xs, key);
    forall k | k in index
      ensures k in m && index[k] == m[k]
    {
      IndexKeys(xs, key, k);
      var i :| 0 <= i < |xs| && key(xs[i]) == k;
      IndexLookup(xs, key, i);
    }
    forall k | k in m
      ensures k in index
    {
      IndexKeys(xs, key, k);
    }
    assert index.Keys == m.Keys;
  }

  /** Overwriting the element that has a key is a map update at that key. */
  lemma IndexUpdate<T, K>(xs: seq<T>, key: T -> K, k: K, hit: T -> bool, patch: T -> T)
    requires Unique(xs, key)
    requires forall x | x in xs :: hit(x) <==> key(x) == k
    requires forall x | x in xs && key(x) == k :: key(patch(x)) == k
    ensures Unique(UpdateFirst(xs, hit, patch), key)
    ensures Index(UpdateFirst(xs, hit, patch), key) ==
            if k in Index(xs, key) then Index(xs, key)[k := patch(Index(xs, key)[k])] else Index(xs, key)
    ensures Any(xs, hit) <==> k in Index(xs, key)
  {
    var m, ys := Index(xs, key), UpdateFirst(xs, hit, patch);
    UpdateByKey(xs, key, k, hit, patch);
    IndexKeys(xs, key, k);
    forall i | 0 <= i < |xs|
      ensures key(ys[i]) == key(xs[i]) && key(xs[i]) in m && m[key(xs[i])] == xs[i]
    {
      assert xs[i] in xs;
      IndexLookup(xs, key, i);
    }
    assert Any(xs, hit) <==> k in m by {
      if k in m {
        var i :| 0 <= i < |xs| && key(xs[i]) == k;
        assert xs[i] in xs && hit(xs[i]);
      }
      if Any(xs, hit) {
        assert xs[FirstIndex(xs, hit)] in xs;
      }
    }
    var after := if k in m then m[k := patch(m[k])] else m;
    forall j | j in after
      ensures exists i :: 0 <= i < |ys| && key(ys[i]) == j
    {
      IndexKeys(xs, key, j);
      var i :| 0 <= i < |xs| && key(xs[i]) == j;
      assert key(ys[i]) == j;
    }
    IndexIs(ys, key, after);
  }

  lemma IndexPush<T, K>(xs: seq<T>, key: T -> K, y: T)
    requires Unique(xs, key) && key(y) !in Index(xs, key)
    ensures Unique(xs + [y], key)
    ensures Index(xs + [y], key) == Index(xs, key)[key(y) := y]
  {
    assert Init(xs + [y]) == xs;
    forall i, j | 0 <= i < j < |xs + [y]|
      ensures key((xs + [y])[i]) != key((xs + [y])[j])
    {
      if j == |xs| {
        IndexKeys(xs, key, key(y));
      }
    }
  }

  lemma IndexUpsert<T, K>(xs: seq<T>, key: T -> K, hit: T -> bool, y: T)
    requires Unique(xs, key)
    requires forall x | x in xs :: hit(x) <==> key(x) == key(y)
    ensures Unique(Upsert(xs, hit, y), key)
    ensures Index(Upsert(xs, hit, y), key) == Index(xs, key)[key(y) := y]
  {
    IndexUpdate(xs, key, key(y), hit, Replace(y));
    if !Any(xs, hit) {
      IndexPush(xs, key, y);
    }
  }

  lemma RemoveAfterPut<T, K>(m: map<K, T>, k: K, j: K, y: T)
    ensures m[j := y] - {k} == if j == k then m - {k} else (m - {k})[j := y]
  {
  }

  lemma LastKeyIsNew<T, K>(xs: seq<T>, key: T -> K)
    requires |xs| > 0 && Unique(xs, key)
    ensures Unique(Init(xs), key) && key(Last(xs)) !in Index(Init(xs), key)
  {
    IndexKeys(Init(xs), key, key(Last(xs)));
    forall i | 0 <= i < |Init(xs)| ensures key(Init(xs)[i]) != key(Last(xs)) {
      assert Init(xs)[i] == xs[i];
    }
  }

  /** Removing by key is map removal. */
  lemma {:induction false} IndexRetain<T, K>(xs: seq<T>, key: T -> K, k: K, keep: T -> bool)
    requires Unique(xs, key)
    requires forall x | x in xs :: keep(x) <==> key(x) != k
    ensures Unique(Filter(xs, keep), key)
    ensures Index(Filter(xs, keep), key) == Index(xs, key) - {k}
    decreases |xs|
  {
    if |xs| > 0 {
      InitLast(xs);
      LastKeyIsNew(xs, key);
      var y, rest := Last(xs), Filter(Init(xs), keep);
      assert y in xs && forall x | x in Init(xs) :: x in xs;
      IndexRetain(Init(xs), key, k, keep);
      RemoveAfterPut(Index(Init(xs), key), k, key(y), y);
      if keep(y) {
        IndexPush(rest, key, y);
      } else {
        assert rest + [] == rest;
      }
    }
  }

  // ---------- inventory ----------

  function PutOrRemove(m: map<EntityKey, InventoryItem>, change: InventoryChange): map<EntityKey, InventoryItem> {
    match change
    case ItemAdded(item, _) => m[item.id := item]
    case ItemRemoved(id, _) => m - {id}
    case ItemUpdated(item, _) => if item.id in m then m[item.id := item] else m
  }

  function InventoryMap(m: map<EntityKey, InventoryItem>, changes: seq<InventoryChange>): map<EntityKey, InventoryItem>
    decreases |changes|
  {
    if |changes| == 0 then m else PutOrRemove(InventoryMap(m, Init(changes)), Last(changes))
  }

  lemma {:induction false} InventoryRefines(items: seq<InventoryItem>, changes: seq<InventoryChange>)
    requires Unique(items, ItemKey)
    ensures Unique(Inventory(items, changes), ItemKey)
    ensures Index(Inventory(items, changes), ItemKey) == InventoryMap(Index(items, ItemKey), changes)
    decreases |changes|
  {
    if |changes| > 0 {
      InventoryRefines(items, Init(changes));
      var before := Inventory(items, Init(changes));
      match Last(changes) {
        case ItemAdded(item, _) => IndexUpsert(before, ItemKey, ItemIs(item.id), item);
        case ItemRemoved(id, _) => IndexRetain(before, ItemKey, id, ItemIsNot(id));
        case ItemUpdated(item, _) => IndexUpdate(before, ItemKey, item.id, ItemIs(item.id), Replace(item));
      }
    }
  }

  // ---------- clues ----------

  function PutOrShow(m: map<EntityKey, ClueState>, change: ClueChange): map<EntityKey, ClueState> {
    match change
    case Discovered(id, text, linked, satisfied, visible, _) =>
      m[id := ClueState(id, text, linked, satisfied, visible)]
    case ClueVisibilityChanged(id, visible, _) =>
      if id in m then m[id := m[id].(visibleToPlayer := visible)] else m
  }

  function ClueMap(m: map<EntityKey, ClueState>, changes: seq<ClueChange>): map<EntityKey, ClueState>
    decreases |changes|
  {
    if |changes| == 0 then m else PutOrShow(ClueMap(m, Init(changes)), Last(changes))
  }

  lemma {:induction false} CluesRefine(clues: seq<ClueState>, changes: seq<ClueChange>)
    requires Unique(clues, ClueKey)
    ensures Unique(Clues(clues, changes), ClueKey)
    ensures Index(Clues(clues, changes), ClueKey) == ClueMap(Index(clues, ClueKey), changes)
    decreases |changes|
  {
    if |changes| > 0 {
      CluesRefine(clues, Init(changes));
      var before := Clues(clues, Init(changes));
      match Last(changes) {
        case Discovered(id, text, linked, satisfied, visible, _) =>
          IndexUpsert(before, ClueKey, ClueIs(id), ClueState(id, text, linked, satisfied, visible));
        case ClueVisibilityChanged(id, visible, _) =>
          IndexUpdate(before, ClueKey, id, ClueIs(id), WithClueVisibility(visible));
      }
    }
  }

  // ---------- relationships ----------

  type RelationshipTable = map<(EntityKey, EntityKey), RelationshipState>

  /** A relationship that was never mentioned reads as neutral. */
  function RelationshipAt(m: RelationshipTable, source: EntityKey, target: EntityKey): RelationshipState {
    if (source, target) in m then m[(source, target)] else RelationshipState(source, target, 0, [], 0, 0, 0)
  }

  /** One change: three metrics and the attitude are counters, and notes are a log. */
  function Moved(r: RelationshipState, c: RelationshipChange): RelationshipState {
    RelationshipState(
      r.sourceId,
      r.targetId,
      if c.AttitudeShifted? then r.attitude + c.attitudeDelta else r.attitude,
      if c.RelationshipNoteAdded? then r.notes + [c.note] else r.notes,
      if c.TrustChanged? then r.trust + c.delta else r.trust,
      if c.SuspicionChanged? then r.suspicion + c.delta else r.suspicion,
      if c.LoyaltyChanged? then r.loyalty + c.delta else r.loyalty)
  }

  function ChangeAt(m: RelationshipTable, change: RelationshipChange): RelationshipTable {
    var old_ := RelationshipAt(m, change.sourceId, change.targetId);
    m[(change.sourceId, change.targetId) := Moved(old_, change)]
  }

  function RelationshipMap(m: RelationshipTable, changes: seq<RelationshipChange>): RelationshipTable
    decreases |changes|
  {
    if |changes| == 0 then m else ChangeAt(RelationshipMap(m, Init(changes)), Last(changes))
  }

  lemma MovedIsChanged(r: RelationshipState, c: RelationshipChange)
    ensures Moved(r, c) == ChangedRelationship(r, c)
    ensures Moved(r, c).sourceId == r.sourceId && Moved(r, c).targetId == r.targetId
  {
  }

  lemma StepRelationshipRefines(relationships: seq<RelationshipState>, change: RelationshipChange)
    requires Unique(relationships, RelationshipKey)
    ensures Unique(StepRelationship(relationships, change), RelationshipKey)
    ensures Index(StepRelationship(relationships, change), RelationshipKey) ==
            ChangeAt(Index(relationships, RelationshipKey), change)
  {
    hide Moved, ChangedRelationship;
    forall r
      ensures Moved(r, change) == ChangedRelationship(r, change)
      ensures RelationshipKey(Moved(r, change)) == RelationshipKey(r)
    {
      MovedIsChanged(r, change);
    }
    var source, target := change.sourceId, change.targetId;
    var hit, patch := RelationshipIs(source, target), RelationshipPatch(change);
    IndexUpdate(relationships, RelationshipKey, (source, target), hit, patch);
    var inserted := WithRelationship(relationships, source, target);
    if !Any(relationships, hit) {
      IndexPush(relationships, RelationshipKey, NewRelationship(source, target));
    }
    IndexUpdate(inserted, RelationshipKey, (source, target), hit, patch);
  }

  lemma {:induction false} RelationshipsRefine(
    relationships: seq<RelationshipState>, changes: seq<RelationshipChange>)
    requires Unique(relationships, RelationshipKey)
    ensures Unique(Relationships(relationships, changes), RelationshipKey)
    ensures Index(Relationships(relationships, changes), RelationshipKey) ==
            RelationshipMap(Index(relationships, RelationshipKey), changes)
    decreases |changes|
  {
    if |changes| > 0 {
      RelationshipsRefine(relationships, Init(changes));
      StepRelationshipRefines(Relationships(relationships, Init(changes)), Last(changes));
    }
  }
}
