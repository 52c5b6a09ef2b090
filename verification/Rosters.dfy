/**
 A second reading of the reducer, by entity instead of by change. Every npc, faction and quest of the
 roster ends a turn with registers holding the last value written to it, logs extended by the entries
 addressed to it, in order, and counters moved by the sum of the increments addressed to it.
 Changes addressed to other entities do not matter, and no change addressed to it is lost.
 */
module Rosters {
  import opened Wrappers
  import opened Sequences
  import opened Identifiers
  import opened Domain
  import opened Reduction

  // ---------- npcs ----------

  function StatusWrites(id: EntityKey): NpcChange -> Option<NpcStatus> {
    (c: NpcChange) => if c.StatusChanged? && c.npcId == id then Some(c.status) else None
  }

  function VisibilityWrites(id: EntityKey): NpcChange -> Option<bool> {
    (c: NpcChange) => if c.NpcVisibilityChanged? && c.npcId == id then Some(c.visibleToPlayer) else None
  }

  function LocationWrites(id: EntityKey): NpcChange -> Option<Option<EntityKey>> {
    (c: NpcChange) => if c.NpcLocationChanged? && c.npcId == id then Some(Some(c.locationId)) else None
  }

  function AttitudeWrites(id: EntityKey): NpcChange -> Option<Option<string>> {
    (c: NpcChange) => if c.AttitudeChanged? && c.npcId == id then Some(Some(c.attitude)) else None
  }

  function AvailabilityWrites(id: EntityKey): NpcChange -> Option<NpcAvailability> {
    (c: NpcChange) => if c.AvailabilityChanged? && c.npcId == id then Some(c.availability) else None
  }

  function IntentWrites(id: EntityKey): NpcChange -> Option<Option<string>> {
    (c: NpcChange) => if c.IntentChanged? && c.npcId == id then Some(c.intent) else None
  }

  function NotesFor(id: EntityKey): NpcChange -> Option<string> {
    (c: NpcChange) => if c.NpcNoteAdded? && c.npcId == id then Some(c.note) else None
  }

  function OffscreenFor(id: EntityKey): NpcChange -> Option<OffscreenAction> {
    (c: NpcChange) =>
      if c.OffscreenActionRecorded? && c.npcId == id
      then Some(OffscreenAction(c.offscreenIntent, c.result, c.visibleToPlayer))
      else None
  }

  /** Identifiers of the facts that `changes` teach to one npc, in order. */
  function KnowledgeIds(id: EntityKey, facts: seq<Fact>, changes: seq<NpcChange>, version: nat): seq<EntityKey>
    decreases |changes|
  {
    if |changes| == 0 then []
    else
      KnowledgeIds(id, facts, Init(changes), version) +
      if Last(changes).KnowledgeAdded? && Last(changes).npcId == id
      then [NextFactId(facts, Init(changes), version)]
      else []
  }

  function NpcAfter(npc: NpcState, facts: seq<Fact>, changes: seq<NpcChange>, version: nat): NpcState {
    var id := npc.npcId;
    NpcState(
      id,
      LastOr(FilterMap(changes, StatusWrites(id)), npc.status),
      LastOr(FilterMap(changes, VisibilityWrites(id)), npc.visibleToPlayer),
      LastOr(FilterMap(changes, LocationWrites(id)), npc.locationId),
      LastOr(FilterMap(changes, AttitudeWrites(id)), npc.attitudeToPlayer),
      npc.knownFacts + KnowledgeIds(id, facts, changes, version),
      npc.notes + FilterMap(changes, NotesFor(id)),
      LastOr(FilterMap(changes, AvailabilityWrites(id)), npc.availability),
      LastOr(FilterMap(changes, IntentWrites(id)), npc.currentIntent),
      npc.offscreenActions + FilterMap(changes, OffscreenFor(id)))
  }

  /** What one more change does to a register, and to a log. */
  lemma RegisterStep<C, T>(changes: seq<C>, writes: C -> Option<T>, held: T)
    requires |changes| > 0
    ensures LastOr(FilterMap(changes, writes), held) ==
            writes(Last(changes)).GetOr(LastOr(FilterMap(Init(changes), writes), held))
  {
    FilterMapLast(changes, writes);
  }

  lemma LogStep<C, T>(changes: seq<C>, entries: C -> Option<T>, held: seq<T>)
    requires |changes| > 0
    ensures entries(Last(changes)).None? ==> FilterMap(changes, entries) == FilterMap(Init(changes), entries)
    ensures entries(Last(changes)).Some? ==>
              held + FilterMap(changes, entries) ==
              held + FilterMap(Init(changes), entries) + [entries(Last(changes)).value]
  {
    FilterMapLast(changes, entries);
    if entries(Last(changes)).Some? {
      ConcatAssociates(held, FilterMap(Init(changes), entries), [entries(Last(changes)).value]);
    }
  }

  lemma NpcAfterStep(npc: NpcState, facts: seq<Fact>, changes: seq<NpcChange>, version: nat)
    requires |changes| > 0
    ensures NpcAfter(npc, facts, changes, version) ==
            var before := NpcAfter(npc, facts, Init(changes), version);
            if Last(changes).npcId == npc.npcId
            then ChangedNpc(before, Last(changes), NextFactId(facts, Init(changes), version))
            else before
  {
    var id := npc.npcId;
    RegisterStep(changes, StatusWrites(id), npc.status);
    RegisterStep(changes, VisibilityWrites(id), npc.visibleToPlayer);
    RegisterStep(changes, LocationWrites(id), npc.locationId);
    RegisterStep(changes, AttitudeWrites(id), npc.attitudeToPlayer);
    RegisterStep(changes, AvailabilityWrites(id), npc.availability);
    RegisterStep(changes, IntentWrites(id), npc.currentIntent);
    NpcLogsStep(npc, facts, changes, version);
  }

  lemma NpcLogsStep(npc: NpcState, facts: seq<Fact>, changes: seq<NpcChange>, version: nat)
    requires |changes| > 0
    ensures var before := NpcAfter(npc, facts, Init(changes), version);
            var after := NpcAfter(npc, facts, changes, version);
            var next := if Last(changes).npcId == npc.npcId
                        then ChangedNpc(before, Last(changes), NextFactId(facts, Init(changes), version))
                        else before;
            && after.knownFacts == next.knownFacts
            && after.notes == next.notes
            && after.offscreenActions == next.offscreenActions
  {
    LogStep(changes, NotesFor(npc.npcId), npc.notes);
    LogStep(changes, OffscreenFor(npc.npcId), npc.offscreenActions);
  }

  /** The npc loop, read npc by npc. */
  lemma {:induction false} NpcRoster(npcs: seq<NpcState>, facts: seq<Fact>, changes: seq<NpcChange>, version: nat)
    requires Unique(npcs, NpcKey)
    ensures |Npcs(npcs, facts, changes, version)| == |npcs|
    ensures forall k | 0 <= k < |npcs| ::
              Npcs(npcs, facts, changes, version)[k] == NpcAfter(npcs[k], facts, changes, version)
    decreases |changes|
  {
    if |changes| == 0 {
      forall k | 0 <= k < |npcs| ensures npcs[k] == NpcAfter(npcs[k], facts, changes, version) {
      }
    } else {
      NpcRoster(npcs, facts, Init(changes), version);
      var before := Npcs(npcs, facts, Init(changes), version);
      var factId := NextFactId(facts, Init(changes), version);
      assert Unique(before, NpcKey) by {
        assert forall k | 0 <= k < |npcs| :: NpcKey(before[k]) == NpcKey(npcs[k]);
      }
      UpdateByKey(before, NpcKey, Last(changes).npcId, NpcIs(Last(changes).npcId), NpcPatch(Last(changes), factId));
      forall k | 0 <= k < |npcs|
        ensures Npcs(npcs, facts, changes, version)[k] == NpcAfter(npcs[k], facts, changes, version)
      {
        NpcAfterStep(npcs[k], facts, changes, version);
      }
    }
  }

  // ---------- factions ----------

  function StandingDeltas(id: EntityKey): FactionChange -> Option<int> {
    (c: FactionChange) => if c.StandingChanged? && c.factionId == id then Some(c.standingDelta) else None
  }

  function PressureDeltas(id: EntityKey): FactionChange -> Option<int> {
    (c: FactionChange) => if c.PressureChanged? && c.factionId == id then Some(c.delta) else None
  }

  function PublicNotesFor(id: EntityKey): FactionChange -> Option<string> {
    (c: FactionChange) => if c.PublicNoteAdded? && c.factionId == id then Some(c.note) else None
  }

  function HiddenNotesFor(id: EntityKey): FactionChange -> Option<string> {
    (c: FactionChange) => if c.HiddenNoteAdded? && c.factionId == id then Some(c.note) else None
  }

  function GoalsFor(id: EntityKey): FactionChange -> Option<string> {
    (c: FactionChange) => if c.GoalRevealed? && c.factionId == id then Some(c.goal) else None
  }

  function PublicPressureNotesFor(id: EntityKey): FactionChange -> Option<string> {
    (c: FactionChange) => if c.PublicPressureNoteAdded? && c.factionId == id then Some(c.note) else None
  }

  function HiddenPressureNotesFor(id: EntityKey): FactionChange -> Option<string> {
    (c: FactionChange) => if c.HiddenPressureNoteAdded? && c.factionId == id then Some(c.note) else None
  }

  function FactionAfter(f: FactionState, changes: seq<FactionChange>): FactionState {
    var id := f.factionId;
    FactionState(
      id,
      f.standing + Sum(FilterMap(changes, StandingDeltas(id))),
      f.publicNotes + FilterMap(changes, PublicNotesFor(id)),
      f.hiddenNotes + FilterMap(changes, HiddenNotesFor(id)),
      f.revealedGoals + FilterMap(changes, GoalsFor(id)),
      f.pressure + Sum(FilterMap(changes, PressureDeltas(id))),
      f.publicPressureNotes + FilterMap(changes, PublicPressureNotesFor(id)),
      f.hiddenPressureNotes + FilterMap(changes, HiddenPressureNotesFor(id)))
  }

  lemma CounterStep(changes: seq<FactionChange>, deltas: FactionChange -> Option<int>)
    requires |changes| > 0
    ensures Sum(FilterMap(changes, deltas)) ==
            Sum(FilterMap(Init(changes), deltas)) + deltas(Last(changes)).GetOr(0)
  {
    FilterMapLast(changes, deltas);
    if deltas(Last(changes)).Some? {
      SumPush(FilterMap(Init(changes), deltas), deltas(Last(changes)).value);
    }
  }

  lemma FactionLogsStep(f: FactionState, changes: seq<FactionChange>)
    requires |changes| > 0
    ensures var before, after := FactionAfter(f, Init(changes)), FactionAfter(f, changes);
            var last := Last(changes);
            var next := if last.factionId == f.factionId then ChangedFaction(before, last) else before;
            && after.publicNotes == next.publicNotes
            && after.hiddenNotes == next.hiddenNotes
            && after.revealedGoals == next.revealedGoals
            && after.publicPressureNotes == next.publicPressureNotes
            && after.hiddenPressureNotes == next.hiddenPressureNotes
  {
    LogStep(changes, PublicNotesFor(f.factionId), f.publicNotes);
    LogStep(changes, HiddenNotesFor(f.factionId), f.hiddenNotes);
    LogStep(changes, GoalsFor(f.factionId), f.revealedGoals);
    LogStep(changes, PublicPressureNotesFor(f.factionId), f.publicPressureNotes);
    LogStep(changes, HiddenPressureNotesFor(f.factionId), f.hiddenPressureNotes);
  }

  lemma SameFaction(f: FactionState, g: FactionState)
    requires f.factionId == g.factionId && f.standing == g.standing && f.publicNotes == g.publicNotes
    requires f.hiddenNotes == g.hiddenNotes && f.revealedGoals == g.revealedGoals && f.pressure == g.pressure
    requires f.publicPressureNotes == g.publicPressureNotes && f.hiddenPressureNotes == g.hiddenPressureNotes
    ensures f == g
  {
  }

  lemma FactionAfterStep(f: FactionState, changes: seq<FactionChange>)
    requires |changes| > 0
    ensures FactionAfter(f, changes) ==
            var before := FactionAfter(f, Init(changes));
            if Last(changes).factionId == f.factionId then ChangedFaction(before, Last(changes)) else before
  {
    FactionLogsStep(f, changes);
    CounterStep(changes, StandingDeltas(f.factionId));
    CounterStep(changes, PressureDeltas(f.factionId));
    var before := FactionAfter(f, Init(changes));
    SameFaction(
      FactionAfter(f, changes),
      if Last(changes).factionId == f.factionId then ChangedFaction(before, Last(changes)) else before);
  }

  /** The faction loop, read faction by faction: standing and pressure are conserved quantities. */
  lemma {:induction false} FactionRoster(factions: seq<FactionState>, changes: seq<FactionChange>)
    requires Unique(factions, FactionKey)
    ensures |Factions(factions, changes)| == |factions|
    ensures forall k | 0 <= k < |factions| :: Factions(factions, changes)[k] == FactionAfter(factions[k], changes)
    decreases |changes|
  {
    if |changes| == 0 {
      forall k | 0 <= k < |factions| ensures factions[k] == FactionAfter(factions[k], changes) {
      }
    } else {
      FactionRoster(factions, Init(changes));
      var before := Factions(factions, Init(changes));
      assert Unique(before, FactionKey) by {
        assert forall k | 0 <= k < |factions| :: FactionKey(before[k]) == FactionKey(factions[k]);
      }
      var id := Last(changes).factionId;
      UpdateByKey(before, FactionKey, id, FactionIs(id), FactionPatch(Last(changes)));
      forall k | 0 <= k < |factions|
        ensures Factions(factions, changes)[k] == FactionAfter(factions[k], changes)
      {
        FactionAfterStep(factions[k], changes);
      }
    }
  }

  // ---------- quests ----------

  function QuestStatusWrites(id: EntityKey): QuestChange -> Option<QuestStatus> {
    (c: QuestChange) =>
      if c.questId != id then None
      else
        match c
        case Started(_, _) => Some(QuestActive)
        case Completed(_, _) => Some(QuestCompleted)
        case Failed(_, _) => Some(QuestFailed)
        case ObjectiveCompleted(_, _, _) => None
  }

  function ObjectivesFor(id: EntityKey): QuestChange -> Option<EntityKey> {
    (c: QuestChange) => if c.ObjectiveCompleted? && c.questId == id then Some(c.objectiveId) else None
  }

  /** Completing objectives is set insertion that remembers the order of first completion. */
  function AddNew<T(==, !new)>(seen: seq<T>, more: seq<T>): (r: seq<T>)
    ensures seen <= r
    ensures forall x :: x in r <==> x in seen || x in more
    ensures NoDuplicates(seen) ==> NoDuplicates(r)
    decreases |more|
  {
    if |more| == 0 then seen
    else
      var before := AddNew(seen, Init(more));
      assert more == Init(more) + [Last(more)];
      if Last(more) in before then before else before + [Last(more)]
  }

  function QuestAfter(q: QuestState, changes: seq<QuestChange>): QuestState {
    QuestState(
      q.questId,
      LastOr(FilterMap(changes, QuestStatusWrites(q.questId)), q.status),
      AddNew(q.completedObjectives, FilterMap(changes, ObjectivesFor(q.questId))),
      q.visible)
  }

  lemma QuestAfterStep(q: QuestState, changes: seq<QuestChange>)
    requires |changes| > 0
    ensures QuestAfter(q, changes) ==
            var before := QuestAfter(q, Init(changes));
            if Last(changes).questId == q.questId then ChangedQuest(before, Last(changes)) else before
  {
    FilterMapLast(changes, QuestStatusWrites(q.questId));
    FilterMapLast(changes, ObjectivesFor(q.questId));
    var objectives := FilterMap(changes, ObjectivesFor(q.questId));
    if |objectives| > 0 {
      InitLast(objectives);
    }
    if Last(changes).ObjectiveCompleted? && Last(changes).questId == q.questId {
      assert Init(objectives) == FilterMap(Init(changes), ObjectivesFor(q.questId));
    }
  }

  /** The quest loop, read quest by quest: the last status wins and objectives are a set. */
  lemma {:induction false} QuestRoster(quests: seq<QuestState>, changes: seq<QuestChange>)
    requires Unique(quests, QuestKey)
    ensures |Quests(quests, changes)| == |quests|
    ensures forall k | 0 <= k < |quests| :: Quests(quests, changes)[k] == QuestAfter(quests[k], changes)
    decreases |changes|
  {
    if |changes| == 0 {
      forall k | 0 <= k < |quests| ensures quests[k] == QuestAfter(quests[k], changes) {
      }
    } else {
      QuestRoster(quests, Init(changes));
      var before := Quests(quests, Init(changes));
      assert Unique(before, QuestKey) by {
        assert forall k | 0 <= k < |quests| :: QuestKey(before[k]) == QuestKey(quests[k]);
      }
      var id := Last(changes).questId;
      UpdateByKey(before, QuestKey, id, QuestIs(id), QuestPatch(Last(changes)));
      forall k | 0 <= k < |quests|
        ensures Quests(quests, changes)[k] == QuestAfter(quests[k], changes)
      {
        QuestAfterStep(quests[k], changes);
      }
    }
  }

  // ---------- clocks ----------

  function ClockVisibilityWrites(id: EntityKey): ClockChange -> Option<bool> {
    (c: ClockChange) => if c.ClockVisibilityChanged? && c.clockId == id then Some(c.visibleToPlayer) else None
  }

  /** Where a hand that cannot leave 0 to `max` stands after some changes of its own clock, in their order. */
  function HandAfter(current: U8, max: U8, id: EntityKey, changes: seq<ClockChange>): (r: U8)
    ensures current <= max ==> r <= max
    decreases |changes|
  {
    if |changes| == 0 then current
    else
      var before, last := HandAfter(current, max, id, Init(changes)), Last(changes);
      if last.clockId != id || last.ClockVisibilityChanged? then before
      else
        var next := if last.Advanced? then before + last.delta else last.value;
        if next < 0 then 0 else if max < next then max else next
  }

  /** The hand moves, visibility is a register, and nothing else of a clock changes. */
  function ClockAfter(c: ClockState, changes: seq<ClockChange>): (r: ClockState)
    ensures r.id == c.id && r.max == c.max && r.title == c.title && r.consequence == c.consequence
    ensures c.current <= c.max ==> r.current <= r.max
  {
    ClockState(
      c.id,
      c.title,
      HandAfter(c.current, c.max, c.id, changes),
      c.max,
      c.consequence,
      LastOr(FilterMap(changes, ClockVisibilityWrites(c.id)), c.visibleToPlayer))
  }

  lemma ClockAfterStep(c: ClockState, changes: seq<ClockChange>)
    requires |changes| > 0
    ensures ClockAfter(c, changes) ==
            var before := ClockAfter(c, Init(changes));
            if Last(changes).clockId == c.id then ChangedClock(before, Last(changes)) else before
  {
    RegisterStep(changes, ClockVisibilityWrites(c.id), c.visibleToPlayer);
  }

  /** The clock loop, read clock by clock. */
  lemma {:induction false} ClockRoster(clocks: seq<ClockState>, changes: seq<ClockChange>)
    requires Unique(clocks, ClockKey)
    ensures |Clocks(clocks, changes)| == |clocks|
    ensures forall k | 0 <= k < |clocks| :: Clocks(clocks, changes)[k] == ClockAfter(clocks[k], changes)
    decreases |changes|
  {
    if |changes| > 0 {
      ClockRoster(clocks, Init(changes));
      var before := Clocks(clocks, Init(changes));
      assert Unique(before, ClockKey) by {
        assert forall k | 0 <= k < |clocks| :: ClockKey(before[k]) == ClockKey(clocks[k]);
      }
      var id := Last(changes).clockId;
      UpdateByKey(before, ClockKey, id, ClockIs(id), ClockPatch(Last(changes)));
      forall k | 0 <= k < |clocks|
        ensures Clocks(clocks, changes)[k] == ClockAfter(clocks[k], changes)
      {
        ClockAfterStep(clocks[k], changes);
      }
    }
  }
}
