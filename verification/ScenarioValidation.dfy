/** `validate_scenario`: what the engine may assume of an authored scenario. */
module ScenarioValidation {
  import opened Wrappers
  import opened Sequences
  import opened Domain

  datatype DomainError =
    | DuplicateId(entity: string, id: EntityKey)
    | UnknownNpcInitialLocation(npcId: EntityKey, locationId: EntityKey)
    | ClockCurrentExceedsMax(clockId: EntityKey)
    | FactionStandingOutOfRange(factionId: EntityKey)
    | MissingRevivalEvent

  /** `dup` is the first position that repeats an earlier identifier. */
  ghost predicate FirstRepeatAt(ids: seq<EntityKey>, dup: nat) {
    dup < |ids| && ids[dup] in ids[..dup] && NoDuplicates(ids[..dup])
  }

  /** The loop with its `seen` set reports exactly the first repeated identifier. */
  method RejectDuplicates(entity: string, ids: seq<EntityKey>) returns (r: Outcome<DomainError>)
    ensures r.Pass? <==> NoDuplicates(ids)
    ensures r.Fail? ==> exists dup: nat :: FirstRepeatAt(ids, dup) && r == Fail(DuplicateId(entity, ids[dup]))
  {
    var seen: set<EntityKey> := {};
    for i := 0 to |ids|
      invariant seen == set id | id in ids[..i]
      invariant NoDuplicates(ids[..i])
    {
      if ids[i] in seen {
        assert FirstRepeatAt(ids, i);
        var j :| 0 <= j < i && ids[..i][j] == ids[i];
        assert ids[j] == ids[i];
        return Fail(DuplicateId(entity, ids[i]));
      }
      seen := seen + {ids[i]};
      assert ids[..i + 1] == ids[..i] + [ids[i]];
    }
    assert ids[..|ids|] == ids;
    r := Pass;
  }

  function LocationKey(l: Location): EntityKey { l.id }
  function ScenarioNpcKey(n: Npc): EntityKey { n.id }
  function ScenarioFactionKey(f: Faction): EntityKey { f.id }
  function ScenarioQuestKey(q: Quest): EntityKey { q.id }
  function SecretKey(s: Secret): EntityKey { s.id }
  function ScenarioClockKey(c: ClockTemplate): EntityKey { c.id }

  ghost predicate DistinctIds(sc: Scenario) {
    && Unique(sc.locations, LocationKey)
    && Unique(sc.npcs, ScenarioNpcKey)
    && Unique(sc.factions, ScenarioFactionKey)
    && Unique(sc.quests, ScenarioQuestKey)
    && Unique(sc.secrets, SecretKey)
    && Unique(sc.clocks, ScenarioClockKey)
  }

  ghost predicate ValidScenario(sc: Scenario) {
    && DistinctIds(sc)
    && (forall c | c in sc.clocks :: c.current <= c.max)
    && (forall f | f in sc.factions :: -100 <= f.initialStanding <= 100)
    && (forall n | n in sc.npcs && n.initialLocationId.Some? :: n.initialLocationId.value in LocationIds(sc))
  }

  method RejectDuplicateRosters(sc: Scenario) returns (r: Outcome<DomainError>)
    ensures r.Pass? <==> DistinctIds(sc)
    ensures r.Fail? ==> r.error.DuplicateId?
  {
    r := RejectDuplicates("location", Map(sc.locations, LocationKey));
    if r.Fail? { return; }
    r := RejectDuplicates("npc", Map(sc.npcs, ScenarioNpcKey));
    if r.Fail? { return; }
    r := RejectDuplicates("faction", Map(sc.factions, ScenarioFactionKey));
    if r.Fail? { return; }
    r := RejectDuplicates("quest", Map(sc.quests, ScenarioQuestKey));
    if r.Fail? { return; }
    r := RejectDuplicates("secret", Map(sc.secrets, SecretKey));
    if r.Fail? { return; }
    r := RejectDuplicates("clock", Map(sc.clocks, ScenarioClockKey));
  }

  /** Acceptance is exactly validity, and the reported entity really breaks the rule it is reported for. */
  method ValidateScenario(sc: Scenario) returns (r: Outcome<DomainError>)
    ensures r.Pass? <==> ValidScenario(sc)
    ensures r.Fail? ==>
              match r.error {
                case DuplicateId(_, _) => !DistinctIds(sc)
                case ClockCurrentExceedsMax(id) => exists c :: c in sc.clocks && c.id == id && c.current > c.max
                case FactionStandingOutOfRange(id) =>
                  exists f :: f in sc.factions && f.id == id && !(-100 <= f.initialStanding <= 100)
                case UnknownNpcInitialLocation(id, location) =>
                  && location !in LocationIds(sc)
                  && exists n :: n in sc.npcs && n.id == id && n.initialLocationId == Some(location)
                case MissingRevivalEvent => false
              }
  {
    r := RejectDuplicateRosters(sc);
    if r.Fail? { return; }
    for i := 0 to |sc.clocks|
      invariant forall k | 0 <= k < i :: sc.clocks[k].current <= sc.clocks[k].max
    {
      if sc.clocks[i].current > sc.clocks[i].max {
        assert sc.clocks[i] in sc.clocks;
        return Fail(ClockCurrentExceedsMax(sc.clocks[i].id));
      }
    }
    for i := 0 to |sc.factions|
      invariant forall k | 0 <= k < i :: -100 <= sc.factions[k].initialStanding <= 100
    {
      if !(-100 <= sc.factions[i].initialStanding <= 100) {
        assert sc.factions[i] in sc.factions;
        return Fail(FactionStandingOutOfRange(sc.factions[i].id));
      }
    }
    for i := 0 to |sc.npcs|
      invariant forall k | 0 <= k < i && sc.npcs[k].initialLocationId.Some? ::
                  sc.npcs[k].initialLocationId.value in LocationIds(sc)
    {
      var at := sc.npcs[i].initialLocationId;
      if at.Some? && at.value !in LocationIds(sc) {
        assert sc.npcs[i] in sc.npcs;
        return Fail(UnknownNpcInitialLocation(sc.npcs[i].id, at.value));
      }
    }
    r := Pass;
  }

  /** `validate_npc_status_transition` */
  function CheckStatusTransition(from: NpcStatus, to: NpcStatus, hasRevivalEvent: bool): Outcome<DomainError> {
    if from == Dead && to == Active && !hasRevivalEvent then Fail(MissingRevivalEvent) else Pass
  }
}
