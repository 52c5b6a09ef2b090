/** What being dead or unconscious means for a turn, and how an npc comes back. */
module NpcLifecycle {
  import opened Wrappers
  import opened Sequences
  import opened Domain
  import opened ScenarioValidation
  import opened DeltaValidation
  import opened Reduction
  import opened Rosters
  import opened Sessions
  import opened WorldInvariant

  /** Nothing the npc knows, feels, wants or does off-screen differs. */
  predicate MindUnchanged(before: NpcState, after: NpcState) {
    && after.attitudeToPlayer == before.attitudeToPlayer
    && after.knownFacts == before.knownFacts
    && after.currentIntent == before.currentIntent
    && after.offscreenActions == before.offscreenActions
  }

  /** What an accepted change may do to an npc with a given status before the turn. */
  predicate Permitted(change: NpcChange, status: NpcStatus) {
    && (status.Dead? || status.Unconscious? ==>
          && !change.AttitudeChanged? && !change.KnowledgeAdded?
          && !change.IntentChanged? && !change.OffscreenActionRecorded?)
    && (status.Dead? ==> !change.NpcLocationChanged?)
    && (status.Dead? && change.StatusChanged? ==> change.status != Active)
  }

  lemma AcceptedIsPermitted(
    lower: string -> string, sc: Scenario, s: WorldState, change: NpcChange, k: nat)
    requires Unique(s.npcs, NpcKey) && k < |s.npcs| && change.npcId == s.npcs[k].npcId
    requires CheckNpc(lower, sc, s, change).Pass?
    ensures Permitted(change, s.npcs[k].status)
  {
    assert CheckAgency(change, s.npcs[k].status).Pass?;
    if change.StatusChanged? {
      assert CheckStatusChange(sc, s, change.npcId, change.status).Pass?;
      assert CurrentStatus(sc, s, change.npcId) == Some(s.npcs[k].status);
    }
  }

  lemma {:induction false} NothingLearnt(id: EntityKey, facts: seq<Fact>, changes: seq<NpcChange>, version: nat)
    requires forall c | c in changes && c.npcId == id :: !c.KnowledgeAdded?
    ensures KnowledgeIds(id, facts, changes, version) == []
    decreases |changes|
  {
    if |changes| > 0 {
      InitLast(changes);
      assert forall c | c in Init(changes) :: c in changes;
      NothingLearnt(id, facts, Init(changes), version);
      assert Last(changes) in changes;
    }
  }

  lemma PermittedKeepsMind(npc: NpcState, facts: seq<Fact>, changes: seq<NpcChange>, version: nat)
    requires npc.status.Dead? || npc.status.Unconscious?
    requires forall c | c in changes && c.npcId == npc.npcId :: Permitted(c, npc.status)
    ensures MindUnchanged(npc, NpcAfter(npc, facts, changes, version))
  {
    var id := npc.npcId;
    assert forall k | 0 <= k < |changes| :: changes[k] in changes;
    FilterMapNone(changes, AttitudeWrites(id));
    FilterMapNone(changes, IntentWrites(id));
    FilterMapNone(changes, OffscreenFor(id));
    NothingLearnt(id, facts, changes, version);
  }

  lemma PermittedKeepsDead(npc: NpcState, facts: seq<Fact>, changes: seq<NpcChange>, version: nat)
    requires npc.status.Dead?
    requires forall c | c in changes && c.npcId == npc.npcId :: Permitted(c, npc.status)
    ensures NpcAfter(npc, facts, changes, version).locationId == npc.locationId
    ensures NpcAfter(npc, facts, changes, version).status != Active
  {
    var id := npc.npcId;
    assert forall k | 0 <= k < |changes| :: changes[k] in changes;
    FilterMapNone(changes, LocationWrites(id));
    FilterMapMember(changes, StatusWrites(id), Active);
  }

  /** Any list of accepted npc changes leaves a dead npc dead in mind and place, and not active. */
  lemma DeadNpcsAreFrozen(
    lower: string -> string, sc: Scenario, s: WorldState, facts: seq<Fact>, changes: seq<NpcChange>, k: nat)
    requires Unique(s.npcs, NpcKey) && k < |s.npcs|
    requires forall c | c in changes :: CheckNpc(lower, sc, s, c).Pass?
    ensures var after := Npcs(s.npcs, facts, changes, s.version + 1);
            && |after| == |s.npcs|
            && (s.npcs[k].status.Dead? || s.npcs[k].status.Unconscious? ==> MindUnchanged(s.npcs[k], after[k]))
            && (s.npcs[k].status.Dead? ==> after[k].locationId == s.npcs[k].locationId && after[k].status != Active)
  {
    NpcRoster(s.npcs, facts, changes, s.version + 1);
    forall c | c in changes && c.npcId == s.npcs[k].npcId ensures Permitted(c, s.npcs[k].status) {
      AcceptedIsPermitted(lower, sc, s, c, k);
    }
    if s.npcs[k].status.Dead? || s.npcs[k].status.Unconscious? {
      PermittedKeepsMind(s.npcs[k], facts, changes, s.version + 1);
    }
    if s.npcs[k].status.Dead? {
      PermittedKeepsDead(s.npcs[k], facts, changes, s.version + 1);
    }
  }

  function StatusDelta(id: EntityKey, status: NpcStatus): WorldStateDelta {
    EMPTY_DELTA.(npcChanges := [StatusChanged(id, status, "reason")])
  }

  lemma StatusDeltaAccepted(lower: string -> string, sc: Scenario, s: WorldState, k: nat, status: NpcStatus)
    requires DistinctIds(sc) && NpcRosterKept(sc, s.npcs) && k < |s.npcs|
    requires s.npcs[k].status.Dead? ==> status != Active
    ensures Accepts(lower, sc, s, StatusDelta(s.npcs[k].npcId, status))
  {
    var d := StatusDelta(s.npcs[k].npcId, status);
    var change := StatusChanged(s.npcs[k].npcId, status, "reason");
    SameKeysUnique(sc.npcs, ScenarioNpcKey, s.npcs, NpcKey);
    assert sc.npcs[k] in sc.npcs;
    assert change.reason[0] == 'r';
    assert CheckNpc(lower, sc, s, change).Pass?;
    assert CheckCast(lower, sc, s, d).Pass? && CheckGroups(sc, s, d).Pass? && CheckPossessions(sc, s, d).Pass?;
  }

  lemma NpcsAfterStatus(s: WorldState, k: nat, status: NpcStatus)
    requires k < |s.npcs|
    ensures Applied(s, StatusDelta(s.npcs[k].npcId, status)).npcs ==
            Npcs(
              s.npcs, FactsAdded(s.facts, [], s.version + 1),
              [StatusChanged(s.npcs[k].npcId, status, "reason")], s.version + 1)
  {
    hide Npcs, FactsAdded;
  }

  lemma StatusDeltaWorks(lower: string -> string, sc: Scenario, s: WorldState, k: nat, status: NpcStatus)
    requires DistinctIds(sc) && NpcRosterKept(sc, s.npcs) && k < |s.npcs|
    requires s.npcs[k].status.Dead? ==> status != Active
    ensures Accepts(lower, sc, s, StatusDelta(s.npcs[k].npcId, status))
    ensures NpcRosterKept(sc, Applied(s, StatusDelta(s.npcs[k].npcId, status)).npcs)
    ensures Applied(s, StatusDelta(s.npcs[k].npcId, status)).npcs[k].status == status
  {
    hide Accepts;
    NpcsAfterStatus(s, k, status);
    hide Applied;
    StatusDeltaAccepted(lower, sc, s, k, status);
    SameKeysUnique(sc.npcs, ScenarioNpcKey, s.npcs, NpcKey);
  }

  // ---------- coming back ----------

  /** The status that a delta leaves an npc with, if it says anything about it. */
  function LastStatus(d: WorldStateDelta, id: EntityKey): Option<NpcStatus> {
    var written := FilterMap(d.npcChanges, StatusWrites(id));
    if |written| == 0 then None else Some(Last(written))
  }

  lemma ListStatus(
    lower: string -> string, sc: Scenario, s: WorldState, facts: seq<Fact>, changes: seq<NpcChange>, k: nat)
    requires Unique(s.npcs, NpcKey) && k < |s.npcs|
    requires forall c | c in changes :: CheckNpc(lower, sc, s, c).Pass?
    ensures var after := Npcs(s.npcs, facts, changes, s.version + 1);
            var written := FilterMap(changes, StatusWrites(s.npcs[k].npcId));
            && |after| == |s.npcs| && after[k].npcId == s.npcs[k].npcId
            && after[k].status == LastOr(written, s.npcs[k].status)
            && (s.npcs[k].status.Dead? ==> after[k].status != Active)
  {
    NpcRoster(s.npcs, facts, changes, s.version + 1);
    DeadNpcsAreFrozen(lower, sc, s, facts, changes, k);
  }

  lemma AcceptedNpcs(lower: string -> string, sc: Scenario, s: WorldState, d: WorldStateDelta)
    requires Accepts(lower, sc, s, d)
    ensures forall c | c in d.npcChanges :: CheckNpc(lower, sc, s, c).Pass?
    ensures Applied(s, d).npcs ==
            Npcs(s.npcs, FactsAdded(s.facts, d.factsToAdd, s.version + 1), d.npcChanges, s.version + 1)
  {
    hide CheckNpc, CheckAction, CheckMemory, CheckFact, CheckGroups, CheckPossessions, Npcs, FactsAdded;
    hide FactsLearned, Factions, Quests, Clocks, Actions, Relationships, Inventory, Player, Clues, Memories;
    assert CheckCast(lower, sc, s, d).Pass?;
  }

  /** One accepted turn: its last word on the npc's status stands, and does not raise the dead to activity. */
  lemma TurnStatus(lower: string -> string, sc: Scenario, s: WorldState, d: WorldStateDelta, k: nat)
    requires DistinctIds(sc) && NpcRosterKept(sc, s.npcs) && k < |s.npcs| && Accepts(lower, sc, s, d)
    ensures var t, last := Applied(s, d), LastStatus(d, s.npcs[k].npcId);
            && NpcRosterKept(sc, t.npcs) && |t.npcs| == |s.npcs|
            && t.npcs[k].npcId == s.npcs[k].npcId
            && t.npcs[k].status == last.GetOr(s.npcs[k].status)
            && (s.npcs[k].status.Dead? ==> last != Some(Active))
  {
    hide Accepts, Applied, Npcs, CheckNpc, FactsAdded, FilterMap;
    AcceptedNpcs(lower, sc, s, d);
    var facts := FactsAdded(s.facts, d.factsToAdd, s.version + 1);
    SameKeysUnique(sc.npcs, ScenarioNpcKey, s.npcs, NpcKey);
    NpcsKept(sc, s.npcs, facts, d.npcChanges, s.version + 1);
    hide NpcRosterKept, DistinctIds;
    ListStatus(lower, sc, s, facts, d.npcChanges, k);
  }

  /** The delta leaves the npc neither dead nor active. */
  predicate Weakens(d: WorldStateDelta, id: EntityKey) {
    var last := LastStatus(d, id);
    last.Some? && last.value != Dead && last.value != Active
  }

  ghost predicate Weakened(deltas: seq<WorldStateDelta>, id: EntityKey) {
    exists i :: 0 <= i < |deltas| && Weakens(deltas[i], id)
  }

  /** A delta weakens the npc and a later one leaves it active. */
  ghost predicate Revives(deltas: seq<WorldStateDelta>, id: EntityKey) {
    exists i, j ::
      0 <= i < j < |deltas| && Weakens(deltas[i], id) && LastStatus(deltas[j], id) == Some(Active)
  }

  lemma LongerRun(deltas: seq<WorldStateDelta>, id: EntityKey)
    requires |deltas| > 0
    ensures Weakened(Init(deltas), id) || Weakens(Last(deltas), id) ==> Weakened(deltas, id)
    ensures Revives(Init(deltas), id) ==> Revives(deltas, id)
    ensures Weakened(Init(deltas), id) && LastStatus(Last(deltas), id) == Some(Active) ==> Revives(deltas, id)
  {
    assert forall i | 0 <= i < |deltas| - 1 :: Init(deltas)[i] == deltas[i];
    if Weakened(Init(deltas), id) {
      var i :| 0 <= i < |Init(deltas)| && Weakens(Init(deltas)[i], id);
      assert Weakens(deltas[i], id);
    }
    if Revives(Init(deltas), id) {
      var i, j :| 0 <= i < j < |Init(deltas)| && Weakens(Init(deltas)[i], id)
                  && LastStatus(Init(deltas)[j], id) == Some(Active);
      assert Weakens(deltas[i], id) && LastStatus(deltas[j], id) == Some(Active);
    }
  }

  lemma {:induction false} StatusOfRun(
    lower: string -> string, sc: Scenario, s0: WorldState, deltas: seq<WorldStateDelta>, k: nat)
    requires DistinctIds(sc) && NpcRosterKept(sc, s0.npcs) && k < |s0.npcs| && s0.npcs[k].status.Dead?
    requires AcceptedRun(lower, sc, s0, deltas)
    ensures var t, id := StateAfter(s0, deltas), s0.npcs[k].npcId;
            && NpcRosterKept(sc, t.npcs) && |t.npcs| == |s0.npcs| && t.npcs[k].npcId == id
            && (t.npcs[k].status != Dead ==> Weakened(deltas, id))
            && (t.npcs[k].status == Active ==> Revives(deltas, id))
    decreases |deltas|
  {
    if |deltas| > 0 {
      hide Accepts, Applied, NpcRosterKept, DistinctIds, LastStatus, Weakened, Revives;
      StatusOfRun(lower, sc, s0, Init(deltas), k);
      TurnStatus(lower, sc, StateAfter(s0, Init(deltas)), Last(deltas), k);
      LongerRun(deltas, s0.npcs[k].npcId);
    }
  }

  /** The npc is active at some point of the run. */
  ghost predicate SometimeActive(s0: WorldState, deltas: seq<WorldStateDelta>, k: nat) {
    exists n: nat ::
      && n <= |deltas|
      && k < |StateAfter(s0, deltas[..n]).npcs|
      && StateAfter(s0, deltas[..n]).npcs[k].status == Active
  }

  /**
   Which runs bring a dead npc back to activity: those in which one turn leaves it with a status other than
   dead and active, and a later turn leaves it active. No event of any kind is asked for.
   */
  lemma RevivedIff(lower: string -> string, sc: Scenario, s0: WorldState, deltas: seq<WorldStateDelta>, k: nat)
    requires DistinctIds(sc) && NpcRosterKept(sc, s0.npcs) && k < |s0.npcs| && s0.npcs[k].status.Dead?
    requires AcceptedRun(lower, sc, s0, deltas)
    ensures SometimeActive(s0, deltas, k) <==> Revives(deltas, s0.npcs[k].npcId)
  {
    hide Accepts, Applied, NpcRosterKept, DistinctIds, LastStatus, Weakens, Weakened, StateAfter, AcceptedRun;
    var id := s0.npcs[k].npcId;
    if SometimeActive(s0, deltas, k) {
      var n: nat :| n <= |deltas| && k < |StateAfter(s0, deltas[..n]).npcs|
                    && StateAfter(s0, deltas[..n]).npcs[k].status == Active;
      RunPrefix(lower, sc, s0, deltas, n);
      StatusOfRun(lower, sc, s0, deltas[..n], k);
      var i, j :| 0 <= i < j < n && Weakens(deltas[..n][i], id) && LastStatus(deltas[..n][j], id) == Some(Active);
      assert Weakens(deltas[i], id) && LastStatus(deltas[j], id) == Some(Active);
    }
    if Revives(deltas, id) {
      var i, j :| 0 <= i < j < |deltas| && Weakens(deltas[i], id) && LastStatus(deltas[j], id) == Some(Active);
      RunPrefix(lower, sc, s0, deltas, j);
      StatusOfRun(lower, sc, s0, deltas[..j], k);
      TurnStatus(lower, sc, StateAfter(s0, deltas[..j]), deltas[j], k);
      assert StateAfter(s0, deltas[..j + 1]).npcs[k].status == Active;
    }
  }

  /** Death is not final: two accepted turns, through any status but active, bring an npc back. */
  lemma RevivalTakesTwoTurns(lower: string -> string, sc: Scenario, s: WorldState, k: nat)
    requires DistinctIds(sc) && NpcRosterKept(sc, s.npcs) && k < |s.npcs| && s.npcs[k].status.Dead?
    ensures var t := Applied(s, StatusDelta(s.npcs[k].npcId, Injured));
            && Accepts(lower, sc, s, StatusDelta(s.npcs[k].npcId, Injured))
            && |t.npcs| == |s.npcs|
            && Accepts(lower, sc, t, StatusDelta(t.npcs[k].npcId, Active))
            && var u := Applied(t, StatusDelta(t.npcs[k].npcId, Active));
            |u.npcs| == |s.npcs| && u.npcs[k].status == Active
  {
    StatusDeltaWorks(lower, sc, s, k, Injured);
    StatusDeltaWorks(lower, sc, Applied(s, StatusDelta(s.npcs[k].npcId, Injured)), k, Active);
  }
}
