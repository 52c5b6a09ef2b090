/** Where a session starts, entry by entry, said of the authored scenario alone. */
module SessionStart {
  import opened Wrappers
  import opened Sequences
  import opened Domain
  import opened Sessions

  /** Clocks start as their templates stand and are visible; standing is the authored one, pressure zero. */
  lemma ClocksAndFactionsStart(sessionId: SessionId, sc: Scenario)
    ensures var s := InitialWorldState(sessionId, sc);
            && |s.clocks| == |sc.clocks| && |s.factions| == |sc.factions|
            && (forall k | 0 <= k < |sc.clocks| ::
                  var c := sc.clocks[k];
                  s.clocks[k] == ClockState(c.id, c.title, c.current, c.max, c.consequence, true))
            && (forall k | 0 <= k < |sc.factions| ::
                  var f := sc.factions[k];
                  s.factions[k] == FactionState(f.id, f.initialStanding, [], [], [], 0, [], []))
  {
  }

  /** Every secret starts as a GM-only fact of its own; a quest is available exactly when it is visible. */
  lemma SecretsAndQuestsStart(sessionId: SessionId, sc: Scenario)
    ensures var s := InitialWorldState(sessionId, sc);
            && |s.facts| == |sc.secrets| && |s.quests| == |sc.quests|
            && (forall k | 0 <= k < |sc.secrets| ::
                  var secret := sc.secrets[k];
                  s.facts[k] ==
                  Fact(secret.id, secret.text, GmOnly, [], FromScenario, secret.revealConditions, [], None))
            && (forall k | 0 <= k < |sc.quests| ::
                  var q := s.quests[k];
                  && q.questId == sc.quests[k].id && q.completedObjectives == []
                  && (q.visible <==> sc.quests[k].visible)
                  && (q.status == QuestAvailable <==> sc.quests[k].visible)
                  && (q.status == QuestHidden <==> !sc.quests[k].visible))
  {
  }

  /** An npc stands where it was authored to, or at the first location if nowhere. */
  predicate AuthoredNpc(sc: Scenario, npc: Npc, n: NpcState) {
    && n.npcId == npc.id
    && n.status == npc.initialStatus
    && n.visibleToPlayer == npc.initialVisibleToPlayer
    && (npc.initialLocationId.Some? ==> n.locationId == npc.initialLocationId)
    && (npc.initialLocationId.None? && |sc.locations| > 0 ==> n.locationId == Some(sc.locations[0].id))
    && (npc.initialLocationId.None? && |sc.locations| == 0 ==> n.locationId == None)
    && n.attitudeToPlayer == None && n.currentIntent == None
    && n.knownFacts == [] && n.notes == [] && n.offscreenActions == []
  }

  predicate AtFirstLocation(sc: Scenario, npc: Npc) {
    |sc.locations| > 0 && npc.initialLocationId == Some(sc.locations[0].id)
  }

  /** Availability: the dead and unconscious have none, and the others as sight and authored place allow. */
  predicate AuthoredAvailability(sc: Scenario, npc: Npc, n: NpcState) {
    var able := npc.initialStatus != Dead && npc.initialStatus != Unconscious;
    var seen := able && npc.initialVisibleToPlayer;
    && (n.availability == Unavailable <==> !able)
    && (n.availability == Present <==> seen && AtFirstLocation(sc, npc))
    && (n.availability == Nearby <==> seen && npc.initialLocationId == None)
    && (n.availability == Offscreen <==>
          able && (!npc.initialVisibleToPlayer || (npc.initialLocationId.Some? && !AtFirstLocation(sc, npc))))
  }

  lemma NpcsStart(sessionId: SessionId, sc: Scenario)
    ensures var s := InitialWorldState(sessionId, sc);
            && |s.npcs| == |sc.npcs|
            && forall k | 0 <= k < |sc.npcs| ::
                 AuthoredNpc(sc, sc.npcs[k], s.npcs[k]) && AuthoredAvailability(sc, sc.npcs[k], s.npcs[k])
  {
    var s := InitialWorldState(sessionId, sc);
    forall k | 0 <= k < |sc.npcs|
      ensures AuthoredNpc(sc, sc.npcs[k], s.npcs[k]) && AuthoredAvailability(sc, sc.npcs[k], s.npcs[k])
    {
      assert s.npcs[k] == InitialNpc(StartLocation(sc))(sc.npcs[k]);
    }
  }

  /** The first npc speaks at the first location, and nothing has happened yet. */
  lemma StageStart(sessionId: SessionId, sc: Scenario)
    ensures var s := InitialWorldState(sessionId, sc);
            && s.sessionId == sessionId && s.scenarioId == sc.id && s.version == 0
            && (|sc.npcs| > 0 ==> s.activeSpeakerId == Some(sc.npcs[0].id))
            && (|sc.npcs| == 0 ==> s.activeSpeakerId == None)
            && (|sc.locations| > 0 ==> s.currentLocationId == Some(sc.locations[0].id))
            && (|sc.locations| == 0 ==> s.currentLocationId == None)
            && s.currentScene == None && s.summary == None
            && s.actionResolutions == [] && s.relationships == [] && s.inventory == [] && s.clues == []
            && s.memories == [] && s.recentEvents == []
            && s.player == PlayerCharacterState([], [], [], [], [])
  {
  }
}
