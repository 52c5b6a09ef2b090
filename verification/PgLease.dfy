/**
 What the Postgres turn lock does and does not give. A worker holds the lock from its acquisition until
 its release statement has run. As long as nobody acquires past a holder older than the lease, a session
 has at most one holder; the first acquisition past such a holder makes it two, and the late release of the
 first frees the lock of the second.
 */
module PgLease {
  import opened Wrappers
  import opened Sequences
  import opened Domain
  import opened Engines
  import opened Records
  import opened PgStore
  import opened PgProtocol
  import Runs

  predicate Holds(p: Cluster, w: WorkerId, id: SessionId) {
    w in p.workers && p.workers[w].session == id
  }

  /** No holder is older than the lease when a worker acquires. One that has a turn already does not acquire. */
  predicate Timely(p: Cluster, step: Step) {
    step.Acquire? && step.worker !in p.workers ==>
      forall v | v in p.workers && p.workers[v].session == step.session :: p.now - p.workers[v].since <= LEASE
  }

  function TimelyStep(): (Cluster, Step) -> bool {
    (p: Cluster, step: Step) => Timely(p, step)
  }

  /** Each holder's session row says so, with the holder's time. */
  ghost predicate HoldersMarked(p: Cluster) {
    forall w | w in p.workers ::
      && p.workers[w].session in p.db.sessions
      && p.db.sessions[p.workers[w].session].processingTurn
      && p.db.sessions[p.workers[w].session].startedAt == Some(p.workers[w].since)
  }

  ghost predicate OneHolder(p: Cluster) {
    forall v, w | v in p.workers && w in p.workers && p.workers[v].session == p.workers[w].session :: v == w
  }

  /** Only a session with a holder is marked. */
  ghost predicate MarksHaveHolders(p: Cluster) {
    forall id | id in p.db.sessions && p.db.sessions[id].processingTurn :: exists w :: Holds(p, w, id)
  }

  ghost predicate LeaseInv(p: Cluster) {
    HoldersMarked(p) && OneHolder(p)
  }

  lemma StepKeepsLease(e: Engine, p: Cluster, step: Step)
    requires LeaseInv(p) && Timely(p, step)
    ensures LeaseInv(After(e, p, step))
  {
    hide Commits, WorldEvents;
  }

  lemma StepKeepsMarks(e: Engine, p: Cluster, step: Step)
    requires LeaseInv(p) && MarksHaveHolders(p) && !step.Crash?
    ensures MarksHaveHolders(After(e, p, step))
  {
    var n := After(e, p, step);
    forall id | id in n.db.sessions && n.db.sessions[id].processingTurn
      ensures exists w :: Holds(n, w, id)
    {
      if id in p.db.sessions && p.db.sessions[id].processingTurn {
        var w :| Holds(p, w, id);
        assert Holds(n, w, id);
      } else {
        assert Holds(n, step.worker, id);
      }
    }
  }

  /** Mutual exclusion for every timely run, crashes included. */
  lemma {:induction false} TimelyRunsExclude(e: Engine, now: int, steps: seq<Step>)
    requires Runs.Legal(Start(now), steps, Do(e), TimelyStep())
    ensures LeaseInv(Runs.Final(Start(now), steps, Do(e)))
    decreases |steps|
  {
    if |steps| > 0 {
      TimelyRunsExclude(e, now, Init(steps));
      StepKeepsLease(e, Runs.Final(Start(now), Init(steps), Do(e)), Last(steps));
    }
  }

  lemma UntimelyStepMakesTwo(e: Engine, p: Cluster, step: Step)
    requires LeaseInv(p) && !Timely(p, step)
    ensures !OneHolder(After(e, p, step))
  {
    var v :| v in p.workers && p.workers[v].session == step.session && p.now - p.workers[v].since > LEASE;
    var n := After(e, p, step);
    assert v in n.workers && step.worker in n.workers && v != step.worker;
  }

  /** No session ever has two holders, from the first state of the run to the last. */
  ghost predicate AlwaysOneHolder(e: Engine, now: int, steps: seq<Step>) {
    forall n: nat | n <= |steps| :: OneHolder(Runs.Final(Start(now), steps[..n], Do(e)))
  }

  lemma AlwaysOneHolderIff(e: Engine, now: int, steps: seq<Step>)
    requires |steps| > 0
    ensures AlwaysOneHolder(e, now, steps) <==>
            AlwaysOneHolder(e, now, Init(steps)) && OneHolder(Runs.Final(Start(now), steps, Do(e)))
  {
    hide OneHolder, Runs.Final, Do;
    assert forall n: nat | n < |steps| :: Init(steps)[..n] == steps[..n];
    assert steps[..|steps|] == steps;
    if AlwaysOneHolder(e, now, steps) {
      forall n: nat | n <= |Init(steps)| ensures OneHolder(Runs.Final(Start(now), Init(steps)[..n], Do(e))) {
        assert OneHolder(Runs.Final(Start(now), steps[..n], Do(e)));
      }
      assert OneHolder(Runs.Final(Start(now), steps[..|steps|], Do(e)));
    }
  }

  /** The lock excludes throughout a run exactly when no acquisition of the run finds a holder older than the lease. */
  lemma {:induction false} ExclusiveIffTimely(e: Engine, now: int, steps: seq<Step>)
    ensures AlwaysOneHolder(e, now, steps) <==> Runs.Legal(Start(now), steps, Do(e), TimelyStep())
    decreases |steps|
  {
    if |steps| > 0 {
      hide HoldersMarked, OneHolder, Timely, AlwaysOneHolder;
      var before := Runs.Final(Start(now), Init(steps), Do(e));
      ExclusiveIffTimely(e, now, Init(steps));
      AlwaysOneHolderIff(e, now, steps);
      if Runs.Legal(Start(now), Init(steps), Do(e), TimelyStep()) {
        TimelyRunsExclude(e, now, Init(steps));
        if Timely(before, Last(steps)) {
          StepKeepsLease(e, before, Last(steps));
        } else {
          UntimelyStepMakesTwo(e, before, Last(steps));
        }
      }
    }
  }

  /** Without crashes, `processing_turn` is set exactly while a worker holds the lock. */
  lemma {:induction false} FlagMeansHolder(e: Engine, now: int, steps: seq<Step>)
    requires Runs.Legal(Start(now), steps, Do(e), TimelyStep())
    requires forall step | step in steps :: !step.Crash?
    ensures var p := Runs.Final(Start(now), steps, Do(e));
            forall id | id in p.db.sessions :: p.db.sessions[id].processingTurn <==> exists w :: Holds(p, w, id)
  {
    TimelyRunsExclude(e, now, steps);
    MarksOfRun(e, now, steps);
  }

  lemma {:induction false} MarksOfRun(e: Engine, now: int, steps: seq<Step>)
    requires Runs.Legal(Start(now), steps, Do(e), TimelyStep())
    requires forall step | step in steps :: !step.Crash?
    ensures MarksHaveHolders(Runs.Final(Start(now), steps, Do(e)))
    decreases |steps|
  {
    if |steps| > 0 {
      InitLast(steps);
      assert forall step | step in Init(steps) :: step in steps;
      MarksOfRun(e, now, Init(steps));
      TimelyRunsExclude(e, now, Init(steps));
      assert Last(steps) in steps;
      StepKeepsMarks(e, Runs.Final(Start(now), Init(steps), Do(e)), Last(steps));
    }
  }

  /** A held lock is taken over exactly when its holder's lease has run out. */
  lemma TakenOverIffExpired(e: Engine, p: Cluster, v: WorkerId, w: WorkerId, id: SessionId)
    requires HoldersMarked(p) && Holds(p, v, id) && w !in p.workers
    ensures Holds(After(e, p, Acquire(w, id)), w, id) <==> p.now - p.workers[v].since > LEASE
  {
  }

  /**
   After a takeover the first holder's release clears the second holder's lock, so a third worker gets in
   at once, whatever the age of the second: the lease bounds nothing once it has been exceeded.
   */
  lemma LateReleaseFreesStolenLock(e: Engine, p: Cluster, v: WorkerId, w: WorkerId, x: WorkerId, id: SessionId)
    requires HoldersMarked(p) && Holds(p, v, id) && p.now - p.workers[v].since > LEASE
    requires w !in p.workers && x !in p.workers && w != x
    ensures var steps := [Acquire(w, id), DropGuard(v), Release(v), Acquire(x, id)];
            var n := Runs.Final(p, steps, Do(e));
            && Holds(n, w, id) && Holds(n, x, id) && n.now == p.now
            && n.workers[w].since == p.now && n.workers[w].stage == Holding
  {
    var p1 := After(e, p, Acquire(w, id));
    var p2 := After(e, p1, DropGuard(v));
    var p3 := After(e, p2, Release(v));
    var p4 := After(e, p3, Acquire(x, id));
    var steps := [Acquire(w, id), DropGuard(v), Release(v), Acquire(x, id)];
    assert Holds(p4, w, id) && Holds(p4, x, id);
    assert Init(steps) == [Acquire(w, id), DropGuard(v), Release(v)];
    assert Init(Init(steps)) == [Acquire(w, id), DropGuard(v)];
    assert Init(Init(Init(steps))) == [Acquire(w, id)];
    assert Init(Init(Init(Init(steps)))) == [];
    assert Runs.Final(p, [Acquire(w, id)], Do(e)) == p1;
    assert Runs.Final(p, [Acquire(w, id), DropGuard(v)], Do(e)) == p2;
    assert Runs.Final(p, [Acquire(w, id), DropGuard(v), Release(v)], Do(e)) == p3;
  }
}
