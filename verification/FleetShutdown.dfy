/** The shutdown of one class while the others go on and share limiters and resolver with it. */
module FleetShutdown {
  import opened Lifecycle
  import opened LifecycleInvariant
  import opened Guarantees
  import opened RunnerLives
  import opened Sums
  import opened Fleet

  const REFUSED := Choice(false, "", 0)

  /** What is left of the drain of class k; freeing the resolver's mutex for it counts too. */
  ghost function FleetDrainLeft(f: FleetState, k: nat): int
    requires k < |f.classes|
  {
    2 * DrainLeft(f.classes[k]) + f.resolverUsed
  }

  lemma ResolverHolder(f: FleetState) returns (k: nat, i: nat)
    requires FleetOk(f) && f.resolverUsed > 0
    ensures k < |f.classes| && i < |f.classes[k].actors| && f.classes[k].actors[i].pc == Prep(Resolving)
  {
    if h: nat, j: nat :| h < |f.classes| && j < |f.classes[h].actors| && f.classes[h].actors[j].pc == Prep(Resolving) {
      k, i := h, j;
    } else {
      forall h | 0 <= h < |f.classes| ensures ResolverHeld(f.classes[h]) == 0 {
        TotalZero(f.classes[h].actors, HoldsResolver);
      }
      TotalZero(f.classes, ResolverHeld);
      assert false;
    }
  }

  lemma ResolverSpawns(s: State, i: nat)
    requires Safe(s) && i < |s.actors| && s.actors[i].pc == Prep(Resolving)
    ensures s.actors[i].role.Spawner?
  {
    assert ActorOk(i, s.actors[i], s.hist, s.clock);
  }

  /** The holder of the resolver's mutex gives it back. */
  lemma ResolverFreed(f: FleetState, k: nat) returns (c: nat, i: nat)
    requires FleetOk(f) && k < |f.classes| && f.classes[k].phase.Draining? && f.resolverUsed > 0
    ensures FleetEnabled(f, c, Act(i, REFUSED)) && f.classes[c].actors[i].pc == Prep(Resolving)
    ensures var f' := FleetApply(f, c, Act(i, REFUSED));
            f'.classes[k].phase.Draining? && FleetDrainLeft(f', k) < FleetDrainLeft(f, k)
  {
    c, i := ResolverHolder(f);
    ReleaseNeverBlocks(f, c, i, REFUSED);
    if c == k {
      ResolverSpawns(f.classes[k], i);
      DrainProgress(f.classes[k], i, REFUSED);
    }
  }

  /** A step of class k itself, if the mutex is free or not asked for. */
  lemma OwnStep(f: FleetState, k: nat, i: nat, choice: Choice)
    requires FleetOk(f) && k < |f.classes| && f.classes[k].phase.Draining? && DrainGoesOn(f.classes[k], i, choice)
    requires f.classes[k].actors[i].pc == Prep(ResolveWait) ==> f.resolverUsed <= 0
    ensures FleetEnabled(f, k, Act(i, choice))
    ensures var f' := FleetApply(f, k, Act(i, choice));
            f'.classes[k].phase.Draining? && FleetDrainLeft(f', k) < FleetDrainLeft(f, k)
  {
    if f.classes[k].actors[i].pc != Prep(ResolveWait) {
      ReleaseNeverBlocks(f, k, i, choice);
    }
    DrainProgress(f.classes[k], i, choice);
  }

  /** The step is one of a spawn task of class k, of the holder of its spawnMu, or of the holder of the
      resolver's mutex in whatever class; no call succeeds in it and no permit is granted. */
  ghost predicate DrainsClass(f: FleetState, k: nat, c: nat, i: nat, choice: Choice)
    requires k < |f.classes|
  {
    || (c == k && DrainGoesOn(f.classes[k], i, choice))
    || (c < |f.classes| && i < |f.classes[c].actors| && f.classes[c].actors[i].pc == Prep(Resolving) && !choice.ok)
  }

  /** One step towards the end: of a spawn task of class k, of the holder of its spawnMu, or of the holder of the
      resolver's mutex in whatever class. */
  lemma FleetDrainStep(f: FleetState, k: nat) returns (c: nat, i: nat, choice: Choice)
    requires FleetOk(f) && k < |f.classes| && f.classes[k].phase.Draining? && !AllDone(f.classes[k].actors, Spawner)
    ensures FleetEnabled(f, c, Act(i, choice)) && DrainsClass(f, k, c, i, choice)
    ensures var f' := FleetApply(f, c, Act(i, choice));
            f'.classes[k].phase.Draining? && FleetDrainLeft(f', k) < FleetDrainLeft(f, k)
  {
    c := k;
    i, choice := TaskCanStep(f.classes[k]);
    if f.classes[k].actors[i].pc == Prep(ResolveWait) && f.resolverUsed > 0 {
      c, i := ResolverFreed(f, k);
      choice := REFUSED;
    } else {
      OwnStep(f, k, i, choice);
    }
  }

  lemma DrainLeftNonNegative(f: FleetState, k: nat)
    requires FleetOk(f) && k < |f.classes|
    ensures FleetDrainLeft(f, k) >= 0
  {
    StepsLeftNonNegative(f.classes[k]);
    HeldNonNegative(f);
    TotalNonNegative(f.classes, ResolverHeld);
  }

  lemma JoinsNow(f: FleetState, k: nat)
    requires k < |f.classes| && f.classes[k].phase.Draining? && AllDone(f.classes[k].actors, Spawner)
    ensures FleetLegal(f, [(k, JoinTasks)]) && k < |FleetExec(f, [(k, JoinTasks)]).classes|
    ensures FleetExec(f, [(k, JoinTasks)]).classes[k].phase.Joined?
  {
    FleetStepThenRun(f, k, JoinTasks, []);
    assert [(k, JoinTasks)] + [] == [(k, JoinTasks)];
  }

  /** Every step of the run is such a step, up to the return of Wait. */
  ghost predicate Drains(f: FleetState, es: seq<(nat, Event)>, k: nat)
    requires FleetLegal(f, es) && k < |f.classes|
    decreases |es|
  {
    || es == []
    || es == [(k, JoinTasks)]
    || (var (c, e) := es[0];
        e.Act? && DrainsClass(f, k, c, e.actor, e.choice) && Drains(FleetApply(f, c, e), es[1..], k))
  }

  /** Whatever state the classes are in, a class that is shutting down comes to the return of Wait by steps of its
      spawn tasks and of the holders of the locks they wait for, even if no permit is granted and no call
      succeeds any more: no other actor has to give a permit back first. */
  lemma {:induction false} FleetWaitReturns(f: FleetState, k: nat) returns (es: seq<(nat, Event)>)
    requires FleetOk(f) && k < |f.classes| && f.classes[k].phase.Draining?
    ensures FleetLegal(f, es) && k < |FleetExec(f, es).classes| && FleetExec(f, es).classes[k].phase.Joined?
    ensures Drains(f, es, k)
    decreases FleetDrainLeft(f, k)
  {
    if AllDone(f.classes[k].actors, Spawner) {
      es := [(k, JoinTasks)];
      JoinsNow(f, k);
    } else {
      var c, i, choice := FleetDrainStep(f, k);
      var f' := FleetApply(f, c, Act(i, choice));
      FleetApplyKeeps(f, c, Act(i, choice));
      DrainLeftNonNegative(f', k);
      var rest := FleetWaitReturns(f', k);
      es := [(c, Act(i, choice))] + rest;
      FleetStepThenRun(f, c, Act(i, choice), rest);
    }
  }
}
