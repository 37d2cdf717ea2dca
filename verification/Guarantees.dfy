/** What the orchestrator guarantees over every run, whatever the interleaving and
    whatever the calls into Incus and GitHub return. */
module Guarantees {
  import opened Tracking
  import opened Lifecycle
  import opened LifecycleInvariant
  import opened LifecycleAccounts
  import opened Capacity
  import opened Obligations
  import opened Sums

  /** Everything that holds between any two steps. */
  ghost predicate Safe(s: State) {
    && Core(s) && CapacityOk(s) && PendingOk(s) && LedgerOk(s)
    && (s.phase.Joined? ==> AllDone(s.actors, Spawner))
  }

  lemma SafeInit(s: State)
    requires Init(s)
    ensures Safe(s)
  {
    CoreInit(s);
    CapacityInit(s);
  }

  lemma JoinedStays(s: State, e: Event)
    requires Core(s) && Enabled(s, e) && (s.phase.Joined? ==> AllDone(s.actors, Spawner))
    ensures Apply(s, e).phase.Joined? ==> AllDone(Apply(s, e).actors, Spawner)
  {
    if e.Act? {
      ActShape(s, e.actor, e.choice);
      EdgeTaken(s, e.actor, e.choice);
      BooksStep(s, e.actor, e.choice);
    }
  }

  lemma SafeApply(s: State, e: Event)
    requires Safe(s) && Enabled(s, e)
    ensures Safe(Apply(s, e))
  {
    CoreApply(s, e);
    CapacityApply(s, e);
    ObligationsApply(s, e);
    JoinedStays(s, e);
  }

  /** The invariant holds throughout every run. */
  lemma {:induction false} SafeRun(s: State, es: seq<Event>)
    requires Safe(s) && Legal(s, es)
    ensures Safe(Exec(s, es))
    decreases |es|
  {
    if es != [] {
      SafeApply(s, es[0]);
      SafeRun(Apply(s, es[0]), es[1..]);
    }
  }

  lemma SafeFromStart(s: State, es: seq<Event>)
    requires Init(s) && Legal(s, es)
    ensures Safe(Exec(s, es))
  {
    SafeInit(s);
    SafeRun(s, es);
  }

  lemma ConfigStep(s: State, e: Event)
    requires Enabled(s, e)
    ensures Apply(s, e).cfg == s.cfg
  {
    if e.Act? { BooksStep(s, e.actor, e.choice); }
  }

  lemma {:induction false} ConfigKept(s: State, es: seq<Event>)
    requires Legal(s, es)
    ensures Exec(s, es).cfg == s.cfg
    decreases |es|
  {
    if es != [] {
      ConfigStep(s, es[0]);
      ConfigKept(Apply(s, es[0]), es[1..]);
    }
  }

  // ----- no teardown during a launch -----

  /** The actor's Stop or Delete call for n is about to be made, or in flight. */
  predicate TearsDown(a: Actor, n: Name) {
    a.name == n
      && (a.pc == Term(StopCall) || a.pc == Term(Stopping) || a.pc == Term(DeleteCall) || a.pc == Term(Deleting))
  }

  predicate LaunchInFlight(a: Actor, n: Name) {
    a.name == n && a.role.Spawner? && a.pc == Ahead(LaunchFlight)
  }

  /** Incus refuses to delete an instance that is being created. No actor - completion handler, timeout
      reaper, drift sweep or spawn task - tears n down while its Launch call is in flight, provided no
      job-started event for n came before the call returned. */
  lemma NoTeardownDuringLaunch(s0: State, es: seq<Event>, i: nat, j: nat, n: Name)
    requires Init(s0) && Legal(s0, es)
    requires i < |Exec(s0, es).actors| && LaunchInFlight(Exec(s0, es).actors[i], n)
    requires j < |Exec(s0, es).actors| && TearsDown(Exec(s0, es).actors[j], n)
    ensures n in Exec(s0, es).hist.early
  {
    SafeFromStart(s0, es);
    var s := Exec(s0, es);
    assert ActorOk(i, s.actors[i], s.hist, s.clock) && ActorOk(j, s.actors[j], s.hist, s.clock) && NameOk(s, n);
  }

  // ----- the drift sweep -----

  lemma RemovedGrows(s: State, e: Event)
    requires Enabled(s, e)
    ensures s.hist.removed <= Apply(s, e).hist.removed
  {
    if e.Act? { BooksStep(s, e.actor, e.choice); }
  }

  /** Names are fresh, so a record that was removed never comes back. */
  lemma {:induction false} RemovedForever(s: State, es: seq<Event>, n: Name)
    requires Safe(s) && Legal(s, es) && n in s.hist.removed
    ensures n in Exec(s, es).hist.removed && n !in Exec(s, es).tracker
    decreases |es|
  {
    if es != [] {
      SafeApply(s, es[0]);
      RemovedGrows(s, es[0]);
      RemovedForever(Apply(s, es[0]), es[1..], n);
    } else {
      assert NameOk(s, n);
    }
  }

  /** Every instance the drift sweep tears down was left by an earlier process, or its record is gone
      for good - also while other runners are being spawned. */
  lemma DriftSweepSound(s0: State, es: seq<Event>, j: nat, later: seq<Event>)
    requires Init(s0) && Legal(s0, es) && j < |Exec(s0, es).actors| && Exec(s0, es).actors[j].role.Sweeper?
    requires Legal(Exec(s0, es), later)
    ensures var s, n := Exec(s0, es), Exec(s0, es).actors[j].name;
            n in s.hist.prior || (n in s.hist.born && n !in s.tracker && n !in Exec(s, later).tracker)
  {
    SafeFromStart(s0, es);
    var s := Exec(s0, es);
    var n := s.actors[j].name;
    assert ActorOk(j, s.actors[j], s.hist, s.clock) && NameOk(s, n);
    if n !in s.hist.prior {
      RemovedForever(s, later, n);
    }
  }

  // ----- nothing is lost -----

  /** In every reachable state a termination request has an actor that will honour it, so none is left
      once all actors are done - and neither is a record that is still launching, nor a reservation. */
  lemma NoRequestLost(s0: State, es: seq<Event>)
    requires Init(s0) && Legal(s0, es)
    ensures PendingOk(Exec(s0, es))
    ensures var s := Exec(s0, es);
            Quiescent(s) ==>
              s.inflight == 0
              && forall n :: n in s.tracker ==> !s.tracker[n].pending && !s.tracker[n].state.Launching?
  {
    SafeFromStart(s0, es);
    var s := Exec(s0, es);
    if Quiescent(s) {
      TotalZero(s.actors, Reservations);
      forall n | n in s.tracker ensures !s.tracker[n].pending && !s.tracker[n].state.Launching? {
        assert NameOk(s, n);
        assert !PendingIn(s.tracker, n);
      }
    }
  }

  /** Every registration GitHub ever handed out is accounted for, on every failure, abort and shutdown
      path; once all actors are done it is tracked, was handed to RemoveRunner, or its job completed. */
  lemma NoRegistrationDropped(s0: State, es: seq<Event>, n: Name)
    requires Init(s0) && Legal(s0, es) && n in Exec(s0, es).hist.minted && Exec(s0, es).hist.minted[n] != 0
    ensures var s := Exec(s0, es);
            Accounted(s, n, s.hist.minted[n])
            && (n in s.tracker ==> s.tracker[n].id == s.hist.minted[n])
            && (Quiescent(s) ==> n in s.tracker || (n, s.hist.minted[n]) in s.books.passed || n in s.books.completed)
  {
    SafeFromStart(s0, es);
    assert NameOk(Exec(s0, es), n);
  }

  // ----- capacity -----

  /** Names are fresh: the records ever added are the tracked and the removed ones. */
  lemma TrackedCount(s: State)
    requires Core(s)
    ensures |s.hist.born| == |s.tracker| + |s.hist.removed|
  {
    assert forall n :: NameOk(s, n) ==> (n in s.tracker <==> n in s.hist.born && n !in s.hist.removed);
    assert s.hist.born == s.tracker.Keys + s.hist.removed by {
      forall n: Name ensures n in s.hist.born <==> n in s.tracker.Keys + s.hist.removed {
        assert NameOk(s, n);
      }
    }
    assert s.tracker.Keys !! s.hist.removed;
    assert |s.tracker| == |s.tracker.Keys|;
  }

  lemma ReservationsCount(s: State)
    requires Safe(s)
    ensures s.inflight >= 0
  {
    forall j | 0 <= j < |s.actors| ensures Reservations(s.actors[j]) >= 0 {
      assert ActorOk(j, s.actors[j], s.hist, s.clock);
    }
    TotalNonNegative(s.actors, Reservations);
  }

  /** Whenever spawnMu is free, spawnInflight is the sum of the unsettled reservations, every reservation
      ever made is in flight, given back, tracked or removed, and the runners tracked or in flight stay
      within the largest target asked for, hence within MaxRunners. */
  lemma CapacityBound(s0: State, es: seq<Event>)
    requires Init(s0) && Legal(s0, es) && Exec(s0, es).spawnMu.Free?
    ensures var s := Exec(s0, es);
            && s.inflight == Total(s.actors, Reservations)
            && s.books.granted == s.inflight + s.books.aborted + |s.tracker| + |s.hist.removed|
            && |s.tracker| + s.inflight <= s.books.peak <= s.cfg.maxRunners
  {
    SafeFromStart(s0, es);
    TrackedCount(Exec(s0, es));
  }

  /** The second half of a scale-up's section under spawnMu. */
  lemma Reserved(s: State, i: nat, c: Choice)
    requires CanAct(s, i, c) && s.actors[i].pc == Scale(Reserving)
    ensures var s1, a := ActStep(s, i, c), s.actors[i];
      && s1.spawnMu.Free? && s1.tracker == s.tracker
      && s1.inflight == s.inflight + ScaleUp(a.target, a.size, s.inflight)
  {}
}
