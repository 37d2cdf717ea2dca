/** The life of a record over whole runs, and the end of all spawn tasks at shutdown. */
module RunnerLives {
  import opened Tracking
  import opened Lifecycle
  import opened LifecycleInvariant
  import opened LifecycleAccounts
  import opened Capacity
  import opened Obligations
  import opened Sums
  import opened Guarantees

  // ----- records only advance -----

  /** Each of the actors' effects on the registry, on its own. */
  lemma EffectAdvances(t: Registry, a: Actor, now: int)
    requires a.pc == Mint(AddWait) ==> a.name !in t
    ensures RegistryAdvances(t, Effect(t, a, now))
  {}

  lemma AdvancesAct(s: State, i: nat, c: Choice)
    requires Safe(s) && CanAct(s, i, c)
    ensures RegistryAdvances(s.tracker, ActStep(s, i, c).tracker)
  {
    RegistryStep(s, i, c);
    var a := s.actors[i];
    assert ActorOk(i, a, s.hist, s.clock) && NameOk(s, a.name);
    EffectAdvances(s.tracker, a, s.clock);
  }

  /** An upper bound on the steps an actor has before it; a scaling handler is not counted here. */
  function StepsFrom(pc: Pc): int {
    match pc
    case Prep(MintWait) => 28
    case Prep(ResolveWait) => 27
    case Prep(Resolving) => 26
    case Prep(Naming) => 25
    case Mint(Minting) => 24
    case Mint(Rendering) => 23
    case Mint(AddWait) => 22
    case Ahead(Added) => 21
    case Ahead(DropMint) => 20
    case Ahead(LaunchWait) => 19
    case Ahead(PreCheck) => 18
    case Ahead(LaunchCall) => 17
    case Ahead(LaunchFlight) => 16
    case Verdict(MarkIdle) => 15
    case Term(TermMark) => 9
    case Term(TermRemove) => 8
    case Term(StopCall) => 7
    case Term(Stopping) => 6
    case Term(DeleteCall) => 5
    case Term(Deleting) => 4
    case Verdict(AbortRemove) => 4
    case Mint(PreDeregister) => 4
    case Mint(PreDeregistering) => 3
    case Verdict(QuitRemove) => 3
    case Exit(Deregister) => 3
    case Unwind(UnwindMint) => 2
    case Exit(Deregistering) => 2
    case Quit(QuitDeregister) => 2
    case Unwind(Settle) => 1
    case Exit(DropLaunch) => 1
    case Quit(QuitDeregistering) => 1
    case Handle(MarkBusy) => 1
    case Handle(_) => 10
    case _ => 0
  }

  /** An upper bound on the steps a spawn task has before it. */
  function StepsLeft(a: Actor): int {
    if a.role.Spawner? then StepsFrom(a.pc) else 0
  }

  lemma DispatchAppends(s: State)
    requires Enabled(s, SweepDispatch)
    ensures Total(Dispatch(s).actors, StepsLeft) == Total(s.actors, StepsLeft)
    ensures Dispatch(s).phase == s.phase && Dispatch(s).tracker == s.tracker && Dispatch(s).hist == s.hist
  {
    TotalAppend(s.actors, Dispatch(s).actors[|s.actors|], StepsLeft);
  }

  /** A late return of Launch does not demote a busy runner, and no request is withdrawn. */
  lemma AdvancesApply(s: State, e: Event)
    requires Safe(s) && Enabled(s, e)
    ensures RegistryAdvances(s.tracker, Apply(s, e).tracker)
  {
    if e.Act? {
      AdvancesAct(s, e.actor, e.choice);
    } else if Arrival(e) {
      Arrived(s, e);
    } else if e.SweepDispatch? {
      DispatchAppends(s);
    } else {
      ElsewhereOutside(s, e);
    }
  }

  lemma BornGrows(s: State, e: Event)
    requires Safe(s) && Enabled(s, e)
    ensures s.hist.born <= Apply(s, e).hist.born
  {
    if e.Act? { BooksStep(s, e.actor, e.choice); }
  }

  lemma {:induction false} AdvancesRun(s: State, es: seq<Event>, n: Name)
    requires Safe(s) && Legal(s, es) && n in s.tracker && n in Exec(s, es).tracker
    ensures Advances(s.tracker[n], Exec(s, es).tracker[n])
    decreases |es|
  {
    if es != [] {
      var s' := Apply(s, es[0]);
      SafeApply(s, es[0]);
      assert NameOk(s, n) && NameOk(s', n);
      BornGrows(s, es[0]);
      if n !in s'.tracker {
        RemovedForever(s', es[1..], n);
      }
      AdvancesApply(s, es[0]);
      AdvancesRun(s', es[1..], n);
    }
  }

  /** Over every run a record keeps its identity, its state only moves up from launching over idle to busy,
      a termination request stays, BusyAt is set exactly while busy, and it is not before MintedAt unless
      a job-started event arrived before MintedAt was taken. */
  lemma RecordLife(s0: State, es: seq<Event>, later: seq<Event>, n: Name)
    requires Init(s0) && Legal(s0, es) && n in Exec(s0, es).tracker
    requires Legal(Exec(s0, es), later) && n in Exec(Exec(s0, es), later).tracker
    ensures var s, s' := Exec(s0, es), Exec(Exec(s0, es), later);
            var r := s.tracker[n];
            && Advances(r, s'.tracker[n])
            && (r.state.Busy? <==> r.busyAt.Some?)
            && (n !in s.hist.premature && r.busyAt.Some? ==> r.mintedAt <= r.busyAt.value)
  {
    SafeFromStart(s0, es);
    AdvancesRun(Exec(s0, es), later, n);
    assert NameOk(Exec(s0, es), n);
  }

  /** Task i is the spawn task of runner n and has yet to promote or remove its record. */
  predicate InChargeOf(s: State, i: nat, n: Name) {
    i < |s.actors| && s.actors[i].role.Spawner? && s.actors[i].name == n && InCharge(s.actors[i].pc)
  }

  /** Each launching record has exactly one spawn task that is still going to look at it. */
  lemma OneLaunchTask(s0: State, es: seq<Event>, n: Name)
    requires Init(s0) && Legal(s0, es) && n in Exec(s0, es).tracker && Exec(s0, es).tracker[n].state.Launching?
    ensures var s := Exec(s0, es);
            exists i: nat :: InChargeOf(s, i, n) && forall j: nat :: InChargeOf(s, j, n) ==> j == i
  {
    SafeFromStart(s0, es);
    var s := Exec(s0, es);
    assert NameOk(s, n);
    var i := s.hist.owner[n];
    assert InChargeOf(s, i, n);
    forall j: nat | InChargeOf(s, j, n) ensures j == i {
      assert ActorOk(j, s.actors[j], s.hist, s.clock);
    }
  }

  // ----- shutdown -----

  lemma StepsLeftFalls(a: Actor, a': Actor)
    requires RoleFits(a) && Steps(a, a')
    ensures if a.role.Spawner? then 0 <= StepsLeft(a') < StepsLeft(a) else StepsLeft(a') == StepsLeft(a) == 0
  {}

  ghost predicate SpawnStep(s: State, e: Event) {
    e.Act? && e.actor < |s.actors| && s.actors[e.actor].role.Spawner?
  }

  /** Once shutdown began no spawn task is added and each step of one uses up its measure. */
  lemma DrainStep(s: State, e: Event)
    requires Safe(s) && Enabled(s, e) && !s.phase.Running?
    ensures var s' := Apply(s, e);
            && !s'.phase.Running?
            && Total(s'.actors, StepsLeft) <= Total(s.actors, StepsLeft) - (if SpawnStep(s, e) then 1 else 0)
  {
    var s' := Apply(s, e);
    match e
    case Act(i, c) =>
      assert ActorOk(i, s.actors[i], s.hist, s.clock);
      EdgeTaken(s, i, c);
      BooksStep(s, i, c);
      TotalStep(s, i, c, StepsLeft);
      StepsLeftFalls(s.actors[i], s'.actors[i]);
    case DesiredCount(_) => TotalAppend(s.actors, s'.actors[|s.actors|], StepsLeft);
    case JobStarted(_) => TotalAppend(s.actors, s'.actors[|s.actors|], StepsLeft);
    case JobCompleted(_) => TotalAppend(s.actors, s'.actors[|s.actors|], StepsLeft);
    case SweepDispatch => DispatchAppends(s);
    case _ =>
  }

  ghost function SpawnSteps(s: State, es: seq<Event>): nat
    requires Legal(s, es)
    decreases |es|
  {
    if es == [] then 0 else (if SpawnStep(s, es[0]) then 1 else 0) + SpawnSteps(Apply(s, es[0]), es[1..])
  }

  lemma {:induction false} DrainRun(s: State, es: seq<Event>)
    requires Safe(s) && Legal(s, es) && !s.phase.Running?
    ensures !Exec(s, es).phase.Running?
    ensures SpawnSteps(s, es) + Total(Exec(s, es).actors, StepsLeft) <= Total(s.actors, StepsLeft)
    decreases |es|
  {
    if es != [] {
      DrainStep(s, es[0]);
      SafeApply(s, es[0]);
      DrainRun(Apply(s, es[0]), es[1..]);
    }
  }

  /** A spawn task, or the holder of spawnMu, can step, though no call succeeds and no permit is granted. */
  ghost predicate DrainGoesOn(s: State, i: nat, c: Choice) {
    CanAct(s, i, c) && !c.ok && (s.actors[i].role.Spawner? || s.spawnMu == Held(i))
  }

  lemma TaskCanStep(s: State) returns (i: nat, c: Choice)
    requires Safe(s) && !s.phase.Running? && !AllDone(s.actors, Spawner)
    ensures DrainGoesOn(s, i, c)
  {
    var n := AnotherName(s.hist.prior + s.hist.owner.Keys);
    c := Choice(false, n, 0);
    i :| i < |s.actors| && s.actors[i].role.Spawner? && !s.actors[i].pc.Done?;
    if s.spawnMu.Held? && TakesSpawnMu(s.actors[i].pc) {
      i := s.spawnMu.holder;
    }
  }

  /** From index k on there is no spawn task. */
  ghost predicate NoTaskFrom(s: State, k: nat) {
    k <= |s.actors| && forall j :: k <= j < |s.actors| ==> !s.actors[j].role.Spawner?
  }

  lemma NoTaskAddedNow(s: State, e: Event, k: nat)
    requires Enabled(s, e) && !s.phase.Running? && NoTaskFrom(s, k)
    ensures !Apply(s, e).phase.Running? && NoTaskFrom(Apply(s, e), k)
  {
    if e.Act? {
      ActShape(s, e.actor, e.choice);
      EdgeTaken(s, e.actor, e.choice);
      BooksStep(s, e.actor, e.choice);
    } else if Arrival(e) {
      Arrived(s, e);
    }
  }

  lemma {:induction false} NoTaskAdded(s: State, es: seq<Event>, k: nat)
    requires Legal(s, es) && !s.phase.Running? && NoTaskFrom(s, k)
    ensures NoTaskFrom(Exec(s, es), k)
    decreases |es|
  {
    if es != [] {
      NoTaskAddedNow(s, es[0], k);
      NoTaskAdded(Apply(s, es[0]), es[1..], k);
    }
  }

  lemma StepsLeftNonNegative(s: State)
    ensures Total(s.actors, StepsLeft) >= 0
  {
    TotalNonNegative(s.actors, StepsLeft);
  }

  /** No spawn task is added after the cancellation, those there are take only as many steps as their measure
      allows, and as long as one is left it can step itself - a permit is not needed any more - or waits for
      spawnMu, whose holder can step. */
  lemma ShutdownDrains(s0: State, es: seq<Event>, later: seq<Event>) returns (i: nat, c: Choice)
    requires Init(s0) && Legal(s0, es) && !Exec(s0, es).phase.Running?
    requires Legal(Exec(s0, es), later)
    ensures var s, t := Exec(s0, es), Exec(Exec(s0, es), later);
            |s.actors| <= |t.actors| && forall j :: |s.actors| <= j < |t.actors| ==> !t.actors[j].role.Spawner?
    ensures SpawnSteps(Exec(s0, es), later) <= Total(Exec(s0, es).actors, StepsLeft)
    ensures AllDone(Exec(Exec(s0, es), later).actors, Spawner) || DrainGoesOn(Exec(Exec(s0, es), later), i, c)
  {
    SafeFromStart(s0, es);
    DrainRun(Exec(s0, es), later);
    SafeRun(Exec(s0, es), later);
    NoTaskAdded(Exec(s0, es), later, |Exec(s0, es).actors|);
    var s := Exec(Exec(s0, es), later);
    StepsLeftNonNegative(s);
    i, c := 0, Choice(false, "", 0);
    if !AllDone(s.actors, Spawner) {
      i, c := TaskCanStep(s);
    }
  }

  /** The measure of the drain: a step of a task may leave spawnMu locked, a step of its holder frees it. */
  ghost function DrainLeft(s: State): int {
    2 * Total(s.actors, StepsLeft) + (if s.spawnMu.Held? then 1 else 0)
  }

  lemma DrainProgress(s: State, i: nat, c: Choice)
    requires Safe(s) && s.phase.Draining? && DrainGoesOn(s, i, c)
    ensures Safe(ActStep(s, i, c)) && ActStep(s, i, c).phase.Draining? && DrainLeft(ActStep(s, i, c)) < DrainLeft(s)
  {
    SafeApply(s, Act(i, c));
    BooksStep(s, i, c);
    DrainStep(s, Act(i, c));
    if !s.actors[i].role.Spawner? {
      assert ActorOk(i, s.actors[i], s.hist, s.clock);
      Reserved(s, i, c);
    }
  }

  lemma StepThenRun(s: State, e: Event, rest: seq<Event>)
    requires Enabled(s, e) && Legal(Apply(s, e), rest)
    ensures Legal(s, [e] + rest) && Exec(s, [e] + rest) == Exec(Apply(s, e), rest)
  {
    assert ([e] + rest)[1..] == rest;
  }

  /** Every step of the run is one that the drain can count on, up to the return of Wait. */
  ghost predicate OnlyDrains(s: State, es: seq<Event>)
    requires Legal(s, es)
    decreases |es|
  {
    || es == []
    || es == [JoinTasks]
    || (es[0].Act? && DrainGoesOn(s, es[0].actor, es[0].choice) && OnlyDrains(Apply(s, es[0]), es[1..]))
  }

  /** From wherever a shutdown has got to, the steps of spawn tasks and of the holders of spawnMu lead to the
      return of Wait, without any help of the listener, the reaper or the limiters. */
  lemma {:induction false} WaitReturns(s: State) returns (es: seq<Event>)
    requires Safe(s) && s.phase.Draining?
    ensures Legal(s, es) && Exec(s, es).phase.Joined?
    ensures OnlyDrains(s, es)
    decreases DrainLeft(s)
  {
    StepsLeftNonNegative(s);
    if AllDone(s.actors, Spawner) {
      es := [JoinTasks] + [];
      StepThenRun(s, JoinTasks, []);
    } else {
      var i, c := TaskCanStep(s);
      DrainProgress(s, i, c);
      StepsLeftNonNegative(ActStep(s, i, c));
      var rest := WaitReturns(ActStep(s, i, c));
      es := [Act(i, c)] + rest;
      StepThenRun(s, Act(i, c), rest);
    }
  }

  lemma {:induction false} JoinedForever(s: State, es: seq<Event>)
    requires s.phase.Joined? && Legal(s, es)
    ensures Exec(s, es).phase.Joined?
    decreases |es|
  {
    if es != [] {
      if es[0].Act? { BooksStep(s, es[0].actor, es[0].choice); }
      else if es[0].SweepDispatch? { DispatchShape(s); }
      JoinedForever(Apply(s, es[0]), es[1..]);
    }
  }

  /** When Wait has returned, then from there on, however the run continues: no spawn task is at work; nothing is
      launching, so no termination is deferred to a task that is gone; and what is in flight belongs to
      scaling handlers. */
  lemma ShutdownJoins(s0: State, es: seq<Event>, later: seq<Event>)
    requires Init(s0) && Legal(s0, es) && Exec(s0, es).phase.Joined? && Legal(Exec(s0, es), later)
    ensures var s := Exec(Exec(s0, es), later);
            && s.phase.Joined? && AllDone(s.actors, Spawner)
            && (forall n :: n in s.tracker ==> !s.tracker[n].state.Launching?)
            && s.inflight == Total(s.actors, Reservations)
            && (forall j :: 0 <= j < |s.actors| && Reservations(s.actors[j]) != 0 ==> s.actors[j].role.Scaler?)
  {
    SafeFromStart(s0, es);
    SafeRun(Exec(s0, es), later);
    JoinedForever(Exec(s0, es), later);
    var s := Exec(Exec(s0, es), later);
    forall n | n in s.tracker ensures !s.tracker[n].state.Launching? {
      assert NameOk(s, n);
    }
    forall j | 0 <= j < |s.actors| && Reservations(s.actors[j]) != 0 ensures s.actors[j].role.Scaler? {
      assert ActorOk(j, s.actors[j], s.hist, s.clock);
    }
  }
}
