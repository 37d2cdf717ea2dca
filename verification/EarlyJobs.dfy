/** What a job-started event can do that arrives too early. The guarantee about launches and the order of the
    two time stamps of a record each need their proviso, and no more than that. */
module EarlyJobs {
  import opened Tracking
  import opened Lifecycle
  import opened LifecycleAccounts
  import opened LifecycleInvariant
  import opened Obligations
  import opened Guarantees
  import opened RunnerLives
  import opened Schedules

  // ----- a job overtakes the launch -----

  /** A teardown of n is under way while its Launch call, made by task i, is in flight. */
  ghost predicate TornDownInFlight(s: State, i: nat, n: Name) {
    i < |s.actors| && LaunchInFlight(s.actors[i], n) && exists j :: 0 <= j < |s.actors| && TearsDown(s.actors[j], n)
  }

  /** The job starts, which makes the launching runner busy, and completes. */
  lemma Overtaken(s: State, i: nat, n: Name) returns (later: seq<Event>)
    requires i < |s.actors| && LaunchInFlight(s.actors[i], n) && n in s.tracker && n != ""
    ensures Legal(s, later) && TornDownInFlight(Exec(s, later), i, n)
  {
    later := JobStarts(s, n);
    var rest := JobCompletes(Exec(s, later), n);
    later := Followed(s, later, rest);
    var t := Exec(s, later);
    assert t.actors[i] == s.actors[i] && TearsDown(t.actors[|s.actors| + 1], n);
  }

  /** The proviso is exact. Take any reachable state with the launch of n in flight and no early start of a
      job of n. However the run goes on, n is torn down during the call only if a job of n started early;
      and an early start is enough, for there is a run in which its completion does tear n down. */
  lemma ProvisoExact(s0: State, es: seq<Event>, i: nat, n: Name) returns (later: seq<Event>)
    requires Init(s0) && Legal(s0, es) && i < |Exec(s0, es).actors|
    requires LaunchInFlight(Exec(s0, es).actors[i], n) && n !in Exec(s0, es).hist.early
    ensures forall fs :: Legal(Exec(s0, es), fs) && TornDownInFlight(Exec(Exec(s0, es), fs), i, n) ==>
      n in Exec(Exec(s0, es), fs).hist.early
    ensures Legal(Exec(s0, es), later) && TornDownInFlight(Exec(Exec(s0, es), later), i, n)
  {
    var s := Exec(s0, es);
    SafeFromStart(s0, es);
    assert NameOk(s, n) && ActorOk(i, s.actors[i], s.hist, s.clock);
    later := Overtaken(s, i, n);
    forall fs | Legal(s, fs) && TornDownInFlight(Exec(s, fs), i, n) ensures n in Exec(s, fs).hist.early {
      var j :| 0 <= j < |Exec(s, fs).actors| && TearsDown(Exec(s, fs).actors[j], n);
      RunOn(s0, es, fs);
      NoTeardownDuringLaunch(s0, es + fs, i, j, n);
    }
  }

  /** Such states exist: for every configuration and every fresh name a run in which the runner of that name
      is torn down while its Launch call is in flight. */
  lemma EarlyJobTearsDownLaunch(s: State, n: Name) returns (es: seq<Event>)
    requires Init(s) && s.cfg.maxRunners >= 1 && n !in s.remote && n != ""
    ensures Legal(s, es) && TornDownInFlight(Exec(s, es), 1, n)
  {
    es := LaunchUnderWay(s, n);
    var rest := Overtaken(Exec(s, es), 1, n);
    es := Followed(s, es, rest);
  }

  // ----- a job overtakes the record -----

  /** The record says that its job started before the runner was minted. */
  predicate Backdated(s: State, n: Name) {
    n in s.tracker && s.tracker[n].busyAt.Some? && s.tracker[n].busyAt.value < s.tracker[n].mintedAt
  }

  /** Whether a name is premature is settled once its runner is stamped. */
  lemma PrematureSettled(s: State, e: Event, n: Name)
    requires Enabled(s, e) && n in s.hist.stamped
    ensures n in Apply(s, e).hist.stamped
    ensures n in Apply(s, e).hist.premature <==> n in s.hist.premature
  {
    if e.Act? {
      BooksStep(s, e.actor, e.choice);
    } else if Arrival(e) {
      Arrived(s, e);
    } else if e.SweepDispatch? {
      DispatchAppends(s);
    }
  }

  lemma {:induction false} NeverBackdated(s: State, es: seq<Event>, n: Name)
    requires Safe(s) && Legal(s, es) && n in s.hist.stamped && n !in s.hist.premature
    ensures !Backdated(Exec(s, es), n)
    decreases |es|
  {
    if es == [] {
      assert NameOk(s, n);
    } else {
      SafeApply(s, es[0]);
      PrematureSettled(s, es[0], n);
      NeverBackdated(Apply(s, es[0]), es[1..], n);
    }
  }

  /** If spawnMu is held, its holder's next step frees it and does nothing else that matters here. */
  lemma LockFrees(s: State, i: nat) returns (es: seq<Event>)
    requires Safe(s) && i < |s.actors| && s.actors[i].pc == Mint(AddWait)
    ensures Legal(s, es)
    ensures var t := Exec(s, es);
            && t.spawnMu.Free? && t.clock == s.clock && |t.actors| == |s.actors|
            && forall j :: 0 <= j < |s.actors| && (j == i || s.actors[j].role.Starter?) ==> t.actors[j] == s.actors[j]
  {
    es := [];
    if s.spawnMu.Held? {
      assert ActorOk(s.spawnMu.holder, s.actors[s.spawnMu.holder], s.hist, s.clock);
      es := Then(s, [], Act(s.spawnMu.holder, YES));
    }
  }

  lemma StarterMarks(s: State, k: nat) returns (es: seq<Event>)
    requires k < |s.actors| && s.actors[k].pc == Handle(MarkBusy)
    ensures Legal(s, es) && Exec(s, es).tracker == WithBusy(s.tracker, s.actors[k].name, s.actors[k].at)
  {
    es := Then(s, [], Act(k, YES));
  }

  /** The event arrives, time passes, the runner is stamped. */
  lemma StampedLate(s: State, i: nat) returns (es: seq<Event>)
    requires i < |s.actors| && s.actors[i].pc == Mint(Rendering) && s.actors[i].name != ""
    ensures Legal(s, es)
    ensures var t, a, k := Exec(s, es), s.actors[i], |s.actors|;
            && |t.actors| == k + 1 && t.actors[k] == NewStarter(a.name, s.clock)
            && t.actors[i] == a.(pc := Mint(AddWait), at := s.clock + 1)
  {
    es := Then(s, [], JobStarted(s.actors[i].name));
    es := Then(s, es, Tick(s.clock + 1));
    var rest := TaskStamps(Exec(s, es), i);
    es := Followed(s, es, rest);
  }

  /** The record is added, and only then the handler marks it. */
  lemma MarkedLate(s: State, i: nat, k: nat) returns (es: seq<Event>)
    requires Safe(s) && i < |s.actors| && k < |s.actors| && s.actors[i].pc == Mint(AddWait)
    requires s.actors[k].role.Starter? && s.actors[k].pc == Handle(MarkBusy)
    requires s.actors[k].name == s.actors[i].name && s.actors[k].at < s.actors[i].at
    ensures Legal(s, es) && Backdated(Exec(s, es), s.actors[i].name)
  {
    es := LockFrees(s, i);
    var more := TaskAdds(Exec(s, es), i);
    es := Followed(s, es, more);
    more := StarterMarks(Exec(s, es), k);
    es := Followed(s, es, more);
  }

  /** When BusyAt can come before MintedAt, exactly. Take any reachable state in which runner n has been minted
      and not been stamped. However the run goes on, its record is backdated only if a job-started event for
      n arrived before the stamp - not if it arrives later, during the launch, say; and such an event is
      enough, for there is a run in which it backdates the record. */
  lemma BackdatedExactly(s0: State, es: seq<Event>, i: nat, n: Name) returns (later: seq<Event>)
    requires Init(s0) && Legal(s0, es) && i < |Exec(s0, es).actors|
    requires Exec(s0, es).actors[i].pc == Mint(Rendering) && Exec(s0, es).actors[i].name == n
    ensures forall fs :: Legal(Exec(s0, es), fs) && Backdated(Exec(Exec(s0, es), fs), n) ==>
      n in Exec(Exec(s0, es), fs).hist.premature
    ensures Legal(Exec(s0, es), later) && Backdated(Exec(Exec(s0, es), later), n)
  {
    var s := Exec(s0, es);
    SafeFromStart(s0, es);
    assert ActorOk(i, s.actors[i], s.hist, s.clock) && NameOk(s, n);
    later := StampedLate(s, i);
    SafeRun(s, later);
    var rest := MarkedLate(Exec(s, later), i, |s.actors|);
    later := Followed(s, later, rest);
    forall fs | Legal(s, fs) && Backdated(Exec(s, fs), n) ensures n in Exec(s, fs).hist.premature {
      SafeRun(s, fs);
      assert NameOk(Exec(s, fs), n);
    }
  }

  /** Once the runner is stamped it is too late: without an event before the stamp no continuation of any
      reachable state backdates its record. */
  lemma StampedInTime(s0: State, es: seq<Event>, later: seq<Event>, n: Name)
    requires Init(s0) && Legal(s0, es) && Legal(Exec(s0, es), later)
    requires n in Exec(s0, es).hist.stamped && n !in Exec(s0, es).hist.premature
    ensures !Backdated(Exec(Exec(s0, es), later), n)
  {
    SafeFromStart(s0, es);
    NeverBackdated(Exec(s0, es), later, n);
  }

  /** Such states exist for every configuration and every fresh name. */
  lemma EarlyJobBackdates(s: State, n: Name) returns (es: seq<Event>)
    requires Init(s) && s.cfg.maxRunners >= 1 && n !in s.remote && n != ""
    ensures Legal(s, es) && Backdated(Exec(s, es), n)
  {
    es := OneWanted(s);
    var more := TaskNames(Exec(s, es), 1, n);
    es := Followed(s, es, more);
    more := TaskMints(Exec(s, es), 1, 7);
    es := Followed(s, es, more);
    more := BackdatedExactly(s, es, 1, n);
    es := Followed(s, es, more);
  }
}
