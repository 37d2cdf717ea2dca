/** What comes before what, over whole runs. */
module Orders {
  import opened Tracking
  import opened Lifecycle
  import opened LifecycleInvariant
  import opened LifecycleAccounts
  import opened Obligations
  import opened Guarantees
  import opened Schedules

  // ----- a request that comes before the launch -----

  /** The Launch call of this spawn task has not been made yet. */
  predicate Precedes(pc: Pc) {
    pc == Ahead(Added) || pc == Ahead(DropMint) || pc == Ahead(LaunchWait) || pc == Ahead(PreCheck)
  }

  /** The spawn task's part of it. */
  predicate TaskWaits(a: Actor, n: Name, pending: bool) {
    a.role.Spawner? && a.name == n && ((Precedes(a.pc) && pending) || After(a.pc) || a.pc.Done?)
  }

  /** Task i will find the request in time, or has found it, or a job of n started early. */
  ghost predicate Forestalled(s: State, i: nat, n: Name) {
    n in s.hist.early
    || (i < |s.actors| && n in s.hist.born && TaskWaits(s.actors[i], n, PendingIn(s.tracker, n)))
  }

  /** As long as its launch lies ahead, and no job of it started, a runner stays tracked. */
  lemma StaysTracked(s: State, i: nat, n: Name)
    requires Core(s) && i < |s.actors| && s.actors[i].role.Spawner? && s.actors[i].pc.Ahead? && s.actors[i].name == n
    requires n !in s.hist.early
    ensures n in s.tracker
  {
    assert ActorOk(i, s.actors[i], s.hist, s.clock) && NameOk(s, n);
  }

  lemma RequestKept(t: Registry, a: Actor, now: int, n: Name)
    requires PendingIn(t, n) && n in Effect(t, a, now) && (a.pc == Mint(AddWait) ==> a.name != n)
    ensures PendingIn(Effect(t, a, now), n)
  {}

  /** A record that is launching stays tracked, and flagged if it was. */
  lemma RequestStays(s: State, j: nat, c: Choice, i: nat, n: Name)
    requires CanAct(s, j, c) && Core(s) && Core(ActStep(s, j, c)) && PendingIn(s.tracker, n) && n in s.hist.born
    requires var s' := ActStep(s, j, c);
             i < |s'.actors| && Precedes(s'.actors[i].pc) && s'.actors[i].role.Spawner? && s'.actors[i].name == n
             && n !in s'.hist.early
    ensures PendingIn(ActStep(s, j, c).tracker, n)
  {
    RegistryStep(s, j, c);
    assert ActorOk(j, s.actors[j], s.hist, s.clock);
    StaysTracked(ActStep(s, j, c), i, n);
    RequestKept(s.tracker, s.actors[j], s.clock, n);
  }

  /** What a step of task i itself does: it finds the request, or is not there yet. */
  lemma FindsRequest(s: State, i: nat, c: Choice)
    requires CanAct(s, i, c) && s.actors[i].pc == Ahead(PreCheck) && PendingIn(s.tracker, s.actors[i].name)
    ensures ActAhead(s, i, c).actors[i].pc == Verdict(AbortRemove)
  {}

  lemma PlaceKept(a: Actor, a': Actor)
    requires Steps(a, a') && (Precedes(a.pc) || After(a.pc))
    requires a.pc == Ahead(PreCheck) ==> a'.pc == Verdict(AbortRemove)
    ensures a'.role == a.role && a'.name == a.name && (Precedes(a'.pc) || After(a'.pc) || a'.pc.Done?)
    ensures After(a.pc) ==> !Precedes(a'.pc)
  {}

  lemma TaskMoves(s: State, j: nat, c: Choice, i: nat, n: Name)
    requires CanAct(s, j, c) && i < |s.actors| && TaskWaits(s.actors[i], n, PendingIn(s.tracker, n))
    ensures var s' := ActStep(s, j, c); i < |s'.actors| && TaskWaits(s'.actors[i], n, true)
    ensures Precedes(ActStep(s, j, c).actors[i].pc) ==> PendingIn(s.tracker, n)
  {
    ActShape(s, j, c);
    if i == j {
      EdgeTaken(s, j, c);
      if s.actors[i].pc == Ahead(PreCheck) { FindsRequest(s, i, c); }
      PlaceKept(s.actors[i], ActStep(s, j, c).actors[i]);
    }
  }

  lemma ForestalledAct(s: State, j: nat, c: Choice, i: nat, n: Name)
    requires Safe(s) && CanAct(s, j, c) && Forestalled(s, i, n)
    ensures Forestalled(ActStep(s, j, c), i, n)
  {
    BooksStep(s, j, c);
    if n !in s.hist.early {
      TaskMoves(s, j, c, i, n);
      SafeApply(s, Act(j, c));
      if Precedes(ActStep(s, j, c).actors[i].pc) { RequestStays(s, j, c, i, n); }
    }
  }

  lemma ForestalledApply(s: State, e: Event, i: nat, n: Name)
    requires Safe(s) && Enabled(s, e) && Forestalled(s, i, n)
    ensures Forestalled(Apply(s, e), i, n)
  {
    if e.Act? {
      ForestalledAct(s, e.actor, e.choice, i, n);
    } else if Arrival(e) {
      Arrived(s, e);
    } else if e.SweepDispatch? {
      DispatchShape(s);
    }
  }

  lemma {:induction false} ForestalledRun(s: State, es: seq<Event>, i: nat, n: Name)
    requires Safe(s) && Legal(s, es) && Forestalled(s, i, n)
    ensures Forestalled(Exec(s, es), i, n)
    decreases |es|
  {
    if es != [] {
      SafeApply(s, es[0]);
      ForestalledApply(s, es[0], i, n);
      ForestalledRun(Apply(s, es[0]), es[1..], i, n);
    }
  }

  /** A termination requested before the Launch call prevents it: however the run goes on, a spawn task whose record
      was flagged up to its check never calls Launch, unless a job of its runner started early. */
  lemma RequestForestallsLaunch(s0: State, es: seq<Event>, i: nat, n: Name, later: seq<Event>)
    requires Init(s0) && Legal(s0, es) && i < |Exec(s0, es).actors| && Exec(s0, es).actors[i].role.Spawner?
    requires Exec(s0, es).actors[i].name == n && Precedes(Exec(s0, es).actors[i].pc)
    requires PendingIn(Exec(s0, es).tracker, n) && Legal(Exec(s0, es), later)
    ensures var t := Exec(Exec(s0, es), later);
            n !in t.hist.early ==>
              i < |t.actors| && t.actors[i].pc != Ahead(LaunchCall) && t.actors[i].pc != Ahead(LaunchFlight)
  {
    SafeFromStart(s0, es);
    var s := Exec(s0, es);
    assert ActorOk(i, s.actors[i], s.hist, s.clock);
    ForestalledRun(s, later, i, n);
  }

  lemma ReachesCheck(s: State, i: nat) returns (es: seq<Event>)
    requires i < |s.actors| && Precedes(s.actors[i].pc)
    ensures Legal(s, es)
    ensures var t := Exec(s, es);
            |t.actors| == |s.actors| && t.actors[i] == s.actors[i].(pc := Ahead(PreCheck)) && t.tracker == s.tracker
  {
    es := [];
    if s.actors[i].pc == Ahead(Added) {
      es := Then(s, es, Act(i, YES));
    }
    if Exec(s, es).actors[i].pc == Ahead(DropMint) {
      es := Then(s, es, Act(i, YES));
    }
    if Exec(s, es).actors[i].pc == Ahead(LaunchWait) {
      es := Then(s, es, Act(i, YES));
    }
  }

  /** The proviso is needed, in every such state: a job that starts early and completes takes the record away, and the
      request with it, and that spawn task goes on to call Launch. */
  lemma EarlyJobUndoesRequest(s: State, i: nat, n: Name) returns (es: seq<Event>)
    requires i < |s.actors| && Precedes(s.actors[i].pc) && s.actors[i].name == n && n != "" && PendingIn(s.tracker, n)
    ensures Legal(s, es) && i < |Exec(s, es).actors| && Exec(s, es).actors[i].pc == Ahead(LaunchFlight)
  {
    es := JobStarts(s, n);
    var more := JobCompletes(Exec(s, es), n);
    es := Followed(s, es, more);
    assert Exec(s, es).actors[i] == s.actors[i];
    more := ReachesCheck(Exec(s, es), i);
    es := Followed(s, es, more);
    more := TaskCalls(Exec(s, es), i);
    es := Followed(s, es, more);
  }

  // ----- a Delete comes after its Stop -----

  /** At event k of the run the Stop call that actor j made for runner n returns. */
  ghost predicate StopReturns(s0: State, es: seq<Event>, k: nat, j: nat, n: Name) {
    && k < |es| && Legal(s0, es[..k]) && es[k].Act? && es[k].actor == j && j < |Exec(s0, es[..k]).actors|
    && Exec(s0, es[..k]).actors[j].pc == Term(Stopping) && Exec(s0, es[..k]).actors[j].name == n
  }

  predicate Deletes(pc: Pc) {
    pc == Term(DeleteCall) || pc == Term(Deleting)
  }

  lemma DeletesAlongEdge(a: Actor, a': Actor)
    requires Steps(a, a') && Deletes(a'.pc)
    ensures a'.name == a.name && (Deletes(a.pc) || a.pc == Term(Stopping))
  {}

  lemma DeletesAfterAct(s: State, i: nat, c: Choice, j: nat)
    requires CanAct(s, i, c) && j < |ActStep(s, i, c).actors| && Deletes(ActStep(s, i, c).actors[j].pc)
    ensures j < |s.actors| && s.actors[j].name == ActStep(s, i, c).actors[j].name
    ensures Deletes(s.actors[j].pc) || (s.actors[j].pc == Term(Stopping) && i == j)
  {
    ActShape(s, i, c);
    if i == j {
      EdgeTaken(s, i, c);
      DeletesAlongEdge(s.actors[i], ActStep(s, i, c).actors[i]);
    }
  }

  lemma DeletesAfter(s: State, e: Event, j: nat)
    requires Enabled(s, e) && j < |Apply(s, e).actors| && Deletes(Apply(s, e).actors[j].pc)
    ensures j < |s.actors| && s.actors[j].name == Apply(s, e).actors[j].name
    ensures Deletes(s.actors[j].pc) || (s.actors[j].pc == Term(Stopping) && e.Act? && e.actor == j)
  {
    if e.Act? {
      DeletesAfterAct(s, e.actor, e.choice, j);
    } else if Arrival(e) {
      Arrived(s, e);
    } else if e.SweepDispatch? {
      DispatchShape(s);
    }
  }

  /** Nobody calls Delete on an instance before a Stop call of its own for that instance has returned. */
  lemma {:induction false} StopBeforeDelete(s0: State, es: seq<Event>, j: nat) returns (k: nat)
    requires Init(s0) && Legal(s0, es) && j < |Exec(s0, es).actors| && Deletes(Exec(s0, es).actors[j].pc)
    ensures StopReturns(s0, es, k, j, Exec(s0, es).actors[j].name)
    decreases |es|
  {
    k := 0;
    if es != [] {
      var front, e := LastStep(s0, es);
      DeletesAfter(Exec(s0, front), e, j);
      if Deletes(Exec(s0, front).actors[j].pc) {
        k := StopBeforeDelete(s0, front, j);
        assert es[..k] == front[..k] && es[k] == front[k];
      } else {
        k := |front|;
        assert es[..k] == front;
      }
    }
  }

  // ----- nothing is given up before the shutdown -----

  predicate GivesUp(pc: Pc) {
    pc == Verdict(QuitRemove) || pc.Quit? || pc == Scale(Refunding)
  }

  /** No actor has given anything up, unless the shutdown has begun. */
  ghost predicate NoneGivesUp(s: State) {
    s.phase.Running? ==> forall j :: 0 <= j < |s.actors| ==> !GivesUp(s.actors[j].pc)
  }

  lemma ScaleGoesOn(s: State, i: nat)
    requires i < |s.actors| && s.actors[i].pc.Scale? && s.phase.Running? && !GivesUp(s.actors[i].pc)
    ensures var s' := ActScale(s, i); i < |s'.actors| && !GivesUp(s'.actors[i].pc)
  {}

  lemma GoesOn(s: State, i: nat, c: Choice)
    requires CanAct(s, i, c) && s.phase.Running? && !GivesUp(s.actors[i].pc)
    ensures var s' := ActStep(s, i, c); i < |s'.actors| && !GivesUp(s'.actors[i].pc)
  {
    EdgeTaken(s, i, c);
    if s.actors[i].pc.Scale? { ScaleGoesOn(s, i); }
  }

  lemma NoneGivesUpApply(s: State, e: Event)
    requires NoneGivesUp(s) && Enabled(s, e)
    ensures NoneGivesUp(Apply(s, e))
  {
    if e.Act? {
      ActShape(s, e.actor, e.choice);
      BooksStep(s, e.actor, e.choice);
      if s.phase.Running? { GoesOn(s, e.actor, e.choice); }
    } else if Arrival(e) {
      Arrived(s, e);
    } else if e.SweepDispatch? {
      DispatchShape(s);
    }
  }

  /** As long as no shutdown has begun no spawn task gives its runner up for want of a permit, and no handler is
      refused a task. */
  lemma {:induction false} NobodyGivesUpEarly(s0: State, es: seq<Event>)
    requires Init(s0) && Legal(s0, es)
    ensures NoneGivesUp(Exec(s0, es))
    decreases |es|
  {
    if es != [] {
      var front, e := LastStep(s0, es);
      NobodyGivesUpEarly(s0, front);
      NoneGivesUpApply(Exec(s0, front), e);
    }
  }
}
