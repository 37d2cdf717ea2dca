/** Work comes to an end: whatever the schedule and whatever calls return, the program's own steps use up a
    measure, so left to itself every class finishes what it is doing. */
module Rest {
  import opened Tracking
  import opened Lifecycle
  import opened LifecycleInvariant
  import opened LifecycleAccounts
  import opened Capacity
  import opened Obligations
  import opened Sums
  import opened Guarantees
  import opened RunnerLives
  import opened Fleet

  // ----- the measure of one actor -----

  /** What one record in a snapshot, or one orphan, can cost: handing it out, and its worker. */
  const ITEM := 11

  /** What one reservation can cost: starting its spawn task, what that does, and its record. */
  const TASK := 30 + ITEM

  /** The record of this spawn task is still to be added. */
  predicate BeforeRecord(pc: Pc) {
    pc.Prep? || (pc.Mint? && !pc.mint.PreDeregister? && !pc.mint.PreDeregistering?)
  }

  function Left(a: Actor): int {
    match a.pc
    case Scale(Reserve) => a.target * TASK + 2
    case Scale(Reserving) => a.target * TASK + 1
    case Scale(Starting) => a.left * TASK
    case Scale(Refunding) => a.left * TASK - 1
    case _ => StepsFrom(a.pc) + (if BeforeRecord(a.pc) then ITEM else 0)
  }

  function RecordCost(pc: Pc): int {
    if pc == Mint(AddWait) then ITEM else 0
  }

  /** A step uses up some of it, also when it adds a record that a sweep may have to deal with. */
  lemma LeftFalls(a: Actor, a': Actor)
    requires Steps(a, a') && !a.pc.Scale?
    ensures 0 <= Left(a') && Left(a') + RecordCost(a.pc) < Left(a)
  {}

  lemma ScaleFalls(s: State, i: nat)
    requires i < |s.actors| && s.actors[i].pc.Scale? && s.inflight >= 0
    requires ActorOk(i, s.actors[i], s.hist, s.clock)
    ensures i < |ActScale(s, i).actors|
    ensures Left(ActScale(s, i).actors[i]) + (if Started(s, i) == [] then 0 else Left(NewSpawner())) < Left(s.actors[i])
  {
    var a := s.actors[i];
    if a.pc == Scale(Reserving) {
      var up := ScaleUp(a.target, a.size, s.inflight);
      assert up <= a.target;
    }
  }

  lemma LeftNonNegative(s: State)
    requires Safe(s)
    ensures Total(s.actors, Left) >= 0
  {
    forall i | 0 <= i < |s.actors| ensures Left(s.actors[i]) >= 0 {
      assert ActorOk(i, s.actors[i], s.hist, s.clock);
    }
    TotalNonNegative(s.actors, Left);
  }

  // ----- the measure of one class -----

  /** What the sweep under way can still cost. */
  function SweepLeft(reaper: Reaper, tracked: nat, hosted: nat): int {
    match reaper
    case Asleep => 0
    case Woken(_) => 7 + ITEM * tracked + ITEM * hosted
    case Handing(queue, _) => 6 + ITEM * |queue| + ITEM * hosted
    case HandedJoin => 5 + ITEM * hosted
    case Listing => 4 + ITEM * hosted
    case Listed(listing) => 3 + ITEM * |listing|
    case Sweeping(orphans) => 2 + ITEM * |orphans|
    case SweptJoin => 1
  }

  function ToDo(s: State): int {
    Total(s.actors, Left) + SweepLeft(s.reaper, |s.tracker|, |s.remote|) + (if s.phase.Draining? then 1 else 0)
  }

  lemma ToDoNonNegative(s: State)
    requires Safe(s)
    ensures ToDo(s) >= 0
  {
    LeftNonNegative(s);
  }

  /** Distinct elements of a set are not more than the set has. */
  lemma {:induction false} DistinctFit(xs: seq<Name>, all: set<Name>)
    requires forall k :: 0 <= k < |xs| ==> xs[k] in all
    requires forall k, l :: 0 <= k < l < |xs| ==> xs[k] != xs[l]
    ensures |xs| <= |all|
  {
    if xs != [] {
      var k := |xs| - 1;
      DistinctFit(xs[..k], all - {xs[k]});
    }
  }

  lemma SnapshotSize(t: Registry, order: seq<Record>)
    requires IsSnapshot(t, order)
    ensures |order| <= |t|
  {
    var names := seq(|order|, k requires 0 <= k < |order| => order[k].name);
    DistinctFit(names, t.Keys);
    assert |t| == |t.Keys|;
  }

  lemma {:induction false} OrphansFewer(listing: seq<Name>, known: set<Name>)
    ensures |Orphans(listing, known)| <= |listing|
  {
    if listing != [] {
      OrphansFewer(listing[1..], known);
    }
  }

  // ----- every step of the program uses some of it up -----

  lemma EffectAddsNothing(t: Registry, a: Actor, now: int)
    requires a.pc != Mint(AddWait)
    ensures Effect(t, a, now).Keys <= t.Keys
  {}

  lemma SizesOfAct(s: State, i: nat, c: Choice)
    requires CanAct(s, i, c)
    ensures |ActStep(s, i, c).tracker| <= |s.tracker| + (if s.actors[i].pc == Mint(AddWait) then 1 else 0)
    ensures |ActStep(s, i, c).remote| <= |s.remote|
  {
    var s', n := ActStep(s, i, c), s.actors[i].name;
    RegistryStep(s, i, c);
    RemoteOfAct(s, i, c);
    assert |s.tracker| == |s.tracker.Keys| && |s'.tracker| == |s'.tracker.Keys|;
    if s.actors[i].pc == Mint(AddWait) {
      SubsetSize(s'.tracker.Keys, s.tracker.Keys + {n});
    } else {
      EffectAddsNothing(s.tracker, s.actors[i], s.clock);
      SubsetSize(s'.tracker.Keys, s.tracker.Keys);
    }
    SubsetSize(s'.remote, s.remote);
  }

  lemma ActorsFall(s: State, i: nat, c: Choice)
    requires Safe(s) && CanAct(s, i, c)
    ensures Total(ActStep(s, i, c).actors, Left) + RecordCost(s.actors[i].pc) < Total(s.actors, Left)
  {
    assert ActorOk(i, s.actors[i], s.hist, s.clock);
    TotalStep(s, i, c, Left);
    if s.actors[i].pc.Scale? {
      ReservationsCount(s);
      ScaleFalls(s, i);
    } else {
      EdgeTaken(s, i, c);
      LeftFalls(s.actors[i], ActStep(s, i, c).actors[i]);
    }
  }

  /** A record more can make the sweep under way longer by one item, and nothing else can. */
  lemma SweepGrows(reaper: Reaper, tracked: nat, hosted: nat, tracked': nat, hosted': nat, pc: Pc)
    requires tracked' <= tracked + (if pc == Mint(AddWait) then 1 else 0) && hosted' <= hosted
    ensures SweepLeft(reaper, tracked', hosted') <= SweepLeft(reaper, tracked, hosted) + RecordCost(pc)
  {}

  lemma ActFalls(s: State, i: nat, c: Choice)
    requires Safe(s) && CanAct(s, i, c)
    ensures ToDo(ActStep(s, i, c)) < ToDo(s)
  {
    var s' := ActStep(s, i, c);
    ActorsFall(s, i, c);
    SizesOfAct(s, i, c);
    ReaperOfAct(s, i, c);
    BooksStep(s, i, c);
    SweepGrows(s.reaper, |s.tracker|, |s.remote|, |s'.tracker|, |s'.remote|, s.actors[i].pc);
  }

  lemma DispatchFalls(s: State)
    requires Enabled(s, SweepDispatch)
    ensures ToDo(Dispatch(s)) < ToDo(s)
  {
    DispatchShape(s);
    TotalAppend(s.actors, Dispatch(s).actors[|s.actors|], Left);
  }

  lemma ReaperFalls(s: State, e: Event)
    requires Enabled(s, e) && Internal(e) && !e.Act? && !e.SweepDispatch?
    ensures ToDo(Apply(s, e)) < ToDo(s)
  {
    match e
    case SweepSnapshot(order) => SnapshotSize(s.tracker, order);
    case ListReturn(ok, listing) => if ok { DistinctFit(listing, s.remote); }
    case ReadNames => OrphansFewer(s.reaper.listing, s.tracker.Keys);
    case _ =>
  }

  lemma InternalFalls(s: State, e: Event)
    requires Safe(s) && Enabled(s, e) && Internal(e)
    ensures ToDo(Apply(s, e)) < ToDo(s)
  {
    match e
    case Act(i, c) => ActFalls(s, i, c);
    case SweepDispatch => DispatchFalls(s);
    case _ => ReaperFalls(s, e);
  }

  // ----- all classes -----

  function FleetToDo(f: FleetState): int {
    Total(f.classes, ToDo)
  }

  lemma FleetFalls(f: FleetState, k: nat, e: Event)
    requires FleetOk(f) && FleetEnabled(f, k, e) && Internal(e)
    ensures FleetToDo(FleetApply(f, k, e)) < FleetToDo(f)
  {
    InternalFalls(f.classes[k], e);
    TotalUpdate(f.classes, k, Apply(f.classes[k], e), ToDo);
  }

  lemma FleetToDoNonNegative(f: FleetState)
    requires FleetOk(f)
    ensures FleetToDo(f) >= 0
  {
    forall k | 0 <= k < |f.classes| ensures ToDo(f.classes[k]) >= 0 {
      ToDoNonNegative(f.classes[k]);
    }
    TotalNonNegative(f.classes, ToDo);
  }

  predicate AllInternal(es: seq<(nat, Event)>) {
    forall j :: 0 <= j < |es| ==> Internal(es[j].1)
  }

  /** Left to itself the program makes no more steps than its measure allows. */
  lemma {:induction false} InternalRunsEnd(f: FleetState, es: seq<(nat, Event)>)
    requires FleetOk(f) && FleetLegal(f, es) && AllInternal(es)
    ensures FleetOk(FleetExec(f, es)) && |es| + FleetToDo(FleetExec(f, es)) <= FleetToDo(f)
    decreases |es|
  {
    if es != [] {
      FleetFalls(f, es[0].0, es[0].1);
      FleetApplyKeeps(f, es[0].0, es[0].1);
      InternalRunsEnd(FleetApply(f, es[0].0, es[0].1), es[1..]);
    }
  }

  /** No class has anything left to do. */
  ghost predicate AtRest(f: FleetState) {
    forall b :: 0 <= b < |f.classes| ==> !HasWork(f.classes[b])
  }

  /** Take any reachable state of all classes, and let only the program go on: in any order, and with any outcome
      of its calls. It makes at most FleetToDo steps; and when it cannot make another one, it is because every
      class is at rest: no actor at work, no sweep under way, no shutdown that has not joined. */
  lemma EveryScheduleRests(f0: FleetState, before: seq<(nat, Event)>, es: seq<(nat, Event)>)
    requires FleetInit(f0) && FleetLegal(f0, before)
    requires FleetLegal(FleetExec(f0, before), es) && AllInternal(es)
    ensures |es| <= FleetToDo(FleetExec(f0, before))
    ensures var f := FleetExec(FleetExec(f0, before), es);
            (forall k, e :: FleetEnabled(f, k, e) ==> !Internal(e)) ==> AtRest(f)
  {
    FleetStarts(f0);
    PermitsConserved(f0, before);
    InternalRunsEnd(FleetExec(f0, before), es);
    var f := FleetExec(FleetExec(f0, before), es);
    FleetToDoNonNegative(f);
    if !AtRest(f) {
      var b :| 0 <= b < |f.classes| && HasWork(f.classes[b]);
      var k, e := DeadlockFree(f);
    }
  }

  /** One step of the program, while work is left. */
  lemma WorkStep(f: FleetState) returns (k: nat, e: Event)
    requires FleetOk(f) && !AtRest(f)
    ensures FleetEnabled(f, k, e) && Internal(e)
    ensures FleetOk(FleetApply(f, k, e)) && 0 <= FleetToDo(FleetApply(f, k, e)) < FleetToDo(f)
  {
    var b: nat :| b < |f.classes| && HasWork(f.classes[b]);
    k, e := DeadlockFree(f);
    FleetFalls(f, k, e);
    FleetApplyKeeps(f, k, e);
    FleetToDoNonNegative(FleetApply(f, k, e));
  }

  /** So there is a schedule that brings all classes to rest. */
  lemma {:induction false} ComesToRest(f: FleetState) returns (es: seq<(nat, Event)>)
    requires FleetOk(f)
    ensures FleetLegal(f, es) && AllInternal(es) && AtRest(FleetExec(f, es))
    decreases FleetToDo(f)
  {
    es := [];
    if !AtRest(f) {
      var k, e := WorkStep(f);
      var rest := ComesToRest(FleetApply(f, k, e));
      es := [(k, e)] + rest;
      FleetStepThenRun(f, k, e, rest);
    }
  }
}
