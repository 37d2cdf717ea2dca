/** A whole sweep: from every state at rest it can be carried out, timeouts and drift, and it ends with a host on which
    everything left is tracked. */
module LiveSweep {
  import opened Tracking
  import opened Lifecycle
  import opened LifecycleInvariant
  import opened LifecycleAccounts
  import opened Guarantees
  import opened Rest
  import opened Schedules
  import opened SweepSpec
  import P = ParallelSweep
  import D = ParallelDrift

  // ----- what a snapshot and a listing may be -----

  lemma SnapshotExists(t: Registry) returns (order: seq<Record>)
    requires Named(t)
    ensures IsSnapshot(t, order)
    decreases |t|
  {
    order := [];
    if t != map[] {
      var n :| n in t;
      var rest := t - {n};
      assert |rest.Keys| == |t.Keys - {n}| && rest.Keys == t.Keys - {n};
      assert |t| == |t.Keys| && |rest| == |rest.Keys|;
      var front := SnapshotExists(rest);
      order := front + [t[n]];
      forall m | m in t ensures t[m] in order {
        assert m != n ==> rest[m] in front;
      }
    }
  }

  lemma ListingExists(remote: set<Name>) returns (listing: seq<Name>)
    ensures IsListing(remote, listing)
    decreases remote
  {
    listing := [];
    if remote != {} {
      var n :| n in remote;
      listing := ListingExists(remote - {n});
      listing := listing + [n];
    }
  }

  // ----- handing out and finishing -----

  /** Only workers and sweepers are at work, and Incus will delete their instances. */
  ghost predicate Sweepers(s: State, deletable: set<Name>) {
    forall j :: 0 <= j < |s.actors| && !s.actors[j].pc.Done? ==>
      && (s.actors[j].pc == Handle(Judge) || s.actors[j].pc.Term? || s.actors[j].pc.Exit?)
      && s.actors[j].name in deletable
  }

  /** The sweep goes on under a live context, and what it has still to hand out can be deleted. */
  ghost predicate UnderWay(s: State, deletable: set<Name>) {
    && Safe(s) && !s.ctxDone && Sweepers(s, deletable)
    && match s.reaper
       case Handing(queue, _) => forall k :: 0 <= k < |queue| ==> queue[k].name in deletable
       case Sweeping(orphans) => forall k :: 0 <= k < |orphans| ==> orphans[k] in deletable
       case HandedJoin => true
       case SweptJoin => true
       case _ => false
  }

  function Joining(r: Reaper): Reaper {
    if r.Handing? || r.HandedJoin? then HandedJoin else SweptJoin
  }

  predicate AtJoin(r: Reaper) {
    r.HandedJoin? || r.SweptJoin?
  }

  lemma SweeperEdge(a: Actor, a': Actor)
    requires Steps(a, a') && (a.pc == Handle(Judge) || a.pc.Term? || a.pc.Exit?)
    ensures a'.name == a.name && (a'.pc.Term? || a'.pc.Exit? || a'.pc.Done?)
  {}

  lemma SweeperMoves(s: State, j: nat, deletable: set<Name>)
    requires UnderWay(s, deletable) && j < |s.actors| && !s.actors[j].pc.Done?
    ensures CanAct(s, j, YES) && UnderWay(ActStep(s, j, YES), deletable)
    ensures ActStep(s, j, YES).reaper == s.reaper
  {
    EdgeTaken(s, j, YES);
    SweeperEdge(s.actors[j], ActStep(s, j, YES).actors[j]);
    ActShape(s, j, YES);
    HostStep(s, j, YES);
    SafeApply(s, Act(j, YES));
  }

  lemma SweepHands(s: State, deletable: set<Name>)
    requires UnderWay(s, deletable) && Enabled(s, SweepDispatch)
    ensures UnderWay(Dispatch(s), deletable) && Joining(Dispatch(s).reaper) == Joining(s.reaper)
  {
    SafeApply(s, SweepDispatch);
  }

  /** The next step of a sweep, unless it waits for nobody any more. */
  lemma SweepNext(s: State, deletable: set<Name>) returns (e: Event)
    requires UnderWay(s, deletable) && !(AtJoin(s.reaper) && Quiescent(s))
    ensures Enabled(s, e) && P.SweepEvent(s, e, deletable) && UnderWay(Apply(s, e), deletable)
    ensures Joining(Apply(s, e).reaper) == Joining(s.reaper) && ToDo(Apply(s, e)) < ToDo(s)
  {
    if AtJoin(s.reaper) {
      var j: nat :| j < |s.actors| && !s.actors[j].pc.Done?;
      SweeperMoves(s, j, deletable);
      e := Act(j, YES);
    } else if Enabled(s, SweepDispatch) {
      SweepHands(s, deletable);
      e := SweepDispatch;
    } else {
      e := SweepCut;
      SafeApply(s, e);
    }
    InternalFalls(s, e);
  }

  lemma {:induction false} SweepOn(s: State, deletable: set<Name>) returns (es: seq<Event>)
    requires UnderWay(s, deletable)
    ensures Legal(s, es) && P.SweepRun(s, es, deletable)
    ensures var t := Exec(s, es); UnderWay(t, deletable) && Quiescent(t) && t.reaper == Joining(s.reaper)
    decreases ToDo(s)
  {
    es := [];
    if !(AtJoin(s.reaper) && Quiescent(s)) {
      var e := SweepNext(s, deletable);
      ToDoNonNegative(Apply(s, e));
      ToDoNonNegative(s);
      var rest := SweepOn(Apply(s, e), deletable);
      es := [e] + rest;
      assert es[1..] == rest;
    }
  }

  // ----- the two halves -----

  /** At rest, with the reaper asleep and the context live. */
  ghost predicate Resting(b: State) {
    Safe(b) && Quiescent(b) && b.phase.Running? && b.reaper.Asleep? && !b.ctxDone
  }

  lemma SafeNamed(s: State)
    requires Safe(s)
    ensures Named(s.tracker)
  {
    forall n | n in s.tracker ensures s.tracker[n].name == n {
      assert NameOk(s, n);
    }
  }

  lemma SweepBegins(b: State) returns (es: seq<Event>, order: seq<Record>)
    requires Resting(b)
    ensures Legal(b, es) && Exec(b, es) == b.(reaper := Handing(order, b.clock)) && Safe(Exec(b, es))
    ensures IsSnapshot(b.tracker, order)
  {
    SafeNamed(b);
    order := SnapshotExists(b.tracker);
    es := Then(b, [], SweepWake);
    SafeApply(b, SweepWake);
    SafeApply(Exec(b, es), SweepSnapshot(order));
    es := Then(b, es, SweepSnapshot(order));
  }

  lemma RemoteAfter(b: State, t: State, deletable: set<Name>)
    requires b.reaper.Handing? && b.tracker.Keys <= deletable
    requires forall n: Name :: P.OutcomeAt(b, t, b.tracker.Keys, b.reaper.now, deletable, n)
    ensures forall n: Name :: n in t.remote <==>
      n in b.remote && !(n in b.tracker && Reaped(b.cfg, b.tracker[n], b.reaper.now))
  {
    forall n: Name ensures n in t.remote <==>
      n in b.remote && !(n in b.tracker && Reaped(b.cfg, b.tracker[n], b.reaper.now))
    {
      assert P.OutcomeAt(b, t, b.tracker.Keys, b.reaper.now, deletable, n);
    }
  }

  /** The timeouts: every record handed out, every worker done. */
  lemma TimeoutsRun(b: State, deletable: set<Name>) returns (es: seq<Event>)
    requires Resting(b) && b.tracker.Keys <= deletable
    ensures Legal(b, es)
    ensures var t := Exec(b, es);
            && UnderWay(t, deletable) && Quiescent(t) && t.reaper.HandedJoin?
            && t.tracker == Swept(b.cfg, b.tracker, b.tracker.Keys, b.clock)
            && forall n: Name :: n in t.remote <==>
                 n in b.remote && !(n in b.tracker && Reaped(b.cfg, b.tracker[n], b.clock))
  {
    var order;
    es, order := SweepBegins(b);
    var s := Exec(b, es);
    var rest := SweepOn(s, deletable);
    SafeNamed(s);
    var k := P.ParallelIsSequential(s, order, rest, deletable);
    SnapshotNames(b.tracker, order);
    assert order[..|order|] == order;
    LoopIsSwept(b.cfg, b.tracker, order, b.clock);
    RemoteAfter(s, Exec(s, rest), deletable);
    es := Followed(b, es, rest);
  }

  /** The listing, and what it holds that is not tracked. */
  lemma ListingRun(s: State) returns (es: seq<Event>, orphans: seq<Name>)
    requires Safe(s) && s.reaper.HandedJoin? && Quiescent(s) && !s.ctxDone
    ensures Legal(s, es) && Exec(s, es) == s.(reaper := Sweeping(orphans)) && Safe(Exec(s, es))
    ensures forall n :: n in orphans <==> n in s.remote && n !in s.tracker
  {
    var listing := ListingExists(s.remote);
    SafeApply(s, SweepJoin);
    es := Then(s, [], SweepJoin);
    SafeApply(Exec(s, es), ListReturn(true, listing));
    es := Then(s, es, ListReturn(true, listing));
    SafeApply(Exec(s, es), ReadNames);
    es := Then(s, es, ReadNames);
    orphans := Orphans(listing, s.tracker.Keys);
    forall n ensures n in orphans <==> n in s.remote && n !in s.tracker {
      OrphansUnknown(listing, s.tracker.Keys, n);
    }
  }

  /** A sweeper was started for the instance. */
  ghost predicate SweptFor(t: State, n: Name) {
    exists j :: 0 <= j < |t.actors| && t.actors[j].role.Sweeper? && t.actors[j].name == n
  }

  lemma SweeperEach(s: State, t: State, orphans: seq<Name>, deletable: set<Name>)
    requires D.Between(s, t, orphans, deletable, |orphans|)
    ensures forall n :: n in orphans ==> SweptFor(t, n)
  {
    forall n | n in orphans ensures SweptFor(t, n) {
      var w :| 0 <= w < |orphans| && orphans[w] == n;
      assert D.SweeperOk(n, t.actors[|s.actors| + w]);
    }
  }

  /** The drift: every orphan handed out and gone. */
  lemma DriftRun(s: State, orphans: seq<Name>, deletable: set<Name>) returns (es: seq<Event>)
    requires Safe(s) && !s.ctxDone && Quiescent(s) && s.reaper == Sweeping(orphans)
    requires forall n :: n in orphans <==> n in s.remote && n !in s.tracker
    requires s.remote <= deletable
    ensures Legal(s, es)
    ensures var t := Exec(s, es);
            && t.reaper.SweptJoin? && Quiescent(t) && t.tracker == s.tracker && t.remote == s.remote * s.tracker.Keys
            && forall n :: n in s.remote && n !in s.tracker ==> SweptFor(t, n)
  {
    es := SweepOn(s, deletable);
    assert orphans[0..] == orphans && s.actors[|s.actors|..] == [];
    var k := D.BetweenRun(s, s, orphans, deletable, 0, es);
    SweeperEach(s, Exec(s, es), orphans, deletable);
    var l := D.DriftIsSequential(s, orphans, es, deletable);
    assert orphans[..|orphans|] == orphans;
  }

  lemma ListAndDrift(s: State, deletable: set<Name>) returns (es: seq<Event>)
    requires Safe(s) && s.reaper.HandedJoin? && Quiescent(s) && !s.ctxDone && s.remote <= deletable
    ensures Legal(s, es)
    ensures var t := Exec(s, es);
            && t.reaper.Asleep? && Quiescent(t) && t.tracker == s.tracker && t.remote == s.remote * s.tracker.Keys
            && forall n :: n in s.remote && n !in s.tracker ==> SweptFor(t, n)
  {
    var orphans;
    es, orphans := ListingRun(s);
    var drift := DriftRun(Exec(s, es), orphans, deletable);
    es := Followed(s, es, drift);
    assert Enabled(Exec(s, es), SweepJoin);
    var before := Exec(s, es);
    es := Then(s, es, SweepJoin);
    assert Exec(s, es).actors == before.actors;
  }

  /** Of the records exactly those past their timeout are gone, or flagged where they are launching, and exactly those
      instances are left whose record is. */
  ghost predicate Cleaned(b: State, t: State) {
    t.remote == b.remote * t.tracker.Keys && RecordsSwept(b.cfg, b.tracker, t.tracker, b.clock)
  }

  lemma CleanedBySwept(b: State, between: State, t: State)
    requires between.tracker == Swept(b.cfg, b.tracker, b.tracker.Keys, b.clock) == t.tracker
    requires forall n: Name :: n in between.remote <==>
      n in b.remote && !(n in b.tracker && Reaped(b.cfg, b.tracker[n], b.clock))
    requires t.remote == between.remote * between.tracker.Keys
    ensures Cleaned(b, t)
  {
    AllSweptMeans(b.cfg, b.tracker, b.clock);
  }

  /** The whole sweep, from its ticker to its end: from every state at rest there is a run in which the context stays
      live and Incus answers, and it cleans up. So drift sweeps do happen, and do what they are for: each instance
      that is not tracked has its sweeper. */
  lemma SweepCleans(b: State) returns (es: seq<Event>)
    requires Resting(b)
    ensures Legal(b, es)
    ensures var t := Exec(b, es);
            && t.reaper.Asleep? && Quiescent(t) && Cleaned(b, t)
            && forall n :: n in b.remote && n !in b.tracker ==> SweptFor(t, n)
  {
    var deletable := b.tracker.Keys + b.remote;
    es := TimeoutsRun(b, deletable);
    var between := Exec(b, es);
    assert between.remote <= deletable;
    var rest := ListAndDrift(between, deletable);
    CleanedBySwept(b, between, Exec(between, rest));
    es := Followed(b, es, rest);
  }

  /** So the first sweep of a new process can take away whatever an earlier one left. */
  lemma LeftoversGo(s0: State) returns (es: seq<Event>)
    requires Init(s0)
    ensures Legal(s0, es) && Exec(s0, es).remote == {} && forall n :: n in s0.remote ==> SweptFor(Exec(s0, es), n)
  {
    SafeFromStart(s0, []);
    es := SweepCleans(s0);
  }
}
