/** The parallel timeout sweep is as good as the sequential loop: for every snapshot order, every
    interleaving of the workers, and also when a cancellation cuts the hand-over short. */
module ParallelSweep {
  import opened Tracking
  import opened Lifecycle
  import opened LifecycleAccounts
  import opened SweepSpec

  /** The sweep starts from an orchestrator at rest, with its snapshot just taken. */
  ghost predicate Start(b: State, order: seq<Record>) {
    && Quiescent(b) && Named(b.tracker) && b.reaper.Handing? && b.reaper.queue == order
    && IsSnapshot(b.tracker, order)
  }

  /** Only the sweep and its workers step; the context may be cancelled. `deletable` fixes, per instance,
      whether Incus will carry out its Delete. */
  ghost predicate SweepEvent(s: State, e: Event, deletable: set<Name>) {
    || e.SweepDispatch? || e.SweepCut? || e.Cancel?
    || (e.Act? && e.actor < |s.actors|
        && (s.actors[e.actor].pc == Term(Deleting) ==> (e.choice.ok <==> s.actors[e.actor].name in deletable)))
  }

  ghost predicate SweepRun(s: State, es: seq<Event>, deletable: set<Name>)
    requires Legal(s, es)
    decreases |es|
  {
    es == [] || (SweepEvent(s, es[0], deletable) && SweepRun(Apply(s, es[0]), es[1..], deletable))
  }

  // ----- how far a worker's record got -----

  function RecordOf(t: Registry, n: Name): Option<Record> {
    if n in t then Some(t[n]) else None
  }

  /** The registrations of runner n that were handed to RemoveRunner. */
  function PassedFor(s: State, n: Name): set<int> {
    set p | p in s.books.passed && p.0 == n :: p.1
  }

  /** The worker has handed its registration back. */
  predicate HandedBack(r: Record, stale: bool, pc: Pc) {
    stale && r.id != 0 && (pc == Exit(Deregistering) || pc == Exit(DropLaunch) || pc.Done?)
  }

  function One(b: bool, id: int): set<int> {
    if b then {id} else {}
  }

  /** What the tracker holds under the name of a worker's record, by the worker's position. */
  function Expected(r: Record, stale: bool, pc: Pc): Option<Record> {
    match pc
    case Term(TermMark) => Some(r)
    case Term(TermRemove) => Some(r.(pending := true))
    case Term(_) => None
    case Handle(_) => Some(r)
    case _ => if !stale then Some(r) else if r.state == Launching then Some(r.(pending := true)) else None
  }

  /** The worker's Delete has returned. */
  predicate Deleted(r: Record, stale: bool, pc: Pc) {
    stale && r.state != Launching && (pc.Exit? || pc.Done?)
  }

  predicate WorkerPlaced(r: Record, stale: bool, pc: Pc) {
    && (pc == Handle(Judge) || pc.Term? || pc.Exit? || pc.Done?)
    && (pc.Term? ==> stale && (pc.term != TermMark ==> r.state != Launching))
    && (pc.Exit? && pc.exit != DropLaunch ==> stale)
  }

  ghost predicate WorkerOk(b: State, s: State, r: Record, a: Actor, now: int, deletable: set<Name>) {
    && a.role.Worker? && a.name == r.name && a.id == r.id && a.stale == TimedOut(b.cfg, r, now)
    && WorkerPlaced(r, a.stale, a.pc)
    && RecordOf(s.tracker, r.name) == Expected(r, a.stale, a.pc)
    && (r.name in s.remote <==> r.name in b.remote && !(Deleted(r, a.stale, a.pc) && r.name in deletable))
    && PassedFor(s, r.name) == PassedFor(b, r.name) + One(HandedBack(r, a.stale, a.pc), r.id)
  }

  predicate Untouched(b: State, s: State, n: Name) {
    && RecordOf(s.tracker, n) == RecordOf(b.tracker, n) && (n in s.remote <==> n in b.remote)
    && PassedFor(s, n) == PassedFor(b, n)
  }

  /** The workers so far are the first k records of the snapshot, in order, one worker each. */
  ghost predicate Midway(b: State, s: State, order: seq<Record>, now: int, deletable: set<Name>, k: nat) {
    && k <= |order| && |s.actors| == |b.actors| + k && s.cfg == b.cfg
    && (s.reaper == Handing(order[k..], now) || (s.reaper == HandedJoin && (k == |order| || s.ctxDone)))
    && (forall j :: 0 <= j < |b.actors| ==> s.actors[j].pc.Done?)
    && (forall w :: 0 <= w < k ==> WorkerOk(b, s, order[w], s.actors[|b.actors| + w], now, deletable))
    && (forall n :: n !in NamesOf(order[..k]) ==> Untouched(b, s, n))
  }

  // ----- every step keeps it -----

  lemma TermPassed(s: State, i: nat, c: Choice)
    requires i < |s.actors| && s.actors[i].pc.Term?
    ensures ActTerm(s, i, c).books.passed == s.books.passed
  {}

  lemma BooksPassed(s: State, i: nat, c: Choice)
    requires CanAct(s, i, c) && (s.actors[i].pc.Handle? || s.actors[i].pc.Term? || s.actors[i].pc.Exit?)
    ensures var a := s.actors[i];
      ActStep(s, i, c).books.passed
        == s.books.passed + (if a.pc == Exit(Deregister) && a.id != 0 then {(a.name, a.id)} else {})
  {
    if s.actors[i].pc.Term? { TermPassed(s, i, c); }
  }

  /** Only a deregistration that is not skipped hands a registration over. */
  lemma PassedStep(s: State, i: nat, c: Choice)
    requires CanAct(s, i, c) && (s.actors[i].pc.Handle? || s.actors[i].pc.Term? || s.actors[i].pc.Exit?)
    ensures var a, s' := s.actors[i], ActStep(s, i, c);
      && PassedFor(s', a.name) == PassedFor(s, a.name) + One(a.pc == Exit(Deregister) && a.id != 0, a.id)
      && forall n :: n != a.name ==> PassedFor(s', n) == PassedFor(s, n)
  {
    var a, s' := s.actors[i], ActStep(s, i, c);
    var added: set<(Name, int)> := if a.pc == Exit(Deregister) && a.id != 0 then {(a.name, a.id)} else {};
    BooksPassed(s, i, c);
    forall n
      ensures PassedFor(s', n) == PassedFor(s, n) + One(n == a.name && a.pc == Exit(Deregister) && a.id != 0, a.id)
    {
      assert forall id :: id in PassedFor(s', n) <==> (n, id) in s'.books.passed;
      assert forall id :: id in PassedFor(s, n) <==> (n, id) in s.books.passed;
    }
  }

  /** The two branches of a worker: whether its record is stale, and whether it defers. */
  lemma WorkerDecides(s: State, i: nat, c: Choice)
    requires CanAct(s, i, c)
    ensures s.actors[i].pc == Handle(Judge) ==>
      ActHandle(s, i).actors[i].pc == if s.actors[i].stale then Term(TermMark) else Exit(DropLaunch)
    ensures s.actors[i].pc == Term(TermMark) && s.actors[i].role.Worker? ==>
      ActTerm(s, i, c).actors[i].pc
      == if s.actors[i].name in s.tracker && s.tracker[s.actors[i].name].state == Launching
         then Exit(Deregister) else Term(TermRemove)
  {}

  /** What of WorkerOk concerns the registration. */
  lemma WorkerPassed(b: State, s: State, i: nat, c: Choice, r: Record, now: int, deletable: set<Name>)
    requires CanAct(s, i, c) && WorkerOk(b, s, r, s.actors[i], now, deletable)
    ensures var s' := ActStep(s, i, c);
      i < |s'.actors|
        && PassedFor(s', r.name) == PassedFor(b, r.name) + One(HandedBack(r, s'.actors[i].stale, s'.actors[i].pc), r.id)
  {
    EdgeTaken(s, i, c);
    WorkerDecides(s, i, c);
    PassedStep(s, i, c);
  }

  lemma WorkerSteps(b: State, s: State, i: nat, c: Choice, r: Record, now: int, deletable: set<Name>)
    requires CanAct(s, i, c) && WorkerOk(b, s, r, s.actors[i], now, deletable)
    requires s.actors[i].pc == Term(Deleting) ==> (c.ok <==> r.name in deletable)
    ensures i < |ActStep(s, i, c).actors|
      && WorkerOk(b, ActStep(s, i, c), r, ActStep(s, i, c).actors[i], now, deletable)
  {
    EdgeTaken(s, i, c);
    RegistryStep(s, i, c);
    HostStep(s, i, c);
    WorkerDecides(s, i, c);
    WorkerPassed(b, s, i, c, r, now, deletable);
  }

  /** Tracker and host changed under one name at most. */
  ghost predicate OnlyAt(s: State, s': State, x: Name) {
    forall n :: n != x ==> Untouched(s, s', n)
  }

  lemma EffectOnlyAt(t: Registry, a: Actor, now: int)
    ensures forall n :: n != a.name ==> RecordOf(Effect(t, a, now), n) == RecordOf(t, n)
  {}

  lemma StepsOnlyAt(s: State, i: nat, c: Choice)
    requires CanAct(s, i, c) && (s.actors[i].pc.Handle? || s.actors[i].pc.Term? || s.actors[i].pc.Exit?)
    ensures OnlyAt(s, ActStep(s, i, c), s.actors[i].name)
  {
    RegistryStep(s, i, c);
    HostStep(s, i, c);
    PassedStep(s, i, c);
    EffectOnlyAt(s.tracker, s.actors[i], s.clock);
  }

  lemma OtherKept(b: State, s: State, s': State, r: Record, a: Actor, now: int, deletable: set<Name>, x: Name)
    requires WorkerOk(b, s, r, a, now, deletable) && OnlyAt(s, s', x) && r.name != x
    ensures WorkerOk(b, s', r, a, now, deletable)
  {
    assert Untouched(s, s', r.name);
  }

  lemma RestKept(b: State, s: State, s': State, order: seq<Record>, now: int, deletable: set<Name>, k: nat, v: nat,
    n: Name)
    requires Midway(b, s, order, now, deletable, k) && v < k && OnlyAt(s, s', order[v].name)
    requires n !in NamesOf(order[..k])
    ensures Untouched(b, s', n)
  {
    assert order[v] in order[..k];
    assert Untouched(b, s, n) && Untouched(s, s', n);
  }

  /** Only actor i of s moved, and it left everything alone but its own name. */
  ghost predicate Local(s: State, s': State, i: nat, x: Name) {
    && |s'.actors| == |s.actors| && (forall j :: 0 <= j < |s.actors| && j != i ==> s'.actors[j] == s.actors[j])
    && s'.cfg == s.cfg && s'.reaper == s.reaper && s'.ctxDone == s.ctxDone && OnlyAt(s, s', x)
  }

  lemma CfgStays(s: State, i: nat, c: Choice)
    requires CanAct(s, i, c) && (s.actors[i].pc.Handle? || s.actors[i].pc.Term? || s.actors[i].pc.Exit?)
    ensures ActStep(s, i, c).cfg == s.cfg
  {}

  lemma ActLocal(s: State, i: nat, c: Choice)
    requires CanAct(s, i, c) && (s.actors[i].pc.Handle? || s.actors[i].pc.Term? || s.actors[i].pc.Exit?)
    ensures Local(s, ActStep(s, i, c), i, s.actors[i].name)
  {
    ActShape(s, i, c);
    StepsOnlyAt(s, i, c);
    HostStep(s, i, c);
    CfgStays(s, i, c);
  }

  /** A step under the name of worker v keeps the rest in place. */
  lemma MidwayKept(b: State, s: State, s': State, order: seq<Record>, now: int, deletable: set<Name>, k: nat, v: nat)
    requires Start(b, order) && Midway(b, s, order, now, deletable, k) && v < k
    requires Local(s, s', |b.actors| + v, order[v].name)
    requires WorkerOk(b, s', order[v], s'.actors[|b.actors| + v], now, deletable)
    ensures Midway(b, s', order, now, deletable, k)
  {
    forall w | 0 <= w < k ensures WorkerOk(b, s', order[w], s'.actors[|b.actors| + w], now, deletable) {
      if w != v { OtherKept(b, s, s', order[w], s.actors[|b.actors| + w], now, deletable, order[v].name); }
    }
    forall n | n !in NamesOf(order[..k]) ensures Untouched(b, s', n) {
      RestKept(b, s, s', order, now, deletable, k, v, n);
    }
  }

  /** Whoever can act in the middle of the sweep is one of its workers. */
  lemma WorkerActs(b: State, s: State, order: seq<Record>, now: int, deletable: set<Name>, k: nat, i: nat, c: Choice)
    requires Start(b, order) && Midway(b, s, order, now, deletable, k) && CanAct(s, i, c)
    ensures |b.actors| <= i < |b.actors| + k && WorkerOk(b, s, order[i - |b.actors|], s.actors[i], now, deletable)
  {
    var v := i - |b.actors|;
    assert 0 <= v < k;
    assert WorkerOk(b, s, order[v], s.actors[|b.actors| + v], now, deletable);
  }

  lemma WorkerStepsLocally(b: State, s: State, i: nat, c: Choice, r: Record, now: int, deletable: set<Name>)
    requires CanAct(s, i, c) && WorkerOk(b, s, r, s.actors[i], now, deletable) && !s.actors[i].pc.Done?
    requires SweepEvent(s, Act(i, c), deletable)
    ensures var s' := ActStep(s, i, c);
      i < |s'.actors| && WorkerOk(b, s', r, s'.actors[i], now, deletable) && Local(s, s', i, r.name)
  {
    WorkerSteps(b, s, i, c, r, now, deletable);
    ActLocal(s, i, c);
  }

  lemma MidwayAct(b: State, s: State, order: seq<Record>, now: int, deletable: set<Name>, k: nat, i: nat, c: Choice)
    requires Start(b, order) && Midway(b, s, order, now, deletable, k) && CanAct(s, i, c)
    requires SweepEvent(s, Act(i, c), deletable)
    ensures Midway(b, ActStep(s, i, c), order, now, deletable, k)
  {
    WorkerActs(b, s, order, now, deletable, k, i, c);
    var v := i - |b.actors|;
    WorkerStepsLocally(b, s, i, c, order[v], now, deletable);
    var s' := ActStep(s, i, c);
    assert |b.actors| + v == i;
    MidwayKept(b, s, s', order, now, deletable, k, v);
  }

  /** The record handed over has not been touched; its worker starts where it belongs. */
  lemma NewWorkerOk(b: State, s: State, r: Record, now: int, deletable: set<Name>)
    requires Untouched(b, s, r.name) && r.name in b.tracker && b.tracker[r.name] == r
    ensures WorkerOk(b, s, r, NewWorker(r, TimedOut(b.cfg, r, now)), now, deletable)
  {}

  lemma HandsOut(s: State, queue: seq<Record>, now: int)
    requires s.reaper == Handing(queue, now) && queue != []
    ensures Dispatch(s)
      == s.(reaper := Handing(queue[1..], now),
            actors := s.actors + [NewWorker(queue[0], TimedOut(s.cfg, queue[0], now))])
  {}

  lemma WorkerStill(b: State, s: State, s': State, r: Record, a: Actor, now: int, deletable: set<Name>)
    requires WorkerOk(b, s, r, a, now, deletable) && s'.tracker == s.tracker && s'.remote == s.remote
    requires s'.books.passed == s.books.passed
    ensures WorkerOk(b, s', r, a, now, deletable)
  {}

  lemma MidwayDispatch(b: State, s: State, order: seq<Record>, now: int, deletable: set<Name>, k: nat)
    requires Start(b, order) && Midway(b, s, order, now, deletable, k) && Enabled(s, SweepDispatch)
    ensures Midway(b, Dispatch(s), order, now, deletable, k + 1)
  {
    var s' := Dispatch(s);
    assert order[k..][0] == order[k] && order[k..][1..] == order[k + 1..];
    HandsOut(s, order[k..], now);
    NextName(order, k);
    forall w | 0 <= w < k + 1 ensures WorkerOk(b, s', order[w], s'.actors[|b.actors| + w], now, deletable) {
      if w < k {
        WorkerStill(b, s, s', order[w], s.actors[|b.actors| + w], now, deletable);
      } else {
        assert Untouched(b, s, order[k].name);
        NewWorkerOk(b, s', order[k], now, deletable);
      }
    }
    forall n | n !in NamesOf(order[..k + 1]) ensures Untouched(b, s', n) {
      assert n !in NamesOf(order[..k]) && Untouched(b, s, n);
    }
  }

  lemma MidwayStill(b: State, s: State, order: seq<Record>, now: int, deletable: set<Name>, k: nat, e: Event)
    requires Midway(b, s, order, now, deletable, k) && Enabled(s, e) && (e.SweepCut? || e.Cancel?)
    ensures Midway(b, Apply(s, e), order, now, deletable, k)
  {
    var s' := Apply(s, e);
    forall w | 0 <= w < k ensures WorkerOk(b, s', order[w], s'.actors[|b.actors| + w], now, deletable) {
      assert WorkerOk(b, s, order[w], s.actors[|b.actors| + w], now, deletable);
    }
    forall n | n !in NamesOf(order[..k]) ensures Untouched(b, s', n) {
      assert Untouched(b, s, n);
    }
  }

  lemma MidwayApply(b: State, s: State, order: seq<Record>, now: int, deletable: set<Name>, k: nat, e: Event)
    requires Start(b, order) && Midway(b, s, order, now, deletable, k) && Enabled(s, e) && SweepEvent(s, e, deletable)
    ensures Midway(b, Apply(s, e), order, now, deletable, if e.SweepDispatch? then k + 1 else k)
  {
    match e
    case Act(i, c) => MidwayAct(b, s, order, now, deletable, k, i, c);
    case SweepDispatch => MidwayDispatch(b, s, order, now, deletable, k);
    case _ => MidwayStill(b, s, order, now, deletable, k, e);
  }

  lemma {:induction false} MidwayRun(b: State, s: State, order: seq<Record>, now: int, deletable: set<Name>,
    k: nat, es: seq<Event>)
      returns (k': nat)
    requires Start(b, order) && Midway(b, s, order, now, deletable, k) && Legal(s, es) && SweepRun(s, es, deletable)
    ensures Midway(b, Exec(s, es), order, now, deletable, k')
    decreases |es|
  {
    k' := k;
    if es != [] {
      MidwayApply(b, s, order, now, deletable, k, es[0]);
      k' := if es[0].SweepDispatch? then k + 1 else k;
      k' := MidwayRun(b, Apply(s, es[0]), order, now, deletable, k', es[1..]);
    }
  }

  // ----- the result -----

  /** The order-free outcome of the sweep for one name. */
  ghost predicate OutcomeAt(b: State, s: State, names: set<Name>, now: int, deletable: set<Name>, n: Name) {
    && RecordOf(s.tracker, n) == RecordOf(Swept(b.cfg, b.tracker, names, now), n)
    && (n in s.remote <==>
          n in b.remote && !(n in names && n in b.tracker && Reaped(b.cfg, b.tracker[n], now) && n in deletable))
    && PassedFor(s, n)
       == PassedFor(b, n)
          + (if n in names && n in b.tracker && TimedOut(b.cfg, b.tracker[n], now) && b.tracker[n].id != 0
             then {b.tracker[n].id} else {})
  }

  /** A worker that is done has done to its record what the loop would have done. */
  lemma FinalWorker(b: State, s: State, names: set<Name>, r: Record, a: Actor, now: int, deletable: set<Name>)
    requires WorkerOk(b, s, r, a, now, deletable) && a.pc.Done?
    requires r.name in names && r.name in b.tracker && b.tracker[r.name] == r
    ensures OutcomeAt(b, s, names, now, deletable, r.name)
  {}

  lemma FinalAt(b: State, s: State, order: seq<Record>, now: int, deletable: set<Name>, k: nat, n: Name)
    requires Start(b, order) && Midway(b, s, order, now, deletable, k) && Quiescent(s)
    ensures OutcomeAt(b, s, NamesOf(order[..k]), now, deletable, n)
  {
    var names := NamesOf(order[..k]);
    if n in names {
      var w: nat :| w < k && order[w].name == n;
      FinalWorker(b, s, names, order[w], s.actors[|b.actors| + w], now, deletable);
    } else {
      assert Untouched(b, s, n);
    }
  }

  lemma ReturnedOf(b: State, order: seq<Record>, now: int, k: nat, n: Name, id: int)
    requires IsSnapshot(b.tracker, order) && k <= |order|
    ensures (n, id) in Returned(b.cfg, order[..k], now) <==>
      n in NamesOf(order[..k]) && n in b.tracker && TimedOut(b.cfg, b.tracker[n], now) && b.tracker[n].id != 0
        && id == b.tracker[n].id
  {
    assert forall r :: r in order[..k] ==> r.name in b.tracker && b.tracker[r.name] == r;
    if n in NamesOf(order[..k]) {
      var r :| r in order[..k] && r.name == n;
    }
  }

  lemma PassedInAll(b: State, s: State, order: seq<Record>, now: int, deletable: set<Name>, k: nat)
    requires IsSnapshot(b.tracker, order) && k <= |order|
    requires forall n: Name :: OutcomeAt(b, s, NamesOf(order[..k]), now, deletable, n)
    ensures s.books.passed == b.books.passed + Returned(b.cfg, order[..k], now)
  {
    forall p: (Name, int)
      ensures p in s.books.passed <==> p in b.books.passed + Returned(b.cfg, order[..k], now)
    {
      var (n, id) := p;
      assert OutcomeAt(b, s, NamesOf(order[..k]), now, deletable, n);
      assert id in PassedFor(s, n) <==> p in s.books.passed;
      assert id in PassedFor(b, n) <==> p in b.books.passed;
      ReturnedOf(b, order, now, k, n, id);
    }
  }

  lemma SameRecords(t: Registry, t': Registry)
    requires forall n :: RecordOf(t, n) == RecordOf(t', n)
    ensures t == t'
  {
    assert forall n :: n in t <==> RecordOf(t, n).Some?;
    assert forall n :: n in t ==> RecordOf(t, n) == Some(t[n]) && RecordOf(t', n) == Some(t'[n]);
  }

  lemma Outcome(b: State, s: State, order: seq<Record>, now: int, deletable: set<Name>, k: nat)
    requires Start(b, order) && Midway(b, s, order, now, deletable, k) && Quiescent(s)
    ensures forall n: Name :: OutcomeAt(b, s, NamesOf(order[..k]), now, deletable, n)
    ensures s.tracker == Swept(b.cfg, b.tracker, NamesOf(order[..k]), now)
  {
    var t := Swept(b.cfg, b.tracker, NamesOf(order[..k]), now);
    forall n: Name
      ensures OutcomeAt(b, s, NamesOf(order[..k]), now, deletable, n) && RecordOf(s.tracker, n) == RecordOf(t, n)
    {
      FinalAt(b, s, order, now, deletable, k, n);
    }
    SameRecords(s.tracker, t);
  }

  lemma MidwayStart(b: State, order: seq<Record>, now: int, deletable: set<Name>)
    requires Start(b, order) && now == b.reaper.now
    ensures Midway(b, b, order, now, deletable, 0)
  {
    assert order[0..] == order;
  }

  /** However its workers interleave, when the sweep has handed everything out and all of them are done,
      tracker and host are what the sequential loop over the handed-out records would have left: over all
      of them, or, if the context was cancelled, over a prefix. The registrations handed to RemoveRunner are
      those of the stale records among them. */
  lemma ParallelIsSequential(b: State, order: seq<Record>, es: seq<Event>, deletable: set<Name>) returns (k: nat)
    requires Start(b, order) && Legal(b, es) && SweepRun(b, es, deletable)
    requires Exec(b, es).reaper.HandedJoin? && Quiescent(Exec(b, es))
    ensures k <= |order| && (k == |order| || Exec(b, es).ctxDone)
    ensures |Exec(b, es).actors| == |b.actors| + k
    ensures Exec(b, es).tracker == ReapAll(b.cfg, b.tracker, order[..k], b.reaper.now)
    ensures Exec(b, es).books.passed == b.books.passed + Returned(b.cfg, order[..k], b.reaper.now)
    ensures forall n: Name :: OutcomeAt(b, Exec(b, es), NamesOf(order[..k]), b.reaper.now, deletable, n)
  {
    var now := b.reaper.now;
    MidwayStart(b, order, now, deletable);
    k := MidwayRun(b, b, order, now, deletable, 0, es);
    Outcome(b, Exec(b, es), order, now, deletable, k);
    LoopIsSwept(b.cfg, b.tracker, order[..k], now);
    PassedInAll(b, Exec(b, es), order, now, deletable, k);
  }
}
