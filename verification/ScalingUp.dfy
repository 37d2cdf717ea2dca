/** Scaling up is exact: undisturbed, the pool settles at the largest target it was asked for. */
module ScalingUp {
  import opened Tracking
  import opened Lifecycle
  import opened LifecycleInvariant
  import opened LifecycleAccounts
  import opened Capacity
  import opened Obligations
  import opened Sums
  import opened Guarantees

  // ----- undisturbed -----

  /** A handler that has still to reserve. */
  predicate Asking(pc: Pc) {
    pc == Scale(Reserve) || pc == Scale(Reserving)
  }

  /** The actor has no reservation to give back and no record to take away. */
  predicate Smooth(pc: Pc) {
    match pc
    case Scale(scale) => !scale.Refunding?
    case Mint(mint) => !mint.PreDeregister? && !mint.PreDeregistering?
    case Unwind(_) => false
    case Verdict(verdict) => verdict.MarkIdle?
    case Term(term) => !term.TermMark? && !term.TermRemove?
    case _ => true
  }

  ghost predicate Unhindered(s: State) {
    && (forall i :: 0 <= i < |s.actors| ==> Smooth(s.actors[i].pc))
    && (forall n :: !PendingIn(s.tracker, n))
    && (MidReserve(s) ==> s.actors[s.spawnMu.holder].size == |s.tracker|)
  }

  /** What can keep an actor from going on smoothly, and does not: a spawn task's call fails, the start of a
      task is refused, a job of a tracked runner completes, a worker finds its record past its timeout. */
  predicate GoesWell(s: State, i: nat, c: Choice)
    requires i < |s.actors|
  {
    match s.actors[i].pc
    case Prep(_) => c.ok
    case Mint(_) => c.ok
    case Ahead(_) => c.ok
    case Scale(Starting) => s.phase.Running?
    case Handle(Lookup) => s.actors[i].name !in s.tracker
    case Handle(Judge) => !s.actors[i].stale
    case _ => true
  }

  ghost predicate Favourable(s: State, e: Event)
    requires Enabled(s, e)
  {
    e.Act? ==> GoesWell(s, e.actor, e.choice)
  }

  ghost predicate AllFavourable(s: State, es: seq<Event>)
    requires Legal(s, es)
    decreases |es|
  {
    es == [] || (Favourable(s, es[0]) && AllFavourable(Apply(s, es[0]), es[1..]))
  }

  // ----- one step of an actor -----

  predicate Unsettled(s: State, s': State) {
    s'.books.aborted == s.books.aborted && s'.hist.removed == s.hist.removed
  }

  lemma SmoothScale(s: State, i: nat, c: Choice)
    requires i < |s.actors| && s.actors[i].pc.Scale? && Smooth(s.actors[i].pc) && GoesWell(s, i, c)
    ensures var s' := ActScale(s, i); i < |s'.actors| && Smooth(s'.actors[i].pc) && Unsettled(s, s')
  {}

  lemma SmoothMint(s: State, i: nat, c: Choice)
    requires i < |s.actors| && s.actors[i].pc.Mint? && Smooth(s.actors[i].pc) && c.ok
    ensures var s' := ActMint(s, i, c); i < |s'.actors| && Smooth(s'.actors[i].pc) && Unsettled(s, s')
  {}

  lemma SmoothAhead(s: State, i: nat, c: Choice)
    requires i < |s.actors| && s.actors[i].pc.Ahead? && c.ok && !PendingIn(s.tracker, s.actors[i].name)
    ensures var s' := ActAhead(s, i, c); i < |s'.actors| && Smooth(s'.actors[i].pc) && Unsettled(s, s')
  {
    var s' := ActAhead(s, i, c);
    assert s'.actors == s.actors[i := s.actors[i].(pc := s'.actors[i].pc)];
  }

  lemma SmoothTerm(s: State, i: nat, c: Choice)
    requires i < |s.actors| && s.actors[i].pc.Term? && Smooth(s.actors[i].pc)
    ensures var s' := ActTerm(s, i, c); i < |s'.actors| && Smooth(s'.actors[i].pc) && Unsettled(s, s')
  {}

  lemma SmoothRest(s: State, i: nat, c: Choice)
    requires CanAct(s, i, c) && Smooth(s.actors[i].pc) && GoesWell(s, i, c) && !PendingIn(s.tracker, s.actors[i].name)
    requires s.actors[i].pc.Handle? || s.actors[i].pc.Prep? || s.actors[i].pc.Verdict?
    ensures var s' := ActStep(s, i, c); i < |s'.actors| && Smooth(s'.actors[i].pc) && Unsettled(s, s')
  {}

  lemma SmoothExit(s: State, i: nat)
    requires i < |s.actors| && s.actors[i].pc.Exit?
    ensures var s' := ActExit(s, i); i < |s'.actors| && Smooth(s'.actors[i].pc) && Unsettled(s, s')
  {}

  lemma SmoothQuit(s: State, i: nat)
    requires i < |s.actors| && s.actors[i].pc.Quit?
    ensures var s' := ActQuit(s, i); i < |s'.actors| && Smooth(s'.actors[i].pc) && Unsettled(s, s')
  {}

  lemma SmoothOn(s: State, i: nat, c: Choice)
    requires Unhindered(s) && CanAct(s, i, c) && GoesWell(s, i, c)
    ensures var s' := ActStep(s, i, c); i < |s'.actors| && Smooth(s'.actors[i].pc) && Unsettled(s, s')
  {
    assert !PendingIn(s.tracker, s.actors[i].name);
    match s.actors[i].pc
    case Scale(_) => SmoothScale(s, i, c);
    case Mint(_) => SmoothMint(s, i, c);
    case Ahead(_) => SmoothAhead(s, i, c);
    case Term(_) => SmoothTerm(s, i, c);
    case Exit(_) => SmoothExit(s, i);
    case Quit(_) => SmoothQuit(s, i);
    case _ => SmoothRest(s, i, c);
  }

  lemma NoRequestAppears(t: Registry, a: Actor, now: int)
    requires Smooth(a.pc) && forall n :: !PendingIn(t, n)
    ensures forall n :: !PendingIn(Effect(t, a, now), n)
    ensures a.pc != Mint(AddWait) ==> Effect(t, a, now).Keys == t.Keys
  {
    forall n ensures !PendingIn(Effect(t, a, now), n) {
      assert !PendingIn(t, n) && !PendingIn(t, a.name);
    }
  }

  lemma LockMoves(s: State, i: nat, c: Choice)
    requires CapacityOk(s) && CanAct(s, i, c)
    ensures var s' := ActStep(s, i, c);
      if s.actors[i].pc == Scale(Reserve) then i < |s'.actors| && s'.actors[i].size == |s'.tracker|
        && s'.spawnMu == Held(i)
      else if s.actors[i].pc == Mint(AddWait) then i < |s'.actors| && s'.actors[i].pc == Ahead(Added)
         && s'.spawnMu == Held(i)
      else s'.spawnMu == (if Critical(s.actors[i].pc) then Free else s.spawnMu)
  {
    if Bystander(s.actors[i].pc) { BystanderOutside(s, i, c); }
  }

  /** While a handler is between its two reads nobody else changes the number of records. */
  lemma SizeHolds(s: State, i: nat, c: Choice)
    requires Unhindered(s) && CapacityOk(s) && CanAct(s, i, c) && GoesWell(s, i, c)
    ensures var s' := ActStep(s, i, c); MidReserve(s') ==> s'.actors[s'.spawnMu.holder].size == |s'.tracker|
  {
    var s' := ActStep(s, i, c);
    RegistryStep(s, i, c);
    NoRequestAppears(s.tracker, s.actors[i], s.clock);
    ActShape(s, i, c);
    assert |s.tracker| == |s.tracker.Keys| && |s'.tracker| == |s'.tracker.Keys|;
    LockMoves(s, i, c);
  }

  lemma UnhinderedAct(s: State, i: nat, c: Choice)
    requires Unhindered(s) && Safe(s) && CanAct(s, i, c) && GoesWell(s, i, c)
    ensures Unhindered(ActStep(s, i, c)) && Unsettled(s, ActStep(s, i, c))
  {
    SmoothOn(s, i, c);
    ActShape(s, i, c);
    BooksStep(s, i, c);
    RegistryStep(s, i, c);
    NoRequestAppears(s.tracker, s.actors[i], s.clock);
    SizeHolds(s, i, c);
  }

  // ----- the level the pool is at, or on its way to -----

  /** Reservations made, less those given back and the runners removed. */
  function Level(s: State): int {
    s.books.granted - s.books.aborted - |s.hist.removed|
  }

  lemma LevelIsPool(s: State)
    requires Safe(s)
    ensures Level(s) == |s.tracker| + s.inflight - (if MidAdd(s) then 1 else 0)
  {
    TrackedCount(s);
  }

  /** Level m is reached, or some handler will reserve up to it; none asks for more. */
  ghost predicate Heads(s: State, m: int) {
    && (forall i :: 0 <= i < |s.actors| && Asking(s.actors[i].pc) ==> s.actors[i].target <= m)
    && Level(s) <= m
    && (Level(s) == m || exists i :: 0 <= i < |s.actors| && Asking(s.actors[i].pc) && s.actors[i].target == m)
  }

  lemma GrantsAtReserving(s: State, i: nat, c: Choice)
    requires CanAct(s, i, c)
    ensures var s', a := ActStep(s, i, c), s.actors[i];
      s'.books.granted
        == s.books.granted + (if a.pc == Scale(Reserving) then ScaleUp(a.target, a.size, s.inflight) else 0)
  {
    if Bystander(s.actors[i].pc) { BystanderOutside(s, i, c); }
  }

  /** Only a handler asks, and once it has reserved the level is no lower than its target. */
  lemma LevelStep(s: State, i: nat, c: Choice)
    requires Unhindered(s) && Safe(s) && CanAct(s, i, c) && GoesWell(s, i, c)
    ensures var a := s.actors[i];
      Level(ActStep(s, i, c)) == if a.pc == Scale(Reserving) && a.target > Level(s) then a.target else Level(s)
  {
    UnhinderedAct(s, i, c);
    GrantsAtReserving(s, i, c);
    LevelIsPool(s);
  }

  lemma AskingAlongEdge(a: Actor, a': Actor)
    requires Steps(a, a')
    ensures Asking(a'.pc) <==> a.pc == Scale(Reserve)
  {}

  lemma HeadsAct(s: State, i: nat, c: Choice, m: int)
    requires Unhindered(s) && Safe(s) && CanAct(s, i, c) && GoesWell(s, i, c) && Heads(s, m)
    ensures Heads(ActStep(s, i, c), m)
  {
    var s' := ActStep(s, i, c);
    LevelStep(s, i, c);
    EdgeTaken(s, i, c);
    ActShape(s, i, c);
    AskingAlongEdge(s.actors[i], s'.actors[i]);
    if Level(s') != m {
      var w :| 0 <= w < |s.actors| && Asking(s.actors[w].pc) && s.actors[w].target == m;
      assert Asking(s'.actors[w].pc) && s'.actors[w].target == m;
    }
  }

  // ----- whole runs -----

  function Higher(a: int, b: int): int {
    if a > b then a else b
  }

  /** The highest of m and the clamped counts the listener delivers in these events. */
  function Highest(m: int, max: nat, es: seq<Event>): int
    decreases |es|
  {
    if es == [] then m
    else Highest(if es[0].DesiredCount? then Higher(m, Clamp(es[0].count, max)) else m, max, es[1..])
  }

  /** Spelled out: it is m, or MaxRunners if a count above that was delivered, or the largest count delivered. */
  lemma {:induction false} HighestMeans(m: int, max: nat, es: seq<Event>)
    requires m >= 0
    ensures var h := Highest(m, max, es);
      && h >= m
      && (forall k :: 0 <= k < |es| && es[k].DesiredCount? && es[k].count > max ==> h >= max)
      && (forall k :: 0 <= k < |es| && es[k].DesiredCount? && es[k].count <= max ==> h >= es[k].count)
      && (h == m || exists k :: 0 <= k < |es| && es[k].DesiredCount?
                      && ((es[k].count > max && h == max) || (0 <= es[k].count <= max && h == es[k].count)))
    decreases |es|
  {
    if es != [] {
      var next := if es[0].DesiredCount? then Higher(m, Clamp(es[0].count, max)) else m;
      HighestMeans(next, max, es[1..]);
      assert forall k :: 0 < k < |es| ==> es[k] == es[1..][k - 1];
      assert forall k :: 0 <= k < |es| - 1 ==> es[1..][k] == es[k + 1];
    }
  }

  lemma HeadsArrive(s: State, e: Event, m: int)
    requires Unhindered(s) && Heads(s, m) && Arrival(e) && Enabled(s, e)
    ensures Unhindered(Apply(s, e))
    ensures Heads(Apply(s, e), if e.DesiredCount? then Higher(m, Clamp(e.count, s.cfg.maxRunners)) else m)
  {
    Arrived(s, e);
    var s', a := Apply(s, e), Newcomer(s, e);
    var m' := if e.DesiredCount? then Higher(m, Clamp(e.count, s.cfg.maxRunners)) else m;
    assert Level(s') == Level(s) && s'.actors[|s.actors|] == a;
    if Level(s') != m' && m' == m {
      var w :| 0 <= w < |s.actors| && Asking(s.actors[w].pc) && s.actors[w].target == m;
      assert s'.actors[w] == s.actors[w];
    }
  }

  /** A worker, whatever it was handed, and a sweeper start smoothly. */
  lemma HeadsDispatch(s: State, m: int)
    requires Unhindered(s) && Heads(s, m) && Enabled(s, SweepDispatch)
    ensures Unhindered(Dispatch(s)) && Heads(Dispatch(s), m) && Dispatch(s).cfg == s.cfg
  {
    DispatchShape(s);
    var s' := Dispatch(s);
    if Level(s) != m {
      var w :| 0 <= w < |s.actors| && Asking(s.actors[w].pc) && s.actors[w].target == m;
      assert s'.actors[w] == s.actors[w];
    }
  }

  lemma HeadsElsewhere(s: State, e: Event, m: int)
    requires Unhindered(s) && Heads(s, m) && Enabled(s, e) && Elsewhere(e)
    ensures Unhindered(Apply(s, e)) && Heads(Apply(s, e), m)
  {
    ElsewhereOutside(s, e);
    var s' := Apply(s, e);
    assert s'.hist == s.hist && s'.books == s.books && s'.spawnMu == s.spawnMu;
  }

  lemma HeadsApply(s: State, e: Event, m: int)
    requires Unhindered(s) && Safe(s) && Heads(s, m) && Enabled(s, e) && Favourable(s, e)
    ensures Unhindered(Apply(s, e)) && Apply(s, e).cfg == s.cfg
    ensures Heads(Apply(s, e), if e.DesiredCount? then Higher(m, Clamp(e.count, s.cfg.maxRunners)) else m)
  {
    if e.Act? {
      UnhinderedAct(s, e.actor, e.choice);
      HeadsAct(s, e.actor, e.choice, m);
      BooksStep(s, e.actor, e.choice);
    } else if Arrival(e) {
      Arrived(s, e);
      HeadsArrive(s, e, m);
    } else if e.SweepDispatch? {
      HeadsDispatch(s, m);
    } else {
      ElsewhereOutside(s, e);
      HeadsElsewhere(s, e, m);
    }
  }

  lemma {:induction false} HeadsRun(s: State, es: seq<Event>, m: int)
    requires Unhindered(s) && Safe(s) && Heads(s, m) && Legal(s, es) && AllFavourable(s, es)
    ensures Heads(Exec(s, es), Highest(m, s.cfg.maxRunners, es)) && Safe(Exec(s, es))
    decreases |es|
  {
    if es != [] {
      HeadsApply(s, es[0], m);
      SafeApply(s, es[0]);
      HeadsRun(Apply(s, es[0]), es[1..],
               if es[0].DesiredCount? then Higher(m, Clamp(es[0].count, s.cfg.maxRunners)) else m);
    }
  }

  /** With nobody left to reserve the level is reached, and with nobody left at work it is all tracked. */
  lemma LevelReached(t: State, m: int)
    requires Safe(t) && Quiescent(t) && Heads(t, m)
    ensures |t.tracker| == m && t.inflight == 0
    ensures forall n :: n in t.tracker ==> !t.tracker[n].state.Launching?
  {
    LevelIsPool(t);
    TotalZero(t.actors, Reservations);
    forall n | n in t.tracker ensures !t.tracker[n].state.Launching? {
      assert NameOk(t, n);
    }
  }

  /** The size is m, or MaxRunners if a count above that was delivered, or the largest count delivered. */
  ghost predicate LargestAsked(size: int, m: int, max: nat, es: seq<Event>) {
    && size >= m
    && (forall k :: 0 <= k < |es| && es[k].DesiredCount? && es[k].count > max ==> size == max)
    && (forall k :: 0 <= k < |es| && es[k].DesiredCount? && es[k].count <= max ==> size >= es[k].count)
    && (size == m
        || exists k :: 0 <= k < |es| && es[k].DesiredCount?
             && ((es[k].count > max && size == max) || (0 <= es[k].count <= max && size == es[k].count)))
  }

  lemma HighestAsked(m: int, max: nat, es: seq<Event>)
    requires m >= 0 && Highest(m, max, es) <= max
    ensures LargestAsked(Highest(m, max, es), m, max, es)
  {
    HighestMeans(m, max, es);
  }

  lemma WithinMax(s: State, es: seq<Event>)
    requires Safe(s) && Legal(s, es) && Quiescent(Exec(s, es))
    ensures |Exec(s, es).tracker| + Exec(s, es).inflight <= s.cfg.maxRunners
  {
    SafeRun(s, es);
    ConfigKept(s, es);
  }

  /** Let nobody be about to reserve, to give a reservation back or to take a record away; any number of
      launches, sweeps and teardowns may be under way. However many counts the listener then delivers, and
      however handlers, spawn tasks, sweeps of both kinds, jobs and even a shutdown interleave: if the calls of
      the spawn tasks succeed, no start of a task is refused, no job of a tracked runner completes and no
      record is past its timeout, then once all actors are done the pool holds exactly as many runners as
      the highest of the clamped counts and of what was tracked or in flight before, and none of them is
      still launching. */
  lemma ExactScaleUp(s0: State, es: seq<Event>, later: seq<Event>)
    requires Init(s0) && Legal(s0, es) && Unhindered(Exec(s0, es)) && Exec(s0, es).spawnMu.Free?
    requires forall i :: 0 <= i < |Exec(s0, es).actors| ==> !Asking(Exec(s0, es).actors[i].pc)
    requires Legal(Exec(s0, es), later) && AllFavourable(Exec(s0, es), later) && Quiescent(Exec(Exec(s0, es), later))
    ensures var s, t := Exec(s0, es), Exec(Exec(s0, es), later);
      && |t.tracker| == Highest(|s.tracker| + s.inflight, s.cfg.maxRunners, later)
      && t.inflight == 0
      && forall n :: n in t.tracker ==> !t.tracker[n].state.Launching?
    ensures var s, t := Exec(s0, es), Exec(Exec(s0, es), later);
      LargestAsked(|t.tracker|, |s.tracker| + s.inflight, s.cfg.maxRunners, later)
  {
    var s := Exec(s0, es);
    SafeFromStart(s0, es);
    LevelIsPool(s);
    HeadsRun(s, later, Level(s));
    LevelReached(Exec(s, later), Highest(Level(s), s.cfg.maxRunners, later));
    ReservationsCount(s);
    WithinMax(s, later);
    HighestAsked(Level(s), s.cfg.maxRunners, later);
  }
}
