/** All classes of one process: their orchestrators step independently and share the two limiters. */
module Fleet {
  import opened Tracking
  import opened Lifecycle
  import opened LifecycleInvariant
  import opened LifecycleAccounts
  import opened Capacity
  import opened Sums
  import opened Guarantees

  // ----- what a step asks of the limiters and of the resolver's mutex -----

  datatype PermitOp = Neither | TakeMint | GiveMint | TakeLaunch | GiveLaunch | LockResolver | UnlockResolver

  function Operation(pc: Pc, c: Choice): PermitOp {
    match pc
    case Prep(MintWait) => if c.ok then TakeMint else Neither
    case Prep(ResolveWait) => LockResolver
    case Prep(Resolving) => UnlockResolver
    case Unwind(UnwindMint) => GiveMint
    case Ahead(DropMint) => GiveMint
    case Ahead(LaunchWait) => if c.ok then TakeLaunch else Neither
    case Exit(DropLaunch) => GiveLaunch
    case _ => Neither
  }

  /** Dispatching takes the launch permit that the new goroutine will give back. */
  function OperationOf(s: State, e: Event): PermitOp {
    match e
    case Act(i, c) => if i < |s.actors| then Operation(s.actors[i].pc, c) else Neither
    case SweepDispatch => TakeLaunch
    case _ => Neither
  }

  function MintTaken(op: PermitOp): int {
    if op.TakeMint? then 1 else if op.GiveMint? then -1 else 0
  }

  function LaunchTaken(op: PermitOp): int {
    if op.TakeLaunch? then 1 else if op.GiveLaunch? then -1 else 0
  }

  function ResolverTaken(op: PermitOp): int {
    if op.LockResolver? then 1 else if op.UnlockResolver? then -1 else 0
  }

  // ----- positions that hold a permit, or the mutex -----

  function HoldsMint(a: Actor): int {
    match a.pc
    case Prep(prep) => if prep.MintWait? then 0 else 1
    case Mint(_) => 1
    case Unwind(UnwindMint) => 1
    case Ahead(Added) => 1
    case Ahead(DropMint) => 1
    case _ => 0
  }

  function HoldsLaunch(a: Actor): int {
    match a.pc
    case Ahead(PreCheck) => 1
    case Ahead(LaunchCall) => 1
    case Ahead(LaunchFlight) => 1
    case Verdict(MarkIdle) => 1
    case Verdict(AbortRemove) => 1
    case Handle(Judge) => 1
    case Term(_) => if a.role.Completer? then 0 else 1
    case Exit(_) => 1
    case _ => 0
  }

  function HoldsResolver(a: Actor): int {
    if a.pc == Prep(Resolving) then 1 else 0
  }

  // ----- the fleet -----

  /** `resolverUsed` is 1 while the mutex of the release resolver is locked. */
  datatype FleetState = FleetState(
    classes: seq<State>, mintUsed: int, mintCapacity: int, launchUsed: int, launchCapacity: int, resolverUsed: int)

  ghost predicate FleetInit(f: FleetState) {
    && (forall k :: 0 <= k < |f.classes| ==> Init(f.classes[k]))
    && f.mintUsed == 0 && f.launchUsed == 0 && f.resolverUsed == 0 && f.mintCapacity > 0 && f.launchCapacity > 0
  }

  /** The limiters let the operation through: a slot is free for a taker, a token is there for a giver. */
  predicate Permitted(f: FleetState, op: PermitOp) {
    && (op.TakeMint? ==> f.mintUsed < f.mintCapacity) && (op.GiveMint? ==> f.mintUsed > 0)
    && (op.TakeLaunch? ==> f.launchUsed < f.launchCapacity) && (op.GiveLaunch? ==> f.launchUsed > 0)
    && (op.LockResolver? ==> f.resolverUsed < 1) && (op.UnlockResolver? ==> f.resolverUsed > 0)
  }

  ghost predicate FleetEnabled(f: FleetState, k: nat, e: Event) {
    k < |f.classes| && Enabled(f.classes[k], e) && Permitted(f, OperationOf(f.classes[k], e))
  }

  ghost function FleetApply(f: FleetState, k: nat, e: Event): FleetState
    requires FleetEnabled(f, k, e)
  {
    var op := OperationOf(f.classes[k], e);
    f.(classes := f.classes[k := Apply(f.classes[k], e)],
       mintUsed := f.mintUsed + MintTaken(op), launchUsed := f.launchUsed + LaunchTaken(op),
       resolverUsed := f.resolverUsed + ResolverTaken(op))
  }

  ghost predicate FleetLegal(f: FleetState, es: seq<(nat, Event)>)
    decreases |es|
  {
    es == [] || (FleetEnabled(f, es[0].0, es[0].1) && FleetLegal(FleetApply(f, es[0].0, es[0].1), es[1..]))
  }

  ghost function FleetExec(f: FleetState, es: seq<(nat, Event)>): FleetState
    requires FleetLegal(f, es)
    decreases |es|
  {
    if es == [] then f else FleetExec(FleetApply(f, es[0].0, es[0].1), es[1..])
  }

  lemma FleetStepThenRun(f: FleetState, k: nat, e: Event, rest: seq<(nat, Event)>)
    requires FleetEnabled(f, k, e) && FleetLegal(FleetApply(f, k, e), rest)
    ensures FleetLegal(f, [(k, e)] + rest) && FleetExec(f, [(k, e)] + rest) == FleetExec(FleetApply(f, k, e), rest)
  {
    assert ([(k, e)] + rest)[1..] == rest;
  }

  function MintHeld(s: State): int { Total(s.actors, HoldsMint) }

  function LaunchHeld(s: State): int { Total(s.actors, HoldsLaunch) }

  function ResolverHeld(s: State): int { Total(s.actors, HoldsResolver) }

  /** What s' holds is what s held, changed by this operation. */
  predicate HoldsChange(s: State, s': State, op: PermitOp) {
    && MintHeld(s') == MintHeld(s) + MintTaken(op)
    && LaunchHeld(s') == LaunchHeld(s) + LaunchTaken(op)
    && ResolverHeld(s') == ResolverHeld(s) + ResolverTaken(op)
  }

  /** Occupied slots are the actors in holding positions, over all classes, and fit the capacity; the mutex
      has one holder at most. */
  ghost predicate FleetOk(f: FleetState) {
    && (forall k :: 0 <= k < |f.classes| ==> Safe(f.classes[k]))
    && f.mintUsed == Total(f.classes, MintHeld) && f.mintUsed <= f.mintCapacity && f.mintCapacity > 0
    && f.launchUsed == Total(f.classes, LaunchHeld) && f.launchUsed <= f.launchCapacity && f.launchCapacity > 0
    && f.resolverUsed == Total(f.classes, ResolverHeld) && f.resolverUsed <= 1
  }

  // ----- permits follow the positions -----

  lemma PermitAlongEdge(a: Actor, a': Actor, c: Choice)
    requires RoleFits(a) && Steps(a, a')
    requires a.pc == Prep(MintWait) ==> (a'.pc == Unwind(Settle) <==> !c.ok)
    requires a.pc == Ahead(LaunchWait) ==> (a'.pc == Verdict(QuitRemove) <==> !c.ok)
    ensures HoldsMint(a') == HoldsMint(a) + MintTaken(Operation(a.pc, c))
    ensures HoldsLaunch(a') == HoldsLaunch(a) + LaunchTaken(Operation(a.pc, c))
    ensures HoldsResolver(a') == HoldsResolver(a) + ResolverTaken(Operation(a.pc, c))
  {}

  lemma AcquireEdges(s: State, i: nat, c: Choice)
    requires CanAct(s, i, c)
    ensures s.actors[i].pc == Prep(MintWait) ==> (ActPrep(s, i, c).actors[i].pc == Unwind(Settle) <==> !c.ok)
    ensures s.actors[i].pc == Ahead(LaunchWait) ==> (ActAhead(s, i, c).actors[i].pc == Verdict(QuitRemove) <==> !c.ok)
  {}

  lemma PermitsAct(s: State, i: nat, c: Choice)
    requires Safe(s) && CanAct(s, i, c)
    ensures HoldsChange(s, ActStep(s, i, c), Operation(s.actors[i].pc, c))
  {
    assert ActorOk(i, s.actors[i], s.hist, s.clock);
    EdgeTaken(s, i, c);
    AcquireEdges(s, i, c);
    PermitAlongEdge(s.actors[i], ActStep(s, i, c).actors[i], c);
    TotalStep(s, i, c, HoldsMint);
    TotalStep(s, i, c, HoldsLaunch);
    TotalStep(s, i, c, HoldsResolver);
  }

  lemma PermitsArrive(s: State, s': State, a: Actor)
    requires s'.actors == s.actors + [a]
    ensures MintHeld(s') == MintHeld(s) + HoldsMint(a) && LaunchHeld(s') == LaunchHeld(s) + HoldsLaunch(a)
    ensures ResolverHeld(s') == ResolverHeld(s) + HoldsResolver(a)
  {
    TotalAppend(s.actors, a, HoldsMint);
    TotalAppend(s.actors, a, HoldsLaunch);
    TotalAppend(s.actors, a, HoldsResolver);
  }

  lemma PermitsDispatch(s: State)
    requires Enabled(s, SweepDispatch)
    ensures HoldsChange(s, Dispatch(s), TakeLaunch)
  {
    PermitsArrive(s, Dispatch(s), Dispatch(s).actors[|s.actors|]);
  }

  lemma NothingTaken(s: State, s': State, a: Actor)
    requires s'.actors == s.actors + [a] && HoldsMint(a) == 0 && HoldsLaunch(a) == 0 && HoldsResolver(a) == 0
    ensures HoldsChange(s, s', Neither)
  {
    PermitsArrive(s, s', a);
  }

  lemma NewcomerHoldsNothing(s: State, e: Event)
    requires Arrival(e)
    ensures var a := Newcomer(s, e); HoldsMint(a) == 0 && HoldsLaunch(a) == 0 && HoldsResolver(a) == 0
  {}

  lemma PermitsOfArrival(s: State, e: Event)
    requires Arrival(e) && Enabled(s, e)
    ensures HoldsChange(s, Apply(s, e), Neither)
  {
    Arrived(s, e);
    NewcomerHoldsNothing(s, e);
    NothingTaken(s, Apply(s, e), Newcomer(s, e));
  }

  lemma PermitsApply(s: State, e: Event)
    requires Safe(s) && Enabled(s, e)
    ensures HoldsChange(s, Apply(s, e), OperationOf(s, e))
  {
    if e.Act? {
      PermitsAct(s, e.actor, e.choice);
    } else if Arrival(e) {
      PermitsOfArrival(s, e);
    } else if e.SweepDispatch? {
      PermitsDispatch(s);
    } else {
      ElsewhereOutside(s, e);
    }
  }

  lemma FleetApplyKeeps(f: FleetState, k: nat, e: Event)
    requires FleetOk(f) && FleetEnabled(f, k, e)
    ensures FleetOk(FleetApply(f, k, e))
  {
    var s := f.classes[k];
    var s' := Apply(s, e);
    SafeApply(s, e);
    PermitsApply(s, e);
    TotalUpdate(f.classes, k, s', MintHeld);
    TotalUpdate(f.classes, k, s', LaunchHeld);
    TotalUpdate(f.classes, k, s', ResolverHeld);
  }

  /** Permit conservation: in every run of all classes together the occupied slots of each limiter are the
      actors in the positions between its acquire and its release, and never exceed the capacity. */
  lemma {:induction false} PermitsConserved(f: FleetState, es: seq<(nat, Event)>)
    requires FleetOk(f) && FleetLegal(f, es)
    ensures FleetOk(FleetExec(f, es))
    decreases |es|
  {
    if es != [] {
      FleetApplyKeeps(f, es[0].0, es[0].1);
      PermitsConserved(FleetApply(f, es[0].0, es[0].1), es[1..]);
    }
  }

  lemma FleetStarts(f: FleetState)
    requires FleetInit(f)
    ensures FleetOk(f)
  {
    forall k | 0 <= k < |f.classes| ensures Safe(f.classes[k]) {
      SafeInit(f.classes[k]);
    }
    TotalZero(f.classes, MintHeld);
    TotalZero(f.classes, LaunchHeld);
    TotalZero(f.classes, ResolverHeld);
  }

  // ----- what the limiters limit -----

  /** GenerateJITConfig is about to be called, or in flight. */
  function MintingNow(a: Actor): int {
    if a.pc == Mint(Minting) then 1 else 0
  }

  /** A Launch, or a Stop or Delete of anybody but a job-completed handler, is in flight. */
  function OnHost(a: Actor): int {
    if a.pc == Ahead(LaunchFlight) || ((a.pc == Term(Stopping) || a.pc == Term(Deleting)) && !a.role.Completer?) then 1
    else 0
  }

  function MintsOf(s: State): int { Total(s.actors, MintingNow) }

  function HostCallsOf(s: State): int { Total(s.actors, OnHost) }

  lemma CallsHeld(s: State)
    ensures MintsOf(s) <= MintHeld(s) && HostCallsOf(s) <= LaunchHeld(s)
  {
    TotalBelow(s.actors, MintingNow, HoldsMint);
    TotalBelow(s.actors, OnHost, HoldsLaunch);
  }

  /** In every reachable state, over all classes together: no more mints than max_parallel_mints are under way, and no
      more calls into Incus than max_parallel_launches, those of the job-completed handlers aside. */
  lemma ConcurrencyBounded(f0: FleetState, es: seq<(nat, Event)>)
    requires FleetInit(f0) && FleetLegal(f0, es)
    ensures var f := FleetExec(f0, es);
            Total(f.classes, MintsOf) <= f.mintCapacity && Total(f.classes, HostCallsOf) <= f.launchCapacity
  {
    FleetStarts(f0);
    PermitsConserved(f0, es);
    var f := FleetExec(f0, es);
    forall k | 0 <= k < |f.classes|
      ensures MintsOf(f.classes[k]) <= MintHeld(f.classes[k]) && HostCallsOf(f.classes[k]) <= LaunchHeld(f.classes[k])
    {
      CallsHeld(f.classes[k]);
    }
    TotalBelow(f.classes, MintsOf, MintHeld);
    TotalBelow(f.classes, HostCallsOf, LaunchHeld);
  }

  // ----- no release without an acquire -----

  lemma HeldNonNegative(f: FleetState)
    ensures forall k :: 0 <= k < |f.classes| ==>
      MintHeld(f.classes[k]) >= 0 && LaunchHeld(f.classes[k]) >= 0 && ResolverHeld(f.classes[k]) >= 0
  {
    forall k | 0 <= k < |f.classes|
      ensures MintHeld(f.classes[k]) >= 0 && LaunchHeld(f.classes[k]) >= 0 && ResolverHeld(f.classes[k]) >= 0
    {
      TotalNonNegative(f.classes[k].actors, HoldsMint);
      TotalNonNegative(f.classes[k].actors, HoldsLaunch);
      TotalNonNegative(f.classes[k].actors, HoldsResolver);
    }
  }

  /** A holder makes its limiter nonempty, so giving a permit back never blocks; the holder of the mutex
      keeps it locked. */
  lemma HoldersCount(f: FleetState, k: nat, i: nat)
    requires FleetOk(f) && k < |f.classes| && i < |f.classes[k].actors|
    ensures f.mintUsed >= HoldsMint(f.classes[k].actors[i])
    ensures f.launchUsed >= HoldsLaunch(f.classes[k].actors[i])
    ensures f.resolverUsed >= HoldsResolver(f.classes[k].actors[i])
  {
    HeldNonNegative(f);
    TotalBounds(f.classes[k].actors, i, HoldsMint);
    TotalBounds(f.classes[k].actors, i, HoldsLaunch);
    TotalBounds(f.classes[k].actors, i, HoldsResolver);
    TotalBounds(f.classes, k, MintHeld);
    TotalBounds(f.classes, k, LaunchHeld);
    TotalBounds(f.classes, k, ResolverHeld);
  }

  predicate Takes(op: PermitOp) {
    op.TakeMint? || op.TakeLaunch? || op.LockResolver?
  }

  lemma ReleaseNeverBlocks(f: FleetState, k: nat, i: nat, c: Choice)
    requires FleetOk(f) && k < |f.classes| && CanAct(f.classes[k], i, c)
    requires !Takes(Operation(f.classes[k].actors[i].pc, c))
    ensures FleetEnabled(f, k, Act(i, c))
  {
    HoldersCount(f, k, i);
  }

  // ----- deadlock freedom -----

  /** A step of the program itself, as opposed to the clock, the listener, the ticker or the host. */
  predicate Internal(e: Event) {
    e.Act? || e.SweepSnapshot? || e.SweepDispatch? || e.SweepCut? || e.SweepJoin? || e.ListReturn? || e.ReadNames?
      || e.JoinTasks?
  }

  /** Work remains: an actor is not done, a sweep is under way, or the shutdown has not joined. */
  ghost predicate HasWork(s: State) {
    !Quiescent(s) || !s.reaper.Asleep? || s.phase.Draining?
  }

  /** No actor waits for a permit while it holds one, or the mutex. */
  lemma NoHoldAndWait(a: Actor)
    requires Acquires(a.pc)
    ensures HoldsMint(a) == 0 && HoldsLaunch(a) == 0 && HoldsResolver(a) == 0
  {}

  predicate Live(f: FleetState, k: nat, i: nat) {
    k < |f.classes| && i < |f.classes[k].actors| && !f.classes[k].actors[i].pc.Done?
  }

  /** Live, and waiting neither for a permit nor for the mutex. */
  predicate Movable(f: FleetState, k: nat, i: nat) {
    Live(f, k, i) && !Acquires(f.classes[k].actors[i].pc) && f.classes[k].actors[i].pc != Prep(ResolveWait)
  }

  predicate WaitsForResolver(f: FleetState, k: nat, i: nat) {
    Live(f, k, i) && f.classes[k].actors[i].pc == Prep(ResolveWait)
  }

  /** Such an actor can step, or the holder of the spawnMu it waits for can. */
  lemma MovableSteps(f: FleetState, k: nat, i: nat) returns (j: nat, c: Choice)
    requires FleetOk(f) && Movable(f, k, i)
    ensures FleetEnabled(f, k, Act(j, c))
  {
    var s := f.classes[k];
    var n := AnotherName(s.hist.prior + s.hist.owner.Keys);
    c := Choice(false, n, 0);
    j := if TakesSpawnMu(s.actors[i].pc) && s.spawnMu.Held? then s.spawnMu.holder else i;
    ReleaseNeverBlocks(f, k, j, c);
  }

  /** If nobody can move, the mutex is free. */
  lemma NobodyResolving(f: FleetState)
    requires FleetOk(f) && forall k: nat, i: nat :: !Movable(f, k, i)
    ensures f.resolverUsed == 0
  {
    forall k | 0 <= k < |f.classes| ensures ResolverHeld(f.classes[k]) == 0 {
      forall i | 0 <= i < |f.classes[k].actors| ensures HoldsResolver(f.classes[k].actors[i]) == 0 {
        assert !Movable(f, k, i);
      }
      TotalZero(f.classes[k].actors, HoldsResolver);
    }
    TotalZero(f.classes, ResolverHeld);
  }

  /** If every live actor waits for a permit, all slots are free. */
  lemma AllWaitingMeansFree(f: FleetState)
    requires FleetOk(f)
    requires forall k: nat, i: nat :: Live(f, k, i) ==> Acquires(f.classes[k].actors[i].pc)
    ensures f.mintUsed == 0 && f.launchUsed == 0
  {
    forall k | 0 <= k < |f.classes| ensures MintHeld(f.classes[k]) == 0 && LaunchHeld(f.classes[k]) == 0 {
      forall i | 0 <= i < |f.classes[k].actors|
        ensures HoldsMint(f.classes[k].actors[i]) == 0 && HoldsLaunch(f.classes[k].actors[i]) == 0
      {
        if Live(f, k, i) {
          NoHoldAndWait(f.classes[k].actors[i]);
        }
      }
      TotalZero(f.classes[k].actors, HoldsMint);
      TotalZero(f.classes[k].actors, HoldsLaunch);
    }
    TotalZero(f.classes, MintHeld);
    TotalZero(f.classes, LaunchHeld);
  }

  /** The records of the names in `left`, in some order. */
  lemma SnapshotOf(t: Registry, left: set<Name>) returns (order: seq<Record>)
    requires left <= t.Keys && forall n :: n in t ==> t[n].name == n
    ensures forall k :: 0 <= k < |order| ==> order[k].name in left && t[order[k].name] == order[k]
    ensures forall n :: n in left ==> t[n] in order
    ensures forall k, l :: 0 <= k < l < |order| ==> order[k].name != order[l].name
    decreases left
  {
    order := [];
    if left != {} {
      var n :| n in left;
      var rest := SnapshotOf(t, left - {n});
      order := [t[n]] + rest;
    }
  }

  lemma SnapshotTaken(s: State) returns (order: seq<Record>)
    requires Safe(s)
    ensures IsSnapshot(s.tracker, order)
  {
    forall n | n in s.tracker ensures s.tracker[n].name == n { assert NameOk(s, n); }
    order := SnapshotOf(s.tracker, s.tracker.Keys);
  }

  /** A permit is free, so parallelReap can hand out the next index, or is through with them. */
  lemma HandOutSteps(f: FleetState, k: nat) returns (e: Event)
    requires k < |f.classes| && f.launchUsed < f.launchCapacity
      && (f.classes[k].reaper.Handing? || f.classes[k].reaper.Sweeping?)
    ensures FleetEnabled(f, k, e) && Internal(e)
  {
    var rest := if f.classes[k].reaper.Handing? then |f.classes[k].reaper.queue| else |f.classes[k].reaper.orphans|;
    e := if rest == 0 then SweepCut else SweepDispatch;
  }

  /** With no live actor the reaper, or the join of the shutdown, can go on. */
  lemma ReaperSteps(f: FleetState, k: nat) returns (e: Event)
    requires FleetOk(f) && k < |f.classes| && Quiescent(f.classes[k]) && f.launchUsed == 0
    requires !f.classes[k].reaper.Asleep? || f.classes[k].phase.Draining?
    ensures FleetEnabled(f, k, e) && Internal(e)
  {
    var s := f.classes[k];
    match s.reaper
    case Woken(_) =>
      var order := SnapshotTaken(s);
      e := SweepSnapshot(order);
    case Handing(_, _) => e := HandOutSteps(f, k);
    case HandedJoin => e := SweepJoin;
    case Listing => e := ListReturn(false, []);
    case Listed(_) => e := ReadNames;
    case Sweeping(_) => e := HandOutSteps(f, k);
    case SweptJoin => e := SweepJoin;
    case Asleep => e := JoinTasks;
  }

  lemma WaiterSteps(f: FleetState, k: nat, i: nat)
    requires FleetOk(f) && f.mintUsed == 0 && f.launchUsed == 0 && Live(f, k, i) && Acquires(f.classes[k].actors[i].pc)
    ensures FleetEnabled(f, k, Act(i, Choice(true, "", 0)))
  {}

  lemma NobodyLive(f: FleetState, k: nat)
    requires k < |f.classes| && forall c: nat, i: nat :: !Live(f, c, i)
    ensures Quiescent(f.classes[k])
  {
    forall i | 0 <= i < |f.classes[k].actors| ensures f.classes[k].actors[i].pc.Done? {
      assert !Live(f, k, i);
    }
  }

  /** All live actors wait for permits: one of them can step, or the reaper can. */
  lemma PermitsFree(f: FleetState) returns (k: nat, e: Event)
    requires FleetOk(f) && exists b: nat :: b < |f.classes| && HasWork(f.classes[b])
    requires forall k: nat, i: nat :: Live(f, k, i) ==> Acquires(f.classes[k].actors[i].pc)
    ensures FleetEnabled(f, k, e) && Internal(e)
  {
    AllWaitingMeansFree(f);
    if c: nat, i: nat :| Live(f, c, i) {
      WaiterSteps(f, c, i);
      k, e := c, Act(i, Choice(true, "", 0));
    } else {
      k :| k < |f.classes| && HasWork(f.classes[k]);
      NobodyLive(f, k);
      e := ReaperSteps(f, k);
    }
  }

  /** Whatever the classes are doing, as long as work remains in one of them some step of the program is
      possible: no wait for permits, for the resolver, for spawnMu or for workers can close into a cycle.
      Whoever neither waits for a permit nor for the mutex can step; if there is none, the mutex is free for
      those that wait for it; and if there are none of these either, all permits are free. */
  lemma DeadlockFree(f: FleetState) returns (k: nat, e: Event)
    requires FleetOk(f) && exists b: nat :: b < |f.classes| && HasWork(f.classes[b])
    ensures FleetEnabled(f, k, e) && Internal(e)
  {
    if c: nat, i: nat :| Movable(f, c, i) {
      var j, choice := MovableSteps(f, c, i);
      k, e := c, Act(j, choice);
    } else {
      NobodyResolving(f);
      if c: nat, i: nat :| WaitsForResolver(f, c, i) {
        k, e := c, Act(i, Choice(true, "", 0));
      } else {
        forall c: nat, i: nat | Live(f, c, i) ensures Acquires(f.classes[c].actors[i].pc) {
          assert !Movable(f, c, i) && !WaitsForResolver(f, c, i);
        }
        k, e := PermitsFree(f);
      }
    }
  }

  lemma DeadlockFreeFromStart(f0: FleetState, es: seq<(nat, Event)>, b: nat) returns (k: nat, e: Event)
    requires FleetInit(f0) && FleetLegal(f0, es) && b < |FleetExec(f0, es).classes|
      && HasWork(FleetExec(f0, es).classes[b])
    ensures FleetEnabled(FleetExec(f0, es), k, e) && Internal(e)
  {
    FleetStarts(f0);
    PermitsConserved(f0, es);
    k, e := DeadlockFree(FleetExec(f0, es));
  }
}
