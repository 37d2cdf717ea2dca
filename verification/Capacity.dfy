/** Reservations and the capacity bound: spawnInflight is the sum of what the actors have
    reserved and not settled, and tracked plus in-flight runners stay within the target. */
module Capacity {
  import opened Tracking
  import opened Lifecycle
  import opened LifecycleInvariant
  import opened LifecycleAccounts
  import opened Sums

  // ----- the invariant -----

  /** Between the two halves of a section under spawnMu. */
  predicate Critical(pc: Pc) {
    pc == Scale(Reserving) || pc == Ahead(Added)
  }

  /** spawnMu is held exactly by the actor inside its section. */
  ghost predicate LockOk(s: State) {
    && (s.spawnMu.Held? ==> s.spawnMu.holder < |s.actors| && Critical(s.actors[s.spawnMu.holder].pc))
    && (forall j :: 0 <= j < |s.actors| && Critical(s.actors[j].pc) ==> s.spawnMu == Held(j))
  }

  /** The record of the holder is added and its reservation not yet taken back. */
  predicate MidAdd(s: State) {
    s.spawnMu.Held? && s.spawnMu.holder < |s.actors| && s.actors[s.spawnMu.holder].pc == Ahead(Added)
  }

  predicate MidReserve(s: State) {
    s.spawnMu.Held? && s.spawnMu.holder < |s.actors| && s.actors[s.spawnMu.holder].pc == Scale(Reserving)
  }

  ghost predicate CountsOk(s: State) {
    var twice := if MidAdd(s) then 1 else 0;
    && s.inflight == Total(s.actors, Reservations)
    && s.books.granted + twice == s.inflight + s.books.aborted + |s.hist.born|
    && |s.tracker| + s.inflight <= s.books.peak + twice
    && s.books.peak <= s.cfg.maxRunners
    && (MidReserve(s) ==> |s.tracker| <= s.actors[s.spawnMu.holder].size)
    && (forall j :: 0 <= j < |s.actors| ==> s.actors[j].target <= s.cfg.maxRunners)
  }

  ghost predicate CapacityOk(s: State) {
    LockOk(s) && CountsOk(s)
  }

  lemma CapacityInit(s: State)
    requires Init(s)
    ensures CapacityOk(s)
  {}

  // ----- steps that do not touch the counters -----

  predicate Bystander(pc: Pc) {
    !pc.Done? && !Critical(pc) && pc != Mint(AddWait) && pc != Unwind(Settle)
    && (pc.Scale? ==> pc == Scale(Starting))
  }

  predicate Outside(s: State, s': State) {
    && s'.inflight == s.inflight && s'.spawnMu == s.spawnMu && s'.cfg == s.cfg
    && s'.books.granted == s.books.granted && s'.books.aborted == s.books.aborted && s'.books.peak == s.books.peak
    && s'.hist.born == s.hist.born
    && s'.tracker.Keys <= s.tracker.Keys
  }

  lemma VerdictOutside(s: State, i: nat)
    requires i < |s.actors| && s.actors[i].pc.Verdict?
    ensures Outside(s, ActVerdict(s, i))
  {}

  lemma TermOutside(s: State, i: nat, c: Choice)
    requires i < |s.actors| && s.actors[i].pc.Term?
    ensures Outside(s, ActTerm(s, i, c))
  {}

  lemma MintOutside(s: State, i: nat, c: Choice)
    requires i < |s.actors| && s.actors[i].pc.Mint? && s.actors[i].pc.mint != AddWait
    ensures Outside(s, ActMint(s, i, c))
  {}

  lemma AheadOutside(s: State, i: nat, c: Choice)
    requires i < |s.actors| && s.actors[i].pc.Ahead? && s.actors[i].pc.ahead != Added
    ensures Outside(s, ActAhead(s, i, c))
  {}

  lemma BystanderOutside(s: State, i: nat, c: Choice)
    requires CanAct(s, i, c) && Bystander(s.actors[i].pc)
    ensures Outside(s, ActStep(s, i, c))
  {
    match s.actors[i].pc
    case Verdict(_) => VerdictOutside(s, i);
    case Term(_) => TermOutside(s, i, c);
    case Mint(_) => MintOutside(s, i, c);
    case Ahead(_) => AheadOutside(s, i, c);
    case _ =>
  }

  lemma SubsetSize<T>(a: set<T>, b: set<T>)
    requires a <= b
    ensures |a| <= |b|
  {
    assert b == a + (b - a);
  }

  lemma SizeMonotone(t: Registry, t': Registry)
    requires t'.Keys <= t.Keys
    ensures |t'| <= |t|
  {
    SubsetSize(t'.Keys, t.Keys);
    assert |t| == |t.Keys| && |t'| == |t'.Keys|;
  }

  /** Moving along an edge passes the reservation on, except where it is settled. */
  lemma ReservationPassedOn(a: Actor, a': Actor)
    requires Steps(a, a') && Bystander(a.pc) && !a.pc.Scale?
    ensures Reservations(a') == Reservations(a) && !Critical(a'.pc)
  {}

  lemma StartingPassesOn(s: State, i: nat)
    requires i < |s.actors| && s.actors[i].pc == Scale(Starting)
    ensures i < |ActScale(s, i).actors|
    ensures var a' := ActScale(s, i).actors[i];
      Reservations(a') + |Started(s, i)| == Reservations(s.actors[i]) && !Critical(a'.pc)
  {}

  /** A step of an actor that is outside every section and stays outside. */
  lemma OthersKeepLock(s: State, s': State, i: nat)
    requires LockOk(s) && i < |s.actors| && !Critical(s.actors[i].pc) && s'.spawnMu == s.spawnMu
    requires |s.actors| <= |s'.actors| && s'.actors == s.actors[i := s'.actors[i]] + Started(s, i)
    requires !Critical(s'.actors[i].pc)
    ensures LockOk(s') && MidAdd(s') == MidAdd(s) && MidReserve(s') == MidReserve(s)
    ensures MidReserve(s) ==> s'.actors[s.spawnMu.holder] == s.actors[s.spawnMu.holder]
  {}

  lemma BystanderKeeps(s: State, i: nat, c: Choice)
    requires CapacityOk(s) && CanAct(s, i, c) && Bystander(s.actors[i].pc)
    ensures CapacityOk(ActStep(s, i, c)) && Outside(s, ActStep(s, i, c))
  {
    var s' := ActStep(s, i, c);
    BystanderOutside(s, i, c);
    EdgeTaken(s, i, c);
    ActShape(s, i, c);
    TotalStep(s, i, c, Reservations);
    if s.actors[i].pc.Scale? {
      StartingPassesOn(s, i);
    } else {
      ReservationPassedOn(s.actors[i], s'.actors[i]);
    }
    SizeMonotone(s.tracker, s'.tracker);
    OthersKeepLock(s, s', i);
  }

  // ----- the sections under spawnMu -----

  /** HandleDesiredRunnerCount takes the lock and reads the tracker's size. */
  lemma ReserveKeeps(s: State, i: nat, c: Choice)
    requires CapacityOk(s) && CanAct(s, i, c) && s.actors[i].pc == Scale(Reserve)
    ensures CapacityOk(ActScale(s, i))
  {
    TotalStep(s, i, c, Reservations);
    ActShape(s, i, c);
  }

  /** It reserves the difference and lets go: the reservation never lifts the sum above the target. */
  lemma ReservingKeeps(s: State, i: nat, c: Choice)
    requires CapacityOk(s) && CanAct(s, i, c) && s.actors[i].pc == Scale(Reserving)
    ensures CapacityOk(ActScale(s, i))
    ensures var s', target := ActScale(s, i), s.actors[i].target;
            s'.inflight == s.inflight || |s'.tracker| + s'.inflight <= target
  {
    TotalStep(s, i, c, Reservations);
    ActShape(s, i, c);
    assert s.spawnMu == Held(i) && MidReserve(s) && !MidAdd(s);
  }

  lemma RefundingKeeps(s: State, i: nat, c: Choice)
    requires CapacityOk(s) && CanAct(s, i, c) && s.actors[i].pc == Scale(Refunding)
    ensures CapacityOk(ActScale(s, i))
  {
    TotalStep(s, i, c, Reservations);
    ActShape(s, i, c);
    var a, a' := s.actors[i], ActScale(s, i).actors[i];
    assert Reservations(a') == Reservations(a) - 1;
  }

  lemma AddShape(s: State, i: nat, c: Choice)
    requires CanAct(s, i, c) && s.actors[i].pc == Mint(AddWait)
    ensures var s', a := ActMint(s, i, c), s.actors[i];
      && s'.actors == s.actors[i := a.(pc := Ahead(Added))] && s'.spawnMu == Held(i)
      && s'.inflight == s.inflight && s'.cfg == s.cfg && s'.books == s.books
      && s'.tracker == s.tracker[a.name := NewRecord(a.name, a.id, a.at)] && s'.hist.born == s.hist.born + {a.name}
  {}

  /** spawnIdleRunner takes the lock and adds its record: for a moment the runner counts twice. */
  lemma AddKeeps(s: State, i: nat, c: Choice)
    requires Core(s) && CapacityOk(s) && CanAct(s, i, c) && s.actors[i].role.Spawner? && s.actors[i].pc == Mint(AddWait)
    ensures CapacityOk(ActMint(s, i, c))
  {
    var n := s.actors[i].name;
    assert n !in s.hist.born && n !in s.tracker by {
      assert ActorOk(i, s.actors[i], s.hist, s.clock) && NameOk(s, n);
    }
    AddShape(s, i, c);
    TotalUpdate(s.actors, i, s.actors[i].(pc := Ahead(Added)), Reservations);
  }

  lemma AddedKeeps(s: State, i: nat, c: Choice)
    requires CapacityOk(s) && CanAct(s, i, c) && s.actors[i].pc == Ahead(Added)
    ensures CapacityOk(ActAhead(s, i, c))
  {
    assert s.spawnMu == Held(i) && MidAdd(s);
    TotalStep(s, i, c, Reservations);
    ActShape(s, i, c);
  }

  lemma SettleKeeps(s: State, i: nat, c: Choice)
    requires CapacityOk(s) && CanAct(s, i, c) && s.actors[i].pc == Unwind(Settle)
    ensures CapacityOk(ActUnwind(s, i))
  {
    TotalStep(s, i, c, Reservations);
    ActShape(s, i, c);
  }

  lemma ScaleKeeps(s: State, i: nat, c: Choice)
    requires CapacityOk(s) && CanAct(s, i, c) && s.actors[i].pc.Scale?
    ensures CapacityOk(ActScale(s, i))
  {
    match s.actors[i].pc.scale
    case Reserve => ReserveKeeps(s, i, c);
    case Reserving => ReservingKeeps(s, i, c);
    case Starting => BystanderKeeps(s, i, c);
    case Refunding => RefundingKeeps(s, i, c);
  }

  lemma CapacityAct(s: State, i: nat, c: Choice)
    requires Core(s) && CapacityOk(s) && CanAct(s, i, c)
    ensures CapacityOk(ActStep(s, i, c))
  {
    assert ActorOk(i, s.actors[i], s.hist, s.clock);
    var pc := s.actors[i].pc;
    if pc.Scale? { ScaleKeeps(s, i, c); }
    else if pc == Mint(AddWait) { AddKeeps(s, i, c); }
    else if pc == Ahead(Added) { AddedKeeps(s, i, c); }
    else if pc == Unwind(Settle) { SettleKeeps(s, i, c); }
    else { BystanderKeeps(s, i, c); }
  }

  // ----- all other steps -----

  lemma CapacityStill(s: State, s': State)
    requires CapacityOk(s) && s'.actors == s.actors && Outside(s, s') && s'.tracker == s.tracker
    ensures CapacityOk(s')
  {}

  lemma CapacityArrives(s: State, s': State, a: Actor)
    requires CapacityOk(s) && s'.actors == s.actors + [a] && Outside(s, s') && s'.tracker == s.tracker
    requires Reservations(a) == 0 && !Critical(a.pc) && a.target <= s.cfg.maxRunners
    ensures CapacityOk(s')
  {
    TotalAppend(s.actors, a, Reservations);
  }

  lemma CapacityDispatch(s: State)
    requires CapacityOk(s) && Enabled(s, SweepDispatch)
    ensures CapacityOk(Dispatch(s))
  {
    var s' := Dispatch(s);
    CapacityArrives(s, s', s'.actors[|s.actors|]);
  }

  /** Time, the context, the host, the reaper and the phase are not part of the counts. */
  predicate Elsewhere(e: Event) {
    !e.Act? && !Arrival(e) && !e.SweepDispatch?
  }

  lemma ElsewhereOutside(s: State, e: Event)
    requires Enabled(s, e) && Elsewhere(e)
    ensures var s' := Apply(s, e); s'.actors == s.actors && s'.tracker == s.tracker && Outside(s, s')
  {}

  lemma CapacityApply(s: State, e: Event)
    requires Core(s) && CapacityOk(s) && Enabled(s, e)
    ensures CapacityOk(Apply(s, e))
  {
    if e.Act? {
      CapacityAct(s, e.actor, e.choice);
    } else if Arrival(e) {
      Arrived(s, e);
      CapacityArrives(s, Apply(s, e), Newcomer(s, e));
    } else if e.SweepDispatch? {
      CapacityDispatch(s);
    } else {
      ElsewhereOutside(s, e);
      CapacityStill(s, Apply(s, e));
    }
  }
}
