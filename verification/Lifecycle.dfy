/** One orchestrator as a state machine. Its actors are the calls of the listener's three
    handlers, the spawn tasks, the reaper goroutine and the workers it hands records and
    orphans to. One step is one section under a mutex, or the start or the return of one
    external call; a run is any interleaving of steps. */
module Lifecycle {
  import opened Tracking

  // ----- actors -----

  datatype Role = Scaler | Spawner | Starter | Completer | Worker | Sweeper

  // Program counters, grouped by the stretch of the program they lie in. A call into Incus
  // or GitHub has one position before it is made and one while it is in flight.

  /** HandleDesiredRunnerCount: reserve under spawnMu, then start one task per reservation. */
  datatype ScalePc = Reserve | Reserving | Starting | Refunding

  /** HandleJobStarted; HandleJobCompleted and reapTracked before they terminate. */
  datatype HandlePc = MarkBusy | Lookup | Judge

  /** spawnIdleRunner before it has a name. While it is resolving it holds the mutex of the release
      resolver, which all classes share. */
  datatype PrepPc = MintWait | ResolveWait | Resolving | Naming

  /** spawnIdleRunner from the name to the record. */
  datatype MintPc = Minting | Rendering | PreDeregister | PreDeregistering | AddWait

  /** spawnIdleRunner's deferred calls on an early return. */
  datatype UnwindPc = UnwindMint | Settle

  /** From the record to the return of Launch: the launch lies ahead or is in flight. */
  datatype AheadPc = Added | DropMint | LaunchWait | PreCheck | LaunchCall | LaunchFlight

  /** The launch is over and the spawn task has not yet told the tracker. */
  datatype VerdictPc = MarkIdle | AbortRemove | QuitRemove

  /** terminateInstance. */
  datatype TermPc = TermMark | TermRemove | StopCall | Stopping | DeleteCall | Deleting

  /** What follows it for an actor that holds a launch permit. */
  datatype ExitPc = Deregister | Deregistering | DropLaunch

  /** The same without a launch permit, when shutdown beat the launch to it. */
  datatype QuitPc = QuitDeregister | QuitDeregistering

  datatype Pc =
    | Scale(scale: ScalePc)
    | Handle(handle: HandlePc)
    | Prep(prep: PrepPc)
    | Mint(mint: MintPc)
    | Unwind(unwind: UnwindPc)
    | Ahead(ahead: AheadPc)
    | Verdict(verdict: VerdictPc)
    | Term(term: TermPc)
    | Exit(exit: ExitPc)
    | Quit(quit: QuitPc)
    | Done

  /** `at` is the clock reading an actor carries, `target`, `size` and `left` belong to scalers,
      `stale` is a worker's verdict on the record it was handed. */
  datatype Actor = Actor(
    role: Role, pc: Pc, name: Name, id: int, at: int,
    target: nat, size: nat, left: int, stale: bool)

  function NewScaler(target: nat): Actor { Actor(Scaler, Scale(Reserve), "", 0, 0, target, 0, 0, false) }
  function NewSpawner(): Actor { Actor(Spawner, Prep(MintWait), "", 0, 0, 0, 0, 0, false) }
  function NewStarter(n: Name, at: int): Actor { Actor(Starter, Handle(MarkBusy), n, 0, at, 0, 0, 0, false) }
  function NewCompleter(n: Name): Actor { Actor(Completer, Handle(Lookup), n, 0, 0, 0, 0, 0, false) }
  function NewWorker(r: Record, stale: bool): Actor { Actor(Worker, Handle(Judge), r.name, r.id, 0, 0, 0, 0, stale) }
  function NewSweeper(n: Name): Actor { Actor(Sweeper, Term(StopCall), n, 0, 0, 0, 0, 0, false) }

  /** In terminateInstance, past its decision that the launch is over. */
  predicate Tearing(pc: Pc) {
    pc.Term? && pc.term != TermMark
  }

  /** Reservations an actor has not settled: a scaler's unstarted ones, and the one a spawn
      task keeps until it is a record or given back. */
  function Reservations(a: Actor): int {
    match a.pc
    case Scale(Starting) => a.left
    case Scale(Refunding) => a.left
    case Prep(_) => 1
    case Mint(_) => 1
    case Unwind(_) => 1
    case Ahead(Added) => 1
    case _ => 0
  }

  // ----- the orchestrator's state -----

  datatype Config = Config(maxRunners: nat, registrationTimeout: int, maxJobDuration: int, baked: bool)

  datatype Lock = Free | Held(holder: nat)

  datatype Phase = Running | Draining | Joined

  /** The reaper goroutine: asleep, handing out a snapshot, waiting for its workers, listing. */
  datatype Reaper =
    | Asleep
    | Woken(now: int)
    | Handing(queue: seq<Record>, now: int)
    | HandedJoin
    | Listing
    | Listed(listing: seq<Name>)
    | Sweeping(orphans: seq<Name>)
    | SweptJoin

  /** What has happened so far. None of it is read by the program.
      prior      instances of this scale set left by an earlier process
      owner      the spawn task that chose each runner name
      minted     the GitHub registration minted for each name
      stamped    the mintedAt that each runner was given before its record was added
      born       names whose record was ever added
      removed    names whose record was removed
      launched   names whose Launch call was made
      finished   names whose Launch call returned, or was given up before it was made
      early      names a job-started event reached before they were finished
      premature  names a job-started event reached before they were stamped */
  datatype History = History(
    prior: set<Name>, owner: map<Name, nat>, minted: map<Name, int>, stamped: map<Name, int>, born: set<Name>,
    removed: set<Name>, launched: set<Name>, finished: set<Name>, early: set<Name>, premature: set<Name>)

  /** The accounts. None of them is read by the program.
      passed     registrations handed to RemoveRunner
      completed  names whose record a job-completed event removed
      peak       the largest clamped target so far
      granted    reservations made, and `aborted` those given back without a record */
  datatype Books = Books(passed: set<(Name, int)>, completed: set<Name>, peak: nat, granted: nat, aborted: nat)

  datatype State = State(
    cfg: Config, tracker: Registry, inflight: int, spawnMu: Lock, ctxDone: bool, phase: Phase,
    actors: seq<Actor>, reaper: Reaper, remote: set<Name>, clock: int, hist: History, books: Books)

  ghost predicate Init(s: State) {
    && s.tracker == map[] && s.inflight == 0 && s.spawnMu == Free && !s.ctxDone && s.phase == Running
    && s.actors == [] && s.reaper == Asleep
    && s.hist == History(s.remote, map[], map[], map[], {}, {}, {}, {}, {}, {})
    && s.books == Books({}, {}, 0, 0, 0)
  }

  // ----- steps -----

  /** What an actor's step depends on beyond the state: whether a call succeeded or a permit
      was granted, the name chosen, the registration GitHub returned (0 for none). */
  datatype Choice = Choice(ok: bool, name: Name, id: int)

  datatype Event =
    | Tick(now: int)
    | Cancel
    | Appear(name: Name)
    | Vanish(name: Name)
    | DesiredCount(count: int)
    | JobStarted(name: Name)
    | JobCompleted(name: Name)
    | Act(actor: nat, choice: Choice)
    | SweepWake
    | SweepSnapshot(order: seq<Record>)
    | SweepDispatch
    | SweepCut
    | SweepJoin
    | ListReturn(ok: bool, listing: seq<Name>)
    | ReadNames
    | BeginShutdown
    | JoinTasks

  function Clamp(count: int, max: nat): nat {
    var capped := if count > max then max else count;
    if capped < 0 then 0 else capped
  }

  function ScaleUp(target: nat, size: nat, inflight: int): nat {
    if target - (size + inflight) > 0 then target - (size + inflight) else 0
  }

  /** The zero time lies far enough back to be past any duration. */
  predicate TimedOut(cfg: Config, r: Record, now: int) {
    match r.state
    case Busy => r.busyAt.None? || now - r.busyAt.value > cfg.maxJobDuration
    case _ => now - r.mintedAt > cfg.registrationTimeout
  }

  /** The listing's entries the registry does not know, in listing order. */
  function Orphans(listing: seq<Name>, known: set<Name>): seq<Name> {
    if listing == [] then []
    else if listing[0] in known then Orphans(listing[1..], known)
    else [listing[0]] + Orphans(listing[1..], known)
  }

  ghost predicate IsListing(remote: set<Name>, listing: seq<Name>) {
    && (forall k :: 0 <= k < |listing| ==> listing[k] in remote)
    && (forall n :: n in remote ==> n in listing)
    && (forall k, l :: 0 <= k < l < |listing| ==> listing[k] != listing[l])
  }

  /** No actor of this role is at work. */
  ghost predicate AllDone(actors: seq<Actor>, role: Role) {
    forall k :: 0 <= k < |actors| && actors[k].role == role ==> actors[k].pc.Done?
  }

  /** The section that comes next takes spawnMu. */
  predicate TakesSpawnMu(pc: Pc) {
    pc == Scale(Reserve) || pc == Scale(Refunding) || pc == Mint(AddWait) || pc == Unwind(Settle)
  }

  /** The next step is limiter.acquire, which may fail only once the lifecycle context is cancelled. */
  predicate Acquires(pc: Pc) {
    pc == Prep(MintWait) || pc == Ahead(LaunchWait)
  }

  /** The actor's next step can be taken with this choice. Names are assumed fresh. */
  predicate CanAct(s: State, i: nat, c: Choice) {
    && i < |s.actors|
    && var pc := s.actors[i].pc;
    && !pc.Done?
    && (TakesSpawnMu(pc) ==> s.spawnMu.Free?)
    && (Acquires(pc) && !c.ok ==> !s.phase.Running?)
    && (pc == Prep(Naming) ==> c.name != "" && c.name !in s.hist.prior && c.name !in s.hist.owner)
  }

  /** A job event without a runner name is dropped by its handler. */
  ghost predicate Enabled(s: State, e: Event) {
    match e
    case Tick(now) => now >= s.clock
    case Cancel => true
    case Appear(n) => n in s.hist.launched
    case Vanish(n) => true
    case DesiredCount(count) => true
    case JobStarted(n) => n != ""
    case JobCompleted(n) => n != ""
    case Act(i, c) => CanAct(s, i, c)
    case SweepWake => s.phase.Running? && s.reaper.Asleep?
    case SweepSnapshot(order) => s.reaper.Woken? && IsSnapshot(s.tracker, order)
    case SweepDispatch => (s.reaper.Handing? && s.reaper.queue != []) || (s.reaper.Sweeping? && s.reaper.orphans != [])
    case SweepCut =>
      (s.reaper.Handing? && (s.ctxDone || s.reaper.queue == []))
      || (s.reaper.Sweeping? && (s.ctxDone || s.reaper.orphans == []))
    case SweepJoin =>
      (s.reaper.HandedJoin? && AllDone(s.actors, Worker)) || (s.reaper.SweptJoin? && AllDone(s.actors, Sweeper))
    case ListReturn(ok, listing) => s.reaper.Listing? && (ok ==> IsListing(s.remote, listing))
    case ReadNames => s.reaper.Listed?
    case BeginShutdown => s.phase.Running? && s.reaper.Asleep? && s.ctxDone
    case JoinTasks => s.phase.Draining? && AllDone(s.actors, Spawner)
  }

  function Goto(s: State, i: nat, pc: Pc): State
    requires i < |s.actors|
  {
    s.(actors := s.actors[i := s.actors[i].(pc := pc)])
  }

  /** tracker.remove, with what it does to the history. */
  function Removing(s: State, n: Name): State {
    s.(tracker := Without(s.tracker, n),
       hist := if n in s.tracker then s.hist.(removed := s.hist.removed + {n}) else s.hist)
  }

  /** removeRunnerByID: a zero ID is skipped, any other is handed to RemoveRunner. */
  function Passing(s: State, i: nat, called: Pc, skipped: Pc): State
    requires i < |s.actors|
  {
    var a := s.actors[i];
    if a.id == 0 then Goto(s, i, skipped)
    else Goto(s, i, called).(books := s.books.(passed := s.books.passed + {(a.name, a.id)}))
  }

  /** Where an actor goes once terminateInstance returned to it. */
  function AfterTerminate(role: Role): Pc {
    match role
    case Completer => Done
    case Sweeper => Exit(DropLaunch)
    case _ => Exit(Deregister)
  }

  function ActScale(s: State, i: nat): State
    requires i < |s.actors| && s.actors[i].pc.Scale?
  {
    var a, b := s.actors[i], s.books;
    var next := a.(pc := if a.left == 1 then Done else Scale(Starting), left := a.left - 1);
    match a.pc.scale
    case Reserve =>
      s.(spawnMu := Held(i), actors := s.actors[i := a.(pc := Scale(Reserving), size := |s.tracker|)])
    case Reserving =>
      var up := ScaleUp(a.target, a.size, s.inflight);
      s.(spawnMu := Free, inflight := s.inflight + up,
         actors := s.actors[i := a.(pc := if up == 0 then Done else Scale(Starting), left := up)],
         books := b.(granted := b.granted + up, peak := if a.target > b.peak then a.target else b.peak))
    case Starting =>
      if !s.phase.Running? then Goto(s, i, Scale(Refunding))
      else s.(actors := s.actors[i := next] + [NewSpawner()])
    case Refunding =>
      s.(inflight := s.inflight - 1, actors := s.actors[i := next], books := b.(aborted := b.aborted + 1))
  }

  function ActHandle(s: State, i: nat): State
    requires i < |s.actors| && s.actors[i].pc.Handle?
  {
    var a := s.actors[i];
    match a.pc.handle
    case MarkBusy => Goto(s, i, Done).(tracker := WithBusy(s.tracker, a.name, a.at))
    case Lookup => Goto(s, i, if a.name in s.tracker then Term(TermMark) else Done)
    case Judge => Goto(s, i, if a.stale then Term(TermMark) else Exit(DropLaunch))
  }

  function ActPrep(s: State, i: nat, c: Choice): State
    requires i < |s.actors| && s.actors[i].pc.Prep?
  {
    var a, h := s.actors[i], s.hist;
    match a.pc.prep
    case MintWait =>
      Goto(s, i, if !c.ok then Unwind(Settle) else if s.cfg.baked then Prep(Naming) else Prep(ResolveWait))
    case ResolveWait => Goto(s, i, Prep(Resolving))
    case Resolving => Goto(s, i, if c.ok then Prep(Naming) else Unwind(UnwindMint))
    case Naming =>
      s.(actors := s.actors[i := a.(pc := Mint(Minting), name := c.name)],
              hist := h.(owner := h.owner[c.name := i]))
  }

  function ActMint(s: State, i: nat, c: Choice): State
    requires i < |s.actors| && s.actors[i].pc.Mint?
  {
    var a, h := s.actors[i], s.hist;
    match a.pc.mint
    case Minting =>
      if !c.ok then Goto(s, i, Unwind(UnwindMint))
      else s.(actors := s.actors[i := a.(pc := Mint(Rendering), id := c.id)],
              hist := h.(minted := h.minted[a.name := c.id]))
    case Rendering =>
      if !c.ok then Goto(s, i, Mint(PreDeregister))
      else s.(actors := s.actors[i := a.(pc := Mint(AddWait), at := s.clock)],
              hist := h.(stamped := h.stamped[a.name := s.clock]))
    case PreDeregister => Passing(s, i, Mint(PreDeregistering), Unwind(UnwindMint))
    case PreDeregistering => Goto(s, i, Unwind(UnwindMint))
    case AddWait =>
      Goto(s, i, Ahead(Added))
        .(spawnMu := Held(i), tracker := s.tracker[a.name := NewRecord(a.name, a.id, a.at)],
          hist := h.(born := h.born + {a.name}))
  }

  function ActUnwind(s: State, i: nat): State
    requires i < |s.actors| && s.actors[i].pc.Unwind?
  {
    match s.actors[i].pc.unwind
    case UnwindMint => Goto(s, i, Unwind(Settle))
    case Settle =>
      Goto(s, i, Done).(inflight := s.inflight - 1, books := s.books.(aborted := s.books.aborted + 1))
  }

  function ActAhead(s: State, i: nat, c: Choice): State
    requires i < |s.actors| && s.actors[i].pc.Ahead?
  {
    var a, h := s.actors[i], s.hist;
    var over := h.(finished := h.finished + {a.name});
    match a.pc.ahead
    case Added => Goto(s, i, Ahead(DropMint)).(spawnMu := Free, inflight := s.inflight - 1)
    case DropMint => Goto(s, i, Ahead(LaunchWait))
    case LaunchWait =>
      if c.ok then Goto(s, i, Ahead(PreCheck)) else Goto(s, i, Verdict(QuitRemove)).(hist := over)
    case PreCheck =>
      if PendingIn(s.tracker, a.name) then Goto(s, i, Verdict(AbortRemove)).(hist := over)
      else Goto(s, i, Ahead(LaunchCall))
    case LaunchCall => Goto(s, i, Ahead(LaunchFlight)).(hist := h.(launched := h.launched + {a.name}))
    case LaunchFlight => Goto(s, i, if c.ok then Verdict(MarkIdle) else Verdict(AbortRemove)).(hist := over)
  }

  function ActVerdict(s: State, i: nat): State
    requires i < |s.actors| && s.actors[i].pc.Verdict?
  {
    var a := s.actors[i];
    match a.pc.verdict
    case MarkIdle =>
      Goto(s, i, if PendingIn(s.tracker, a.name) then Term(TermMark) else Exit(DropLaunch))
        .(tracker := WithIdle(s.tracker, a.name, s.clock))
    case AbortRemove => Removing(Goto(s, i, Exit(Deregister)), a.name)
    case QuitRemove => Removing(Goto(s, i, Quit(QuitDeregister)), a.name)
  }

  function ActTerm(s: State, i: nat, c: Choice): State
    requires i < |s.actors| && s.actors[i].pc.Term?
  {
    var a := s.actors[i];
    match a.pc.term
    case TermMark =>
      var defer := a.name in s.tracker && s.tracker[a.name].state == Launching;
      Goto(s, i, if defer then AfterTerminate(a.role) else Term(TermRemove))
        .(tracker := WithPending(s.tracker, a.name))
    case TermRemove =>
      var s' := Removing(Goto(s, i, Term(StopCall)), a.name);
      if a.role.Completer? && a.name in s.tracker
      then s'.(books := s.books.(completed := s.books.completed + {a.name})) else s'
    case StopCall => Goto(s, i, Term(Stopping))
    case Stopping => Goto(s, i, Term(DeleteCall))
    case DeleteCall => Goto(s, i, Term(Deleting))
    case Deleting =>
      Goto(s, i, AfterTerminate(a.role)).(remote := if c.ok then s.remote - {a.name} else s.remote)
  }

  function ActExit(s: State, i: nat): State
    requires i < |s.actors| && s.actors[i].pc.Exit?
  {
    match s.actors[i].pc.exit
    case Deregister => Passing(s, i, Exit(Deregistering), Exit(DropLaunch))
    case Deregistering => Goto(s, i, Exit(DropLaunch))
    case DropLaunch => Goto(s, i, Done)
  }

  function ActQuit(s: State, i: nat): State
    requires i < |s.actors| && s.actors[i].pc.Quit?
  {
    match s.actors[i].pc.quit
    case QuitDeregister => Passing(s, i, Quit(QuitDeregistering), Done)
    case QuitDeregistering => Goto(s, i, Done)
  }

  function ActStep(s: State, i: nat, c: Choice): State
    requires i < |s.actors| && !s.actors[i].pc.Done?
  {
    match s.actors[i].pc
    case Scale(_) => ActScale(s, i)
    case Handle(_) => ActHandle(s, i)
    case Prep(_) => ActPrep(s, i, c)
    case Mint(_) => ActMint(s, i, c)
    case Unwind(_) => ActUnwind(s, i)
    case Ahead(_) => ActAhead(s, i, c)
    case Verdict(_) => ActVerdict(s, i)
    case Term(_) => ActTerm(s, i, c)
    case Exit(_) => ActExit(s, i)
    case Quit(_) => ActQuit(s, i)
  }

  /** One hand-over of parallelReap: the next index becomes a goroutine. */
  function Dispatch(s: State): State {
    match s.reaper
    case Handing(queue, now) =>
      if queue == [] then s
      else s.(reaper := Handing(queue[1..], now),
              actors := s.actors + [NewWorker(queue[0], TimedOut(s.cfg, queue[0], now))])
    case Sweeping(orphans) =>
      if orphans == [] then s
      else s.(reaper := Sweeping(orphans[1..]), actors := s.actors + [NewSweeper(orphans[0])])
    case _ => s
  }

  /** A job-started event for n arrives. */
  function Heard(h: History, n: Name): History {
    h.(early := if n in h.finished then h.early else h.early + {n},
       premature := if n in h.stamped then h.premature else h.premature + {n})
  }

  ghost function Apply(s: State, e: Event): State
    requires Enabled(s, e)
  {
    match e
    case Tick(now) => s.(clock := now)
    case Cancel => s.(ctxDone := true)
    case Appear(n) => s.(remote := s.remote + {n})
    case Vanish(n) => s.(remote := s.remote - {n})
    case DesiredCount(count) => s.(actors := s.actors + [NewScaler(Clamp(count, s.cfg.maxRunners))])
    case JobStarted(n) =>
      s.(actors := s.actors + [NewStarter(n, s.clock)],
         hist := Heard(s.hist, n))
    case JobCompleted(n) => s.(actors := s.actors + [NewCompleter(n)])
    case Act(i, c) => ActStep(s, i, c)
    case SweepWake => s.(reaper := Woken(s.clock))
    case SweepSnapshot(order) => s.(reaper := Handing(order, s.reaper.now))
    case SweepDispatch => Dispatch(s)
    case SweepCut => s.(reaper := if s.reaper.Handing? then HandedJoin else SweptJoin)
    case SweepJoin => s.(reaper := if s.reaper.HandedJoin? && !s.ctxDone then Listing else Asleep)
    case ListReturn(ok, listing) => s.(reaper := if ok then Listed(listing) else Asleep)
    case ReadNames => s.(reaper := Sweeping(Orphans(s.reaper.listing, s.tracker.Keys)))
    case BeginShutdown => s.(phase := Draining)
    case JoinTasks => s.(phase := Joined)
  }

  // ----- runs -----

  ghost predicate Legal(s: State, es: seq<Event>)
    decreases |es|
  {
    es == [] || (Enabled(s, es[0]) && Legal(Apply(s, es[0]), es[1..]))
  }

  ghost function Exec(s: State, es: seq<Event>): State
    requires Legal(s, es)
    decreases |es|
  {
    if es == [] then s else Exec(Apply(s, es[0]), es[1..])
  }

  /** Nothing is being done: every actor finished. */
  ghost predicate Quiescent(s: State) {
    forall k :: 0 <= k < |s.actors| ==> s.actors[k].pc.Done?
  }
}
