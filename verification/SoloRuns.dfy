/** The two views of the orchestrator agree: a goroutine of the state machine that nobody interrupts leaves tracker,
    host, counters and registrations as the methods of the orchestrator do. */
module SoloRuns {
  import opened Tracking
  import opened Lifecycle
  import opened LifecycleAccounts
  import opened Orchestration

  /** What the calls of the goroutine bring: the name chosen, the outcomes, and whether Incus deletes. */
  datatype Plan = Plan(n: Name, r: Outcomes, deletable: bool)

  predicate AsPlanned(pc: Pc, c: Choice, p: Plan) {
    match pc
    case Prep(MintWait) => c.ok == p.r.mintSlot
    case Prep(Resolving) => c.ok == p.r.resolved
    case Prep(Naming) => c.name == p.n
    case Mint(Minting) => c.ok == p.r.minted && c.id == p.r.id
    case Mint(Rendering) => c.ok == p.r.rendered
    case Ahead(LaunchWait) => c.ok == p.r.launchSlot
    case Ahead(LaunchFlight) => c.ok == p.r.launched
    case Term(Deleting) => c.ok == p.deletable
    case _ => true
  }

  /** Only actor i steps, and its calls return as planned. */
  ghost predicate SoloRun(s: State, es: seq<Event>, i: nat, p: Plan)
    requires Legal(s, es)
    decreases |es|
  {
    es == [] || (es[0].Act? && es[0].actor == i && i < |s.actors| && AsPlanned(s.actors[i].pc, es[0].choice, p)
                 && SoloRun(Apply(s, es[0]), es[1..], i, p))
  }

  // ----- a spawn task -----

  predicate Through(r: Outcomes) {
    r.launchSlot && r.launched
  }

  /** Tracker, reservations and registrations, compared with those at the start. */
  predicate Ledger(b: State, s: State, p: Plan, tracked: Registry, settled: int, back: bool) {
    && s.tracker == tracked && s.inflight == b.inflight - settled
    && s.books.passed == b.books.passed + (if back && p.r.id != 0 then {(p.n, p.r.id)} else {})
    && s.clock == b.clock && s.cfg == b.cfg && s.remote == b.remote
  }

  function WhileLaunching(b: State, p: Plan): Registry {
    b.tracker[p.n := Record(p.n, p.r.id, b.clock, None, None, Launching, false)]
  }

  function Ending(b: State, p: Plan): Registry {
    if p.r.Tracks() && Through(p.r)
    then b.tracker[p.n := Record(p.n, p.r.id, b.clock, Some(b.clock), None, Idle, false)] else b.tracker
  }

  predicate OfPlan(a: Actor, p: Plan) {
    a.name == p.n && a.id == p.r.id
  }

  predicate EarlyAt(b: State, s: State, a: Actor, p: Plan) {
    && s.spawnMu.Free? && p.n !in b.tracker && (b.cfg.baked ==> p.r.resolved)
    && match a.pc
       case Prep(prep) =>
         && Ledger(b, s, p, b.tracker, 0, false) && (prep != MintWait ==> p.r.mintSlot)
         && (prep == Naming ==> p.r.resolved)
       case Mint(mint) =>
         && Ledger(b, s, p, b.tracker, 0, mint == PreDeregistering) && a.name == p.n
         && p.r.mintSlot && p.r.resolved && (mint != Minting ==> p.r.minted && a.id == p.r.id)
         && (mint == AddWait ==> p.r.rendered && a.at == b.clock)
         && (mint == PreDeregister || mint == PreDeregistering ==> !p.r.rendered)
       case Unwind(_) => Ledger(b, s, p, b.tracker, 0, p.r.Mints()) && !p.r.Tracks()
       case _ => false
  }

  predicate LateAt(b: State, s: State, i: nat, a: Actor, p: Plan) {
    && p.n !in b.tracker && p.r.Tracks() && OfPlan(a, p)
    && s.spawnMu == (if a.pc == Ahead(Added) then Held(i) else Free)
    && match a.pc
       case Ahead(ahead) =>
         && Ledger(b, s, p, WhileLaunching(b, p), if ahead == Added then 0 else 1, false)
         && (ahead == PreCheck || ahead == LaunchCall || ahead == LaunchFlight ==> p.r.launchSlot)
       case Verdict(verdict) =>
         && Ledger(b, s, p, WhileLaunching(b, p), 1, false) && p.r.launchSlot == (verdict != QuitRemove)
         && (verdict == MarkIdle ==> p.r.launched) && (verdict == AbortRemove ==> !p.r.launched)
       case Exit(exit) =>
         && Ledger(b, s, p, Ending(b, p), 1, !Through(p.r) && exit != Deregister)
         && (exit != DropLaunch ==> !Through(p.r))
       case Quit(quit) => Ledger(b, s, p, Ending(b, p), 1, quit != QuitDeregister) && !Through(p.r)
       case _ => false
  }

  predicate SpawnDone(b: State, s: State, p: Plan) {
    s.spawnMu.Free? && Ledger(b, s, p, Ending(b, p), 1, p.r.Mints() && !(p.r.Tracks() && Through(p.r)))
  }

  predicate SpawnAt(b: State, s: State, i: nat, p: Plan) {
    && i < |s.actors| && s.actors[i].role.Spawner?
    && if s.actors[i].pc.Done? then SpawnDone(b, s, p)
       else EarlyAt(b, s, s.actors[i], p) || LateAt(b, s, i, s.actors[i], p)
  }

  lemma PrepAlone(b: State, s: State, i: nat, p: Plan, c: Choice)
    requires CanAct(s, i, c) && SpawnAt(b, s, i, p) && s.actors[i].pc.Prep? && AsPlanned(s.actors[i].pc, c, p)
    ensures SpawnAt(b, ActPrep(s, i, c), i, p)
  {}

  lemma MintAlone(b: State, s: State, i: nat, p: Plan, c: Choice)
    requires CanAct(s, i, c) && EarlyAt(b, s, s.actors[i], p) && AsPlanned(s.actors[i].pc, c, p)
    requires s.actors[i].role.Spawner? && s.actors[i].pc.Mint? && s.actors[i].pc.mint != AddWait
    ensures var s' := ActMint(s, i, c); i < |s'.actors| && s'.actors[i].role.Spawner? && EarlyAt(b, s', s'.actors[i], p)
  {}

  lemma AddAlone(b: State, s: State, i: nat, p: Plan, c: Choice)
    requires CanAct(s, i, c) && EarlyAt(b, s, s.actors[i], p)
    requires s.actors[i].role.Spawner? && s.actors[i].pc == Mint(AddWait)
    ensures var s' := ActMint(s, i, c);
            i < |s'.actors| && s'.actors[i].role.Spawner? && LateAt(b, s', i, s'.actors[i], p)
  {}

  lemma UnwindAlone(b: State, s: State, i: nat, p: Plan)
    requires SpawnAt(b, s, i, p) && s.actors[i].pc.Unwind?
    ensures SpawnAt(b, ActUnwind(s, i), i, p)
  {}

  lemma AheadAlone(b: State, s: State, i: nat, p: Plan, c: Choice)
    requires CanAct(s, i, c) && LateAt(b, s, i, s.actors[i], p) && AsPlanned(s.actors[i].pc, c, p)
    requires s.actors[i].role.Spawner? && s.actors[i].pc.Ahead?
    ensures var s' := ActAhead(s, i, c);
            i < |s'.actors| && s'.actors[i].role.Spawner? && LateAt(b, s', i, s'.actors[i], p)
  {}

  lemma VerdictAlone(b: State, s: State, i: nat, p: Plan)
    requires SpawnAt(b, s, i, p) && s.actors[i].pc.Verdict?
    ensures SpawnAt(b, ActVerdict(s, i), i, p)
  {
    assert Without(WhileLaunching(b, p), p.n) == b.tracker;
  }

  lemma LeaveAlone(b: State, s: State, i: nat, p: Plan, c: Choice)
    requires CanAct(s, i, c) && SpawnAt(b, s, i, p) && (s.actors[i].pc.Exit? || s.actors[i].pc.Quit?)
    ensures SpawnAt(b, ActStep(s, i, c), i, p)
  {}

  lemma SoloStep(b: State, s: State, i: nat, p: Plan, c: Choice)
    requires CanAct(s, i, c) && SpawnAt(b, s, i, p) && AsPlanned(s.actors[i].pc, c, p)
    ensures SpawnAt(b, ActStep(s, i, c), i, p)
  {
    match s.actors[i].pc
    case Prep(_) => PrepAlone(b, s, i, p, c);
    case Mint(AddWait) => AddAlone(b, s, i, p, c);
    case Mint(_) => MintAlone(b, s, i, p, c);
    case Unwind(_) => UnwindAlone(b, s, i, p);
    case Ahead(_) => AheadAlone(b, s, i, p, c);
    case Verdict(_) => VerdictAlone(b, s, i, p);
    case _ => LeaveAlone(b, s, i, p, c);
  }

  lemma {:induction false} SoloSteps(b: State, s: State, i: nat, p: Plan, es: seq<Event>)
    requires SpawnAt(b, s, i, p) && Legal(s, es) && SoloRun(s, es, i, p)
    ensures SpawnAt(b, Exec(s, es), i, p)
    decreases |es|
  {
    if es != [] {
      SoloStep(b, s, i, p, es[0].choice);
      SoloSteps(b, Apply(s, es[0]), i, p, es[1..]);
    }
  }

  /** A spawn task that nobody interrupts. Its runner ends idle and keeps its registration exactly if every call
      succeeds and both permits are granted; otherwise the registry is as before, and a registration that
      GitHub handed out has been given back. It is what SpawnIdleRunner leaves. */
  lemma SpawnAgrees(b: State, i: nat, p: Plan, es: seq<Event>)
    requires i < |b.actors| && b.actors[i].role.Spawner? && b.actors[i].pc == Prep(MintWait) && b.spawnMu.Free?
    requires p.n !in b.tracker && (b.cfg.baked ==> p.r.resolved) && p.r.waiting == [] && p.r.meanwhile == []
    requires Legal(b, es) && SoloRun(b, es, i, p) && i < |Exec(b, es).actors| && Exec(b, es).actors[i].pc.Done?
    ensures var t, r := Exec(b, es), p.r;
            var minted := r.mintSlot && r.resolved && r.minted;
            var through := minted && r.rendered && r.launchSlot && r.launched;
            && t.inflight == b.inflight - 1 && t.spawnMu.Free? && t.remote == b.remote
            && t.tracker == (if through
                             then b.tracker[p.n := Record(p.n, r.id, b.clock, Some(b.clock), None, Idle, false)]
                             else b.tracker)
            && t.books.passed
               == b.books.passed + (if minted && !through && r.id != 0 then {(p.n, r.id)} else {})
            && t.tracker == (if r.Tracks() then AfterLaunch(Waited(b.tracker, p.n, b.clock, r), p.n, b.clock, r)
                             else b.tracker)
  {
    SoloSteps(b, b, i, p, es);
    SpawnEnds(b.tracker, p.n, b.clock, p.r);
  }

  // ----- a job-completed handler -----

  predicate CompleterAt(b: State, s: State, i: nat, p: Plan) {
    && i < |s.actors| && s.actors[i].role.Completer? && s.actors[i].name == p.n && s.books.passed == b.books.passed
    && s.inflight == b.inflight
    && var launching := p.n in b.tracker && b.tracker[p.n].state.Launching?;
    match s.actors[i].pc
    case Handle(Lookup) => s.tracker == b.tracker && s.remote == b.remote
    case Term(term) =>
      && p.n in b.tracker && (term != TermMark ==> !launching) && s.remote == b.remote
      && s.tracker == (if term == TermMark then b.tracker
                       else if term == TermRemove then b.tracker[p.n := b.tracker[p.n].(pending := true)]
                       else b.tracker - {p.n})
    case Done =>
      && s.remote == (if p.n in b.tracker && !launching && p.deletable then b.remote - {p.n} else b.remote)
      && s.tracker == (if launching then b.tracker[p.n := b.tracker[p.n].(pending := true)] else b.tracker - {p.n})
    case _ => false
  }

  lemma CompleterTerm(b: State, s: State, i: nat, p: Plan, c: Choice)
    requires CanAct(s, i, c) && CompleterAt(b, s, i, p) && AsPlanned(s.actors[i].pc, c, p) && s.actors[i].pc.Term?
    ensures CompleterAt(b, ActTerm(s, i, c), i, p)
  {
    assert b.tracker[p.n := b.tracker[p.n].(pending := true)] - {p.n} == b.tracker - {p.n};
  }

  lemma CompleterStep(b: State, s: State, i: nat, p: Plan, c: Choice)
    requires CanAct(s, i, c) && CompleterAt(b, s, i, p) && AsPlanned(s.actors[i].pc, c, p)
    ensures CompleterAt(b, ActStep(s, i, c), i, p)
  {
    if s.actors[i].pc.Term? {
      CompleterTerm(b, s, i, p, c);
    } else {
      assert p.n !in b.tracker ==> b.tracker - {p.n} == b.tracker;
    }
  }

  lemma {:induction false} CompleterSteps(b: State, s: State, i: nat, p: Plan, es: seq<Event>)
    requires CompleterAt(b, s, i, p) && Legal(s, es) && SoloRun(s, es, i, p)
    ensures CompleterAt(b, Exec(s, es), i, p)
    decreases |es|
  {
    if es != [] {
      CompleterStep(b, s, i, p, es[0].choice);
      CompleterSteps(b, Apply(s, es[0]), i, p, es[1..]);
    }
  }

  /** A completion that nobody interrupts flags a launching runner, removes and tears down any other that is tracked,
      and leaves an unknown one alone. It hands no registration over. It is what HandleJobCompleted leaves. */
  lemma CompletionAgrees(b: State, i: nat, p: Plan, es: seq<Event>)
    requires i < |b.actors| && b.actors[i] == NewCompleter(p.n)
    requires Legal(b, es) && SoloRun(b, es, i, p) && i < |Exec(b, es).actors| && Exec(b, es).actors[i].pc.Done?
    ensures var t, n := Exec(b, es), p.n;
            var launching := n in b.tracker && b.tracker[n].state.Launching?;
            && t.tracker == (if launching then b.tracker[n := b.tracker[n].(pending := true)] else b.tracker - {n})
            && t.remote == (if n in b.tracker && !launching && p.deletable then b.remote - {n} else b.remote)
            && t.books.passed == b.books.passed && t.inflight == b.inflight
  {
    CompleterSteps(b, b, i, p, es);
  }

  // ----- a desired-count handler -----

  function Missing(b: State, i: nat): int
    requires i < |b.actors|
  {
    var missing := b.actors[i].target - |b.tracker| - b.inflight;
    if missing > 0 then missing else 0
  }

  /** k tasks are started and `left` reservations neither started nor given back. */
  ghost predicate Handled(b: State, s: State, k: int, left: int) {
    && s.tracker == b.tracker && s.phase == b.phase && s.inflight == b.inflight + k + left
    && |s.actors| == |b.actors| + k && forall j :: |b.actors| <= j < |s.actors| ==> s.actors[j] == NewSpawner()
  }

  ghost predicate ScalerAt(b: State, s: State, i: nat) {
    && i < |b.actors| <= |s.actors| && s.actors[i].role.Scaler? && s.actors[i].target == b.actors[i].target
    && var a, up, running := s.actors[i], Missing(b, i), b.phase.Running?;
    && s.spawnMu == (if a.pc == Scale(Reserving) then Held(i) else Free)
    && match a.pc
       case Scale(Reserve) => Handled(b, s, 0, 0)
       case Scale(Reserving) => Handled(b, s, 0, 0) && a.size == |b.tracker|
       case Scale(_) =>
         && 1 <= a.left <= up && Handled(b, s, if running then up - a.left else 0, a.left)
         && (a.pc == Scale(Refunding) ==> !running)
       case Done => Handled(b, s, if running then up else 0, 0)
       case _ => false
  }

  lemma ScalerStep(b: State, s: State, i: nat, c: Choice)
    requires CanAct(s, i, c) && ScalerAt(b, s, i)
    ensures ScalerAt(b, ActStep(s, i, c), i)
  {
    ActShape(s, i, c);
  }

  lemma {:induction false} ScalerSteps(b: State, s: State, i: nat, p: Plan, es: seq<Event>)
    requires ScalerAt(b, s, i) && Legal(s, es) && SoloRun(s, es, i, p)
    ensures ScalerAt(b, Exec(s, es), i)
    decreases |es|
  {
    if es != [] {
      ScalerStep(b, s, i, es[0].choice);
      ScalerSteps(b, Apply(s, es[0]), i, p, es[1..]);
    }
  }

  /** A desired count that nobody interrupts reserves what is missing to its target and starts a spawn task for each,
      none once the shutdown has begun. It is what HandleDesiredRunnerCount leaves. */
  lemma DesiredCountAgrees(b0: State, count: int, p: Plan, es: seq<Event>)
    requires b0.spawnMu.Free? && Legal(Apply(b0, DesiredCount(count)), es)
    requires SoloRun(Apply(b0, DesiredCount(count)), es, |b0.actors|, p)
    requires var t := Exec(Apply(b0, DesiredCount(count)), es);
             |b0.actors| < |t.actors| && t.actors[|b0.actors|].pc.Done?
    ensures var t, k, max := Exec(Apply(b0, DesiredCount(count)), es), |b0.actors|, b0.cfg.maxRunners;
            var target := if count > max then max else if count < 0 then 0 else count;
            var missing := target - |b0.tracker| - b0.inflight;
            var up := if b0.phase.Running? && missing > 0 then missing else 0;
            && t.inflight == b0.inflight + up && t.tracker == b0.tracker && t.spawnMu.Free?
            && |t.actors| == k + 1 + up
            && forall j :: k < j < |t.actors| ==> t.actors[j] == NewSpawner()
  {
    var b := Apply(b0, DesiredCount(count));
    ScalerSteps(b, b, |b0.actors|, p, es);
  }
}
