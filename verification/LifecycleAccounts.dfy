/** What the steps do to the counters: reservations, permits and the work left to spawn tasks. */
module LifecycleAccounts {
  import opened Tracking
  import opened Lifecycle
  import opened Sums

  // ----- one actor moves, and at most one spawn task is added -----

  function Started(s: State, i: nat): seq<Actor>
    requires i < |s.actors|
  {
    if s.actors[i].pc == Scale(Starting) && s.phase.Running? then [NewSpawner()] else []
  }

  lemma ScaleShape(s: State, i: nat)
    requires i < |s.actors| && s.actors[i].pc.Scale?
    ensures var s' := ActScale(s, i);
      |s.actors| <= |s'.actors| && s'.actors == s.actors[i := s'.actors[i]] + Started(s, i)
  {}

  lemma ActShape(s: State, i: nat, c: Choice)
    requires CanAct(s, i, c)
    ensures var s' := ActStep(s, i, c);
      |s.actors| <= |s'.actors| && s'.actors == s.actors[i := s'.actors[i]] + Started(s, i)
  {
    if s.actors[i].pc.Scale? {
      ScaleShape(s, i);
    } else {
      var s' := ActStep(s, i, c);
      assert s'.actors == s.actors[i := s'.actors[i]];
    }
  }

  lemma TotalStep(s: State, i: nat, c: Choice, f: Actor -> int)
    requires CanAct(s, i, c)
    ensures var s' := ActStep(s, i, c);
      |s.actors| <= |s'.actors|
      && Total(s'.actors, f) == Total(s.actors, f) - f(s.actors[i]) + f(s'.actors[i])
                                + (if Started(s, i) == [] then 0 else f(NewSpawner()))
  {
    ActShape(s, i, c);
    var a' := ActStep(s, i, c).actors[i];
    TotalUpdate(s.actors, i, a', f);
    TotalAppend(s.actors[i := a'], NewSpawner(), f);
    assert s.actors[i := a'] + [] == s.actors[i := a'];
  }

  // ----- a handler's call begins -----

  predicate Arrival(e: Event) {
    e.DesiredCount? || e.JobStarted? || e.JobCompleted?
  }

  function Newcomer(s: State, e: Event): Actor
    requires Arrival(e)
  {
    match e
    case DesiredCount(count) => NewScaler(Clamp(count, s.cfg.maxRunners))
    case JobStarted(n) => NewStarter(n, s.clock)
    case JobCompleted(n) => NewCompleter(n)
  }

  lemma Arrived(s: State, e: Event)
    requires Arrival(e) && Enabled(s, e)
    ensures Apply(s, e) == s.(actors := s.actors + [Newcomer(s, e)], hist := Apply(s, e).hist)
    ensures Apply(s, e).hist == if e.JobStarted? then Heard(s.hist, e.name) else s.hist
  {}

  // ----- an index is handed out -----

  lemma DispatchShape(s: State)
    requires Enabled(s, SweepDispatch)
    ensures var s', k := Dispatch(s), |s.actors|;
      && |s'.actors| == k + 1 && s' == s.(reaper := s'.reaper, actors := s.actors + [s'.actors[k]])
      && (s'.actors[k].pc == Handle(Judge) || s'.actors[k].pc == Term(StopCall))
  {}

  // ----- the control flow -----

  /** The edges of the program: where an actor of this role can be after one step. */
  predicate Follows(role: Role, pc: Pc, pc': Pc) {
    match pc
    case Scale(Reserve) => pc' == Scale(Reserving)
    case Scale(Reserving) => pc' == Scale(Starting) || pc'.Done?
    case Scale(Starting) => pc' == Scale(Starting) || pc' == Scale(Refunding) || pc'.Done?
    case Scale(Refunding) => pc' == Scale(Starting) || pc'.Done?
    case Handle(MarkBusy) => pc'.Done?
    case Handle(Lookup) => pc' == Term(TermMark) || pc'.Done?
    case Handle(Judge) => pc' == Term(TermMark) || pc' == Exit(DropLaunch)
    case Prep(MintWait) => pc' == Prep(ResolveWait) || pc' == Prep(Naming) || pc' == Unwind(Settle)
    case Prep(ResolveWait) => pc' == Prep(Resolving)
    case Prep(Resolving) => pc' == Prep(Naming) || pc' == Unwind(UnwindMint)
    case Prep(Naming) => pc' == Mint(Minting)
    case Mint(Minting) => pc' == Mint(Rendering) || pc' == Unwind(UnwindMint)
    case Mint(Rendering) => pc' == Mint(AddWait) || pc' == Mint(PreDeregister)
    case Mint(PreDeregister) => pc' == Mint(PreDeregistering) || pc' == Unwind(UnwindMint)
    case Mint(PreDeregistering) => pc' == Unwind(UnwindMint)
    case Mint(AddWait) => pc' == Ahead(Added)
    case Unwind(UnwindMint) => pc' == Unwind(Settle)
    case Unwind(Settle) => pc'.Done?
    case Ahead(Added) => pc' == Ahead(DropMint)
    case Ahead(DropMint) => pc' == Ahead(LaunchWait)
    case Ahead(LaunchWait) => pc' == Ahead(PreCheck) || pc' == Verdict(QuitRemove)
    case Ahead(PreCheck) => pc' == Ahead(LaunchCall) || pc' == Verdict(AbortRemove)
    case Ahead(LaunchCall) => pc' == Ahead(LaunchFlight)
    case Ahead(LaunchFlight) => pc' == Verdict(MarkIdle) || pc' == Verdict(AbortRemove)
    case Verdict(MarkIdle) => pc' == Term(TermMark) || pc' == Exit(DropLaunch)
    case Verdict(AbortRemove) => pc' == Exit(Deregister)
    case Verdict(QuitRemove) => pc' == Quit(QuitDeregister)
    case Term(TermMark) => pc' == Term(TermRemove) || pc' == AfterTerminate(role)
    case Term(TermRemove) => pc' == Term(StopCall)
    case Term(StopCall) => pc' == Term(Stopping)
    case Term(Stopping) => pc' == Term(DeleteCall)
    case Term(DeleteCall) => pc' == Term(Deleting)
    case Term(Deleting) => pc' == AfterTerminate(role)
    case Exit(Deregister) => pc' == Exit(Deregistering) || pc' == Exit(DropLaunch)
    case Exit(Deregistering) => pc' == Exit(DropLaunch)
    case Exit(DropLaunch) => pc'.Done?
    case Quit(QuitDeregister) => pc' == Quit(QuitDeregistering) || pc'.Done?
    case Quit(QuitDeregistering) => pc'.Done?
    case Done => false
  }

  predicate Steps(a: Actor, a': Actor) {
    && a'.role == a.role && a'.target == a.target && a'.stale == a.stale
    && (a.pc == Prep(Naming) || a'.name == a.name)
    && (a.pc == Mint(Minting) || a'.id == a.id)
    && Follows(a.role, a.pc, a'.pc)
  }

  lemma PrepEdge(s: State, i: nat, c: Choice)
    requires i < |s.actors| && s.actors[i].pc.Prep?
    ensures var s' := ActPrep(s, i, c); i < |s'.actors| && Steps(s.actors[i], s'.actors[i])
  {}

  lemma MintEdge(s: State, i: nat, c: Choice)
    requires i < |s.actors| && s.actors[i].pc.Mint?
    ensures var s' := ActMint(s, i, c); i < |s'.actors| && Steps(s.actors[i], s'.actors[i])
  {}

  lemma UnwindEdge(s: State, i: nat)
    requires i < |s.actors| && s.actors[i].pc.Unwind?
    ensures var s' := ActUnwind(s, i); i < |s'.actors| && Steps(s.actors[i], s'.actors[i])
  {}

  lemma AheadEdge(s: State, i: nat, c: Choice)
    requires i < |s.actors| && s.actors[i].pc.Ahead?
    ensures var s' := ActAhead(s, i, c); i < |s'.actors| && Steps(s.actors[i], s'.actors[i])
  {
    var s' := ActAhead(s, i, c);
    assert s'.actors == s.actors[i := s.actors[i].(pc := s'.actors[i].pc)];
  }

  lemma VerdictEdge(s: State, i: nat)
    requires i < |s.actors| && s.actors[i].pc.Verdict?
    ensures var s' := ActVerdict(s, i); i < |s'.actors| && Steps(s.actors[i], s'.actors[i])
  {}

  lemma TermEdge(s: State, i: nat, c: Choice)
    requires i < |s.actors| && s.actors[i].pc.Term?
    ensures var s' := ActTerm(s, i, c); i < |s'.actors| && Steps(s.actors[i], s'.actors[i])
  {
    var s' := ActTerm(s, i, c);
    assert s'.actors == s.actors[i := s.actors[i].(pc := s'.actors[i].pc)];
  }

  lemma ExitEdge(s: State, i: nat)
    requires i < |s.actors| && s.actors[i].pc.Exit?
    ensures var s' := ActExit(s, i); i < |s'.actors| && Steps(s.actors[i], s'.actors[i])
  {}

  lemma QuitEdge(s: State, i: nat)
    requires i < |s.actors| && s.actors[i].pc.Quit?
    ensures var s' := ActQuit(s, i); i < |s'.actors| && Steps(s.actors[i], s'.actors[i])
  {}

  lemma ScaleEdge(s: State, i: nat)
    requires i < |s.actors| && s.actors[i].pc.Scale?
    ensures var s' := ActScale(s, i); i < |s'.actors| && Steps(s.actors[i], s'.actors[i])
  {}

  lemma HandleEdge(s: State, i: nat)
    requires i < |s.actors| && s.actors[i].pc.Handle?
    ensures var s' := ActHandle(s, i); i < |s'.actors| && Steps(s.actors[i], s'.actors[i])
  {}

  lemma EdgeTaken(s: State, i: nat, c: Choice)
    requires CanAct(s, i, c)
    ensures var s' := ActStep(s, i, c); i < |s'.actors| && Steps(s.actors[i], s'.actors[i])
  {
    match s.actors[i].pc
    case Scale(_) => ScaleEdge(s, i);
    case Handle(_) => HandleEdge(s, i);
    case Prep(_) => PrepEdge(s, i, c);
    case Mint(_) => MintEdge(s, i, c);
    case Unwind(_) => UnwindEdge(s, i);
    case Ahead(_) => AheadEdge(s, i, c);
    case Verdict(_) => VerdictEdge(s, i);
    case Term(_) => TermEdge(s, i, c);
    case Exit(_) => ExitEdge(s, i);
    case Quit(_) => QuitEdge(s, i);
  }

  // ----- the registry -----

  /** What the step of an actor does to the registry. */
  function Effect(t: Registry, a: Actor, now: int): Registry {
    match a.pc
    case Handle(MarkBusy) => WithBusy(t, a.name, a.at)
    case Mint(AddWait) => t[a.name := NewRecord(a.name, a.id, a.at)]
    case Verdict(MarkIdle) => WithIdle(t, a.name, now)
    case Verdict(_) => Without(t, a.name)
    case Term(TermMark) => WithPending(t, a.name)
    case Term(TermRemove) => Without(t, a.name)
    case _ => t
  }

  lemma TermEffect(s: State, i: nat, c: Choice)
    requires i < |s.actors| && s.actors[i].pc.Term?
    ensures ActTerm(s, i, c).tracker == Effect(s.tracker, s.actors[i], s.clock)
  {}

  lemma MintEffect(s: State, i: nat, c: Choice)
    requires i < |s.actors| && s.actors[i].pc.Mint?
    ensures ActMint(s, i, c).tracker == Effect(s.tracker, s.actors[i], s.clock)
  {}

  lemma AheadEffect(s: State, i: nat, c: Choice)
    requires i < |s.actors| && s.actors[i].pc.Ahead?
    ensures ActAhead(s, i, c).tracker == Effect(s.tracker, s.actors[i], s.clock)
  {}

  lemma RegistryStep(s: State, i: nat, c: Choice)
    requires CanAct(s, i, c)
    ensures ActStep(s, i, c).tracker == Effect(s.tracker, s.actors[i], s.clock)
  {
    match s.actors[i].pc
    case Term(_) => TermEffect(s, i, c);
    case Mint(_) => MintEffect(s, i, c);
    case Ahead(_) => AheadEffect(s, i, c);
    case _ =>
  }

  // ----- the host -----

  lemma TermHost(s: State, i: nat, c: Choice)
    requires i < |s.actors| && s.actors[i].pc.Term?
    ensures ActTerm(s, i, c).remote
            == if s.actors[i].pc == Term(Deleting) && c.ok then s.remote - {s.actors[i].name} else s.remote
  {}

  /** Only a Delete that succeeds takes an instance away. */
  lemma HostStep(s: State, i: nat, c: Choice)
    requires CanAct(s, i, c) && (s.actors[i].pc.Handle? || s.actors[i].pc.Term? || s.actors[i].pc.Exit?)
    ensures ActStep(s, i, c).remote
            == if s.actors[i].pc == Term(Deleting) && c.ok then s.remote - {s.actors[i].name} else s.remote
    ensures ActStep(s, i, c).reaper == s.reaper && ActStep(s, i, c).ctxDone == s.ctxDone
  {
    if s.actors[i].pc.Term? { TermHost(s, i, c); }
  }

  lemma RemoteOfAct(s: State, i: nat, c: Choice)
    requires CanAct(s, i, c)
    ensures ActStep(s, i, c).remote
            == if s.actors[i].pc == Term(Deleting) && c.ok then s.remote - {s.actors[i].name} else s.remote
  {
    if s.actors[i].pc.Term? { TermHost(s, i, c); }
  }

  /** The reaper goes its own way. */
  lemma ReaperOfAct(s: State, i: nat, c: Choice)
    requires CanAct(s, i, c)
    ensures ActStep(s, i, c).reaper == s.reaper
  {}
}
