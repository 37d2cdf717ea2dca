/** What every step of every interleaving keeps. */
module LifecycleInvariant {
  import opened Tracking
  import opened Lifecycle

  /** A spawn task past its launch: it carries the name of a record that was added. */
  predicate After(pc: Pc) {
    pc.Verdict? || pc.Term? || pc.Exit? || pc.Quit?
  }

  /** A spawn task still bound to look at its record: to promote it, or to take it away. */
  predicate InCharge(pc: Pc) {
    pc.Ahead? || pc.Verdict?
  }

  predicate RoleFits(a: Actor) {
    a.pc.Done? ||
    match a.role
    case Scaler => a.pc.Scale?
    case Spawner => a.pc.Prep? || a.pc.Mint? || a.pc.Unwind? || a.pc.Ahead? || After(a.pc)
    case Starter => a.pc == Handle(MarkBusy)
    case Completer => a.pc == Handle(Lookup) || a.pc.Term?
    case Worker => a.pc == Handle(Judge) || a.pc.Term? || a.pc.Exit?
    case Sweeper => (Tearing(a.pc) && a.pc != Term(TermRemove)) || a.pc.Exit?
  }

  /** No Launch call for the name is still to come or in flight, unless a job started early. */
  predicate Over(h: History, n: Name) {
    n in h.finished || n in h.early
  }

  predicate Owns(i: nat, a: Actor, h: History) {
    a.name in h.owner && h.owner[a.name] == i
  }

  predicate HasId(a: Actor, h: History) {
    a.name in h.minted && h.minted[a.name] == a.id
  }

  predicate SpawnerOk(i: nat, a: Actor, h: History, clock: int) {
    && (a.pc.Mint? ==> Owns(i, a, h) && a.name !in h.born && (a.name !in h.minted || HasId(a, h)))
    && (a.pc.Mint? ==> (a.pc.mint == Minting <==> a.name !in h.minted))
    && (a.pc.Mint? ==> (a.pc.mint == AddWait <==> a.name in h.stamped))
    && (a.pc == Mint(AddWait) ==> h.stamped[a.name] == a.at <= clock)
    && (a.pc.Ahead? ==> Owns(i, a, h) && HasId(a, h) && a.name in h.born && a.name !in h.finished)
    && (After(a.pc) ==> Owns(i, a, h) && HasId(a, h) && a.name in h.born && a.name in h.finished)
  }

  predicate ActorOk(i: nat, a: Actor, h: History, clock: int) {
    && RoleFits(a)
    && match a.role
       case Scaler => a.pc == Scale(Starting) || a.pc == Scale(Refunding) ==> a.left >= 1
       case Spawner => SpawnerOk(i, a, h, clock)
       case Starter => Over(h, a.name) && (a.name !in h.premature ==> a.name in h.stamped && h.stamped[a.name] <= a.at)
       case Completer => (a.pc.Term? ==> a.name in h.born) && (Tearing(a.pc) ==> Over(h, a.name))
       case Worker => a.name in h.born && HasId(a, h) && (a.pc.Term? ==> a.stale) && (Tearing(a.pc) ==> Over(h, a.name))
       case Sweeper => a.name in h.prior || a.name in h.removed
  }

  predicate RecordOk(n: Name, r: Record, h: History) {
    && r.name == n
    && n in h.minted && r.id == h.minted[n]
    && n in h.born && n in h.stamped && r.mintedAt == h.stamped[n]
    && (r.state.Busy? <==> r.busyAt.Some?)
    && (r.busyAt.Some? && n !in h.premature ==> r.mintedAt <= r.busyAt.value)
  }

  /** The name's spawn task is known, and past the point where it chose the name. */
  predicate OwnerOk(s: State, n: Name)
    requires n in s.hist.owner
  {
    var i := s.hist.owner[n];
    && n !in s.hist.prior
    && i < |s.actors| && s.actors[i].role.Spawner? && s.actors[i].name == n
    && !s.actors[i].pc.Prep?
  }

  /** What is known about one runner name: how far it got, whether it is tracked, and that
      only its spawn task promotes or removes its record as long as the launch lies ahead. */
  predicate NameOk(s: State, n: Name) {
    var h := s.hist;
    && (n in h.owner ==> n != "" && OwnerOk(s, n))
    && (n in h.minted ==> n in h.owner)
    && (n in h.stamped ==> n in h.minted && h.stamped[n] <= s.clock)
    && (n in h.born ==> n in h.stamped)
    && (n in h.launched || n in h.finished ==> n in h.born)
    && (n in h.removed ==> n in h.born && Over(h, n))
    && (n in s.remote ==> n in h.prior || n in h.launched)
    && (n in s.tracker <==> n in h.born && n !in h.removed)
    && (n in s.tracker ==> RecordOk(n, s.tracker[n], h))
    && (n in h.born && !Over(h, n) ==> n in s.tracker && s.tracker[n].state.Launching?)
    && (n in s.tracker && s.tracker[n].state.Launching? ==>
          n in h.owner && OwnerOk(s, n) && InCharge(s.actors[h.owner[n]].pc))
  }

  predicate QueuedOk(r: Record, h: History) {
    r.name in h.born && r.name in h.minted && h.minted[r.name] == r.id
  }

  ghost predicate ReaperOk(r: Reaper, h: History) {
    match r
    case Handing(queue, _) => forall k :: 0 <= k < |queue| ==> QueuedOk(queue[k], h)
    case Listed(listing) => forall k :: 0 <= k < |listing| ==> listing[k] in h.prior || listing[k] in h.launched
    case Sweeping(orphans) => forall k :: 0 <= k < |orphans| ==> orphans[k] in h.prior || orphans[k] in h.removed
    case _ => true
  }

  ghost predicate Core(s: State) {
    && (forall i :: 0 <= i < |s.actors| ==> ActorOk(i, s.actors[i], s.hist, s.clock))
    && (forall n: Name :: NameOk(s, n))
    && ReaperOk(s.reaper, s.hist)
  }

  // ----- a step touches one actor and one name -----

  /** What is recorded about m is the same, and m did not appear on the host. */
  predicate SameAt(s: State, s': State, m: Name) {
    var h, h' := s.hist, s'.hist;
    && (m in h.owner <==> m in h'.owner) && (m in h.owner ==> h.owner[m] == h'.owner[m])
    && (m in h.minted <==> m in h'.minted) && (m in h.minted ==> h.minted[m] == h'.minted[m])
    && (m in h.stamped <==> m in h'.stamped) && (m in h.stamped ==> h.stamped[m] == h'.stamped[m])
    && (m in h.born <==> m in h'.born)
    && (m in h.removed <==> m in h'.removed)
    && (m in h.launched <==> m in h'.launched)
    && (m in h.finished <==> m in h'.finished)
    && (m in h.early <==> m in h'.early) && (m in h.premature <==> m in h'.premature)
    && (m in s.tracker <==> m in s'.tracker) && (m in s.tracker ==> s.tracker[m] == s'.tracker[m])
    && (m in s'.remote ==> m in s.remote)
  }

  /** The name's runner got further towards its launch. */
  predicate Furthered(h: History, h': History, n: Name) {
    || (n in h'.minted && n !in h.minted)
    || (n in h'.stamped && n !in h.stamped)
    || (n in h'.born && n !in h.born)
    || (n in h'.finished && n !in h.finished)
  }

  /** The history only grows at n, and only the name's own spawn task moves it forward. */
  predicate GrowsAt(h: History, h': History, i: nat, n: Name) {
    && (n in h.owner ==> n in h'.owner && h'.owner[n] == h.owner[n])
    && (n in h.minted ==> n in h'.minted && h'.minted[n] == h.minted[n])
    && (n in h.stamped ==> n in h'.stamped && h'.stamped[n] == h.stamped[n])
    && (n in h.born ==> n in h'.born)
    && (n in h.removed ==> n in h'.removed)
    && (n in h.launched ==> n in h'.launched)
    && (n in h.finished ==> n in h'.finished)
    && (n in h.early ==> n in h'.early) && (n in h.premature ==> n in h'.premature)
    && (Furthered(h, h', n) ==> n in h'.owner && h'.owner[n] == i)
  }

  ghost predicate Frame(s: State, s': State, i: nat, n: Name) {
    && |s.actors| <= |s'.actors|
    && (forall j :: 0 <= j < |s.actors| && j != i ==> s'.actors[j] == s.actors[j])
    && (forall j :: |s.actors| <= j < |s'.actors| && j != i ==> ActorOk(j, s'.actors[j], s'.hist, s'.clock))
    && s.clock <= s'.clock
    && s'.hist.prior == s.hist.prior
    && (forall m :: m != n ==> SameAt(s, s', m))
    && GrowsAt(s.hist, s'.hist, i, n)
  }

  lemma ActorKept(s: State, s': State, i: nat, n: Name, j: nat)
    requires Core(s) && Frame(s, s', i, n) && j < |s.actors| && j != i
    ensures ActorOk(j, s'.actors[j], s'.hist, s'.clock)
  {
    var a := s.actors[j];
    assert ActorOk(j, a, s.hist, s.clock);
    if a.name != n {
      assert SameAt(s, s', a.name);
    }
  }

  /** The actor that steps carries the affected name, and has not changed it for another. */
  predicate Carries(s: State, s': State, i: nat, n: Name) {
    && i < |s'.actors| && s'.actors[i].name == n
    && (i < |s.actors| ==>
          s'.actors[i].role == s.actors[i].role
          && (s.actors[i].name == n || s.actors[i].pc.Prep?))
  }

  lemma NameKept(s: State, s': State, i: nat, n: Name, m: Name)
    requires Core(s) && Frame(s, s', i, n) && m != n && Carries(s, s', i, n)
    ensures NameOk(s', m)
  {
    assert NameOk(s, m) && SameAt(s, s', m);
  }

  lemma ReaperKept(s: State, s': State, i: nat, n: Name, r: Reaper)
    requires Frame(s, s', i, n) && ReaperOk(r, s.hist)
    ensures ReaperOk(r, s'.hist)
  {
    var xs := match r case Handing(queue, _) => seq(|queue|, k requires 0 <= k < |queue| => queue[k].name)
              case Listed(listing) => listing case Sweeping(orphans) => orphans case _ => [];
    forall k | 0 <= k < |xs| ensures xs[k] == n || SameAt(s, s', xs[k]) {}
    assert r.Handing? ==> forall k :: 0 <= k < |r.queue| ==> xs[k] == r.queue[k].name;
  }

  /** To keep the invariant a step has to answer only for its own actor and its own name. */
  lemma Step(s: State, s': State, i: nat, n: Name)
    requires Core(s) && Frame(s, s', i, n) && Carries(s, s', i, n)
    requires ActorOk(i, s'.actors[i], s'.hist, s'.clock)
    requires NameOk(s', n)
    requires s'.reaper == s.reaper || ReaperOk(s'.reaper, s.hist)
    ensures Core(s')
  {
    forall j | 0 <= j < |s'.actors| ensures ActorOk(j, s'.actors[j], s'.hist, s'.clock) {
      if j < |s.actors| && j != i { ActorKept(s, s', i, n, j); }
    }
    forall m: Name ensures NameOk(s', m) {
      if m != n { NameKept(s, s', i, n, m); }
    }
    ReaperKept(s, s', i, n, s'.reaper);
  }

  // ----- steps that leave registry, host and history alone -----

  ghost predicate Quiet(s: State, s': State, i: nat) {
    && i < |s.actors| <= |s'.actors|
    && (forall j :: 0 <= j < |s.actors| && j != i ==> s'.actors[j] == s.actors[j])
    && (forall j :: |s.actors| <= j < |s'.actors| ==> s'.actors[j] == NewSpawner())
    && s'.actors[i].role == s.actors[i].role && s'.actors[i].name == s.actors[i].name
    && s'.tracker == s.tracker && s'.remote == s.remote && s'.clock == s.clock
    && s'.hist == s.hist && s'.reaper == s.reaper
  }

  /** The actor's own part, once it moved: it satisfies its invariant and did not walk out on its record. */
  predicate Moved(a: Actor, a': Actor, i: nat, h: History, clock: int) {
    && ActorOk(i, a', h, clock)
    && (a.role.Spawner? && InCharge(a.pc) ==> InCharge(a'.pc))
    && (a.role.Spawner? && a'.pc.Prep? ==> a.pc.Prep?)
  }

  lemma QuietKeeps(s: State, s': State, i: nat)
    requires Core(s) && Quiet(s, s', i) && Moved(s.actors[i], s'.actors[i], i, s.hist, s.clock)
    ensures Core(s')
  {
    forall j | 0 <= j < |s'.actors| ensures ActorOk(j, s'.actors[j], s'.hist, s'.clock) {
      if j < |s.actors| && j != i { assert ActorOk(j, s.actors[j], s.hist, s.clock); }
    }
    forall n: Name ensures NameOk(s', n) {
      assert NameOk(s, n);
    }
  }

  /** Nothing the invariant speaks about changed, except that time passed and launched instances appeared. */
  lemma StillCore(s: State, s': State)
    requires Core(s) && s'.actors == s.actors && s'.tracker == s.tracker && s'.hist == s.hist && s.clock <= s'.clock
    requires forall n :: n in s'.remote ==> n in s.remote || n in s.hist.launched
    requires ReaperOk(s'.reaper, s.hist)
    ensures Core(s')
  {
    forall i | 0 <= i < |s'.actors| ensures ActorOk(i, s'.actors[i], s'.hist, s'.clock) {
      assert ActorOk(i, s.actors[i], s.hist, s.clock);
    }
    forall n: Name ensures NameOk(s', n) {
      assert NameOk(s, n);
    }
  }

  // ----- every step keeps it -----

  lemma CoreInit(s: State)
    requires Init(s)
    ensures Core(s)
  {}

  lemma ScaleQuiet(s: State, i: nat)
    requires i < |s.actors| && s.actors[i].pc.Scale?
    ensures Quiet(s, ActScale(s, i), i)
  {}

  lemma ScaleMoved(s: State, i: nat)
    requires i < |s.actors| && s.actors[i].pc.Scale?
    requires ActorOk(i, s.actors[i], s.hist, s.clock)
    ensures Moved(s.actors[i], ActScale(s, i).actors[i], i, s.hist, s.clock)
  {
    var a' := ActScale(s, i).actors[i];
    assert a'.role.Scaler? && (a'.pc.Scale? || a'.pc.Done?);
  }

  lemma HandleQuiet(s: State, i: nat)
    requires i < |s.actors| && s.actors[i].pc.Handle? && s.actors[i].pc.handle != MarkBusy
    requires ActorOk(i, s.actors[i], s.hist, s.clock) && NameOk(s, s.actors[i].name)
    ensures var s' := ActHandle(s, i); Quiet(s, s', i) && Moved(s.actors[i], s'.actors[i], i, s.hist, s.clock)
  {}

  lemma PrepQuiet(s: State, i: nat, c: Choice)
    requires i < |s.actors| && s.actors[i].pc.Prep? && s.actors[i].pc.prep != Naming
    requires ActorOk(i, s.actors[i], s.hist, s.clock)
    ensures var s' := ActPrep(s, i, c); Quiet(s, s', i) && Moved(s.actors[i], s'.actors[i], i, s.hist, s.clock)
  {}

  /** A mint or a rendering that fails. */
  lemma MintFails(s: State, i: nat, c: Choice)
    requires i < |s.actors| && s.actors[i].pc.Mint? && !c.ok
    requires s.actors[i].pc.mint == Minting || s.actors[i].pc.mint == Rendering
    requires ActorOk(i, s.actors[i], s.hist, s.clock)
    ensures var s' := ActMint(s, i, c); Quiet(s, s', i) && Moved(s.actors[i], s'.actors[i], i, s.hist, s.clock)
  {}

  lemma PreDeregisters(s: State, i: nat, c: Choice)
    requires i < |s.actors| && s.actors[i].pc.Mint?
    requires s.actors[i].pc.mint == PreDeregister || s.actors[i].pc.mint == PreDeregistering
    requires ActorOk(i, s.actors[i], s.hist, s.clock)
    ensures var s' := ActMint(s, i, c); Quiet(s, s', i) && Moved(s.actors[i], s'.actors[i], i, s.hist, s.clock)
  {}

  lemma UnwindQuiet(s: State, i: nat)
    requires i < |s.actors| && s.actors[i].pc.Unwind?
    requires ActorOk(i, s.actors[i], s.hist, s.clock)
    ensures var s' := ActUnwind(s, i); Quiet(s, s', i) && Moved(s.actors[i], s'.actors[i], i, s.hist, s.clock)
  {}

  lemma AheadQuiet(s: State, i: nat, c: Choice)
    requires i < |s.actors| && s.actors[i].pc.Ahead? && (s.actors[i].pc.ahead.Added? || s.actors[i].pc.ahead.DropMint?)
    requires ActorOk(i, s.actors[i], s.hist, s.clock)
    ensures var s' := ActAhead(s, i, c); Quiet(s, s', i) && Moved(s.actors[i], s'.actors[i], i, s.hist, s.clock)
  {}

  lemma TermQuiet(s: State, i: nat, c: Choice)
    requires i < |s.actors| && s.actors[i].pc.Term?
    requires s.actors[i].pc.term.StopCall? || s.actors[i].pc.term.Stopping? || s.actors[i].pc.term.DeleteCall?
    requires ActorOk(i, s.actors[i], s.hist, s.clock)
    ensures var s' := ActTerm(s, i, c); Quiet(s, s', i) && Moved(s.actors[i], s'.actors[i], i, s.hist, s.clock)
  {}

  lemma ExitQuiet(s: State, i: nat)
    requires i < |s.actors| && s.actors[i].pc.Exit?
    requires ActorOk(i, s.actors[i], s.hist, s.clock)
    ensures var s' := ActExit(s, i); Quiet(s, s', i) && Moved(s.actors[i], s'.actors[i], i, s.hist, s.clock)
  {}

  lemma QuitQuiet(s: State, i: nat)
    requires i < |s.actors| && s.actors[i].pc.Quit?
    requires ActorOk(i, s.actors[i], s.hist, s.clock)
    ensures var s' := ActQuit(s, i); Quiet(s, s', i) && Moved(s.actors[i], s'.actors[i], i, s.hist, s.clock)
  {}

  lemma JobStartedMarks(s: State, i: nat, c: Choice)
    requires Core(s) && CanAct(s, i, c) && s.actors[i].pc == Handle(MarkBusy)
    ensures Core(ActHandle(s, i))
  {
    var s' := ActHandle(s, i);
    var n := s'.actors[i].name;
    assert ActorOk(i, s.actors[i], s.hist, s.clock) && NameOk(s, n);
    Step(s, s', i, n);
  }

  lemma NameChosen(s: State, i: nat, c: Choice)
    requires Core(s) && CanAct(s, i, c) && s.actors[i].pc == Prep(Naming)
    ensures Core(ActPrep(s, i, c))
  {
    var s' := ActPrep(s, i, c);
    var n := s'.actors[i].name;
    assert ActorOk(i, s.actors[i], s.hist, s.clock) && NameOk(s, n);
    Step(s, s', i, n);
  }

  lemma RunnerMinted(s: State, i: nat, c: Choice)
    requires Core(s) && CanAct(s, i, c) && s.actors[i].pc == Mint(Minting) && c.ok
    ensures Core(ActMint(s, i, c))
  {
    var s' := ActMint(s, i, c);
    var n := s'.actors[i].name;
    assert ActorOk(i, s.actors[i], s.hist, s.clock) && NameOk(s, n);
    Step(s, s', i, n);
  }

  lemma RunnerStamped(s: State, i: nat, c: Choice)
    requires Core(s) && CanAct(s, i, c) && s.actors[i].pc == Mint(Rendering) && c.ok
    ensures Core(ActMint(s, i, c))
  {
    var s' := ActMint(s, i, c);
    var n := s'.actors[i].name;
    assert ActorOk(i, s.actors[i], s.hist, s.clock) && NameOk(s, n);
    Step(s, s', i, n);
  }

  lemma RecordAdded(s: State, i: nat, c: Choice)
    requires Core(s) && CanAct(s, i, c) && s.actors[i].pc == Mint(AddWait)
    ensures Core(ActMint(s, i, c))
  {
    var s' := ActMint(s, i, c);
    var n := s'.actors[i].name;
    assert ActorOk(i, s.actors[i], s.hist, s.clock) && NameOk(s, n);
    Step(s, s', i, n);
  }

  lemma LaunchAwaited(s: State, i: nat, c: Choice)
    requires Core(s) && CanAct(s, i, c) && s.actors[i].pc == Ahead(LaunchWait)
    ensures Core(ActAhead(s, i, c))
  {
    var s' := ActAhead(s, i, c);
    var n := s'.actors[i].name;
    assert ActorOk(i, s.actors[i], s.hist, s.clock) && NameOk(s, n);
    Step(s, s', i, n);
  }

  lemma LaunchForestalled(s: State, i: nat, c: Choice)
    requires Core(s) && CanAct(s, i, c) && s.actors[i].pc == Ahead(PreCheck) && PendingIn(s.tracker, s.actors[i].name)
    ensures Core(ActAhead(s, i, c))
  {
    var s' := ActAhead(s, i, c);
    var n := s'.actors[i].name;
    assert ActorOk(i, s.actors[i], s.hist, s.clock) && NameOk(s, n);
    Step(s, s', i, n);
  }

  lemma LaunchChecked(s: State, i: nat, c: Choice)
    requires Core(s) && CanAct(s, i, c) && s.actors[i].pc == Ahead(PreCheck)
    ensures Core(ActAhead(s, i, c))
  {
    if PendingIn(s.tracker, s.actors[i].name) {
      LaunchForestalled(s, i, c);
    } else {
      assert ActorOk(i, s.actors[i], s.hist, s.clock);
      QuietKeeps(s, ActAhead(s, i, c), i);
    }
  }

  lemma LaunchMade(s: State, i: nat, c: Choice)
    requires Core(s) && CanAct(s, i, c) && s.actors[i].pc == Ahead(LaunchCall)
    ensures Core(ActAhead(s, i, c))
  {
    var s' := ActAhead(s, i, c);
    var n := s'.actors[i].name;
    assert ActorOk(i, s.actors[i], s.hist, s.clock) && NameOk(s, n);
    Step(s, s', i, n);
  }

  lemma LaunchReturned(s: State, i: nat, c: Choice)
    requires Core(s) && CanAct(s, i, c) && s.actors[i].pc == Ahead(LaunchFlight)
    ensures Core(ActAhead(s, i, c))
  {
    var s' := ActAhead(s, i, c);
    var n := s'.actors[i].name;
    assert ActorOk(i, s.actors[i], s.hist, s.clock) && NameOk(s, n);
    Step(s, s', i, n);
  }

  lemma Promoted(s: State, i: nat, c: Choice)
    requires Core(s) && CanAct(s, i, c) && s.actors[i].pc == Verdict(MarkIdle)
    ensures Core(ActVerdict(s, i))
  {
    var s' := ActVerdict(s, i);
    var n := s'.actors[i].name;
    assert ActorOk(i, s.actors[i], s.hist, s.clock) && NameOk(s, n);
    Step(s, s', i, n);
  }

  lemma LaunchAborted(s: State, i: nat, c: Choice)
    requires Core(s) && CanAct(s, i, c) && s.actors[i].pc == Verdict(AbortRemove)
    ensures Core(ActVerdict(s, i))
  {
    var s' := ActVerdict(s, i);
    var n := s'.actors[i].name;
    assert ActorOk(i, s.actors[i], s.hist, s.clock) && NameOk(s, n);
    Step(s, s', i, n);
  }

  lemma LaunchQuit(s: State, i: nat, c: Choice)
    requires Core(s) && CanAct(s, i, c) && s.actors[i].pc == Verdict(QuitRemove)
    ensures Core(ActVerdict(s, i))
  {
    var s' := ActVerdict(s, i);
    var n := s'.actors[i].name;
    assert ActorOk(i, s.actors[i], s.hist, s.clock) && NameOk(s, n);
    Step(s, s', i, n);
  }

  lemma TerminationMarked(s: State, i: nat, c: Choice)
    requires Core(s) && CanAct(s, i, c) && s.actors[i].pc == Term(TermMark)
    ensures Core(ActTerm(s, i, c))
  {
    var s' := ActTerm(s, i, c);
    var n := s'.actors[i].name;
    assert ActorOk(i, s.actors[i], s.hist, s.clock) && NameOk(s, n);
    Step(s, s', i, n);
  }

  lemma RecordRemoved(s: State, i: nat, c: Choice)
    requires Core(s) && CanAct(s, i, c) && s.actors[i].pc == Term(TermRemove)
    ensures Core(Removing(Goto(s, i, Term(StopCall)), s.actors[i].name))
  {
    var n := s.actors[i].name;
    assert ActorOk(i, s.actors[i], s.hist, s.clock) && NameOk(s, n);
    Step(s, Removing(Goto(s, i, Term(StopCall)), n), i, n);
  }

  lemma RecordTornDown(s: State, i: nat, c: Choice)
    requires Core(s) && CanAct(s, i, c) && s.actors[i].pc == Term(TermRemove)
    ensures Core(ActTerm(s, i, c))
  {
    RecordRemoved(s, i, c);
    StillCore(Removing(Goto(s, i, Term(StopCall)), s.actors[i].name), ActTerm(s, i, c));
  }

  lemma InstanceDeleted(s: State, i: nat, c: Choice)
    requires Core(s) && CanAct(s, i, c) && s.actors[i].pc == Term(Deleting)
    ensures Core(ActTerm(s, i, c))
  {
    var s' := ActTerm(s, i, c);
    var n := s'.actors[i].name;
    assert ActorOk(i, s.actors[i], s.hist, s.clock) && NameOk(s, n);
    Step(s, s', i, n);
  }

  lemma CorePrepMint(s: State, i: nat, c: Choice)
    requires Core(s) && CanAct(s, i, c) && (s.actors[i].pc.Prep? || s.actors[i].pc.Mint?)
    ensures Core(ActStep(s, i, c))
  {
    assert ActorOk(i, s.actors[i], s.hist, s.clock);
    var pc := s.actors[i].pc;
    if pc == Prep(Naming) { NameChosen(s, i, c); }
    else if pc.Prep? { PrepQuiet(s, i, c); QuietKeeps(s, ActPrep(s, i, c), i); }
    else if pc == Mint(Minting) && c.ok { RunnerMinted(s, i, c); }
    else if pc == Mint(Rendering) && c.ok { RunnerStamped(s, i, c); }
    else if pc == Mint(AddWait) { RecordAdded(s, i, c); }
    else if pc == Mint(Minting) || pc == Mint(Rendering) {
      MintFails(s, i, c);
      QuietKeeps(s, ActMint(s, i, c), i);
    } else {
      PreDeregisters(s, i, c);
      QuietKeeps(s, ActMint(s, i, c), i);
    }
  }

  lemma CoreAhead(s: State, i: nat, c: Choice)
    requires Core(s) && CanAct(s, i, c) && s.actors[i].pc.Ahead?
    ensures Core(ActAhead(s, i, c))
  {
    assert ActorOk(i, s.actors[i], s.hist, s.clock);
    match s.actors[i].pc.ahead
    case LaunchWait => LaunchAwaited(s, i, c);
    case PreCheck => LaunchChecked(s, i, c);
    case LaunchCall => LaunchMade(s, i, c);
    case LaunchFlight => LaunchReturned(s, i, c);
    case _ => AheadQuiet(s, i, c); QuietKeeps(s, ActAhead(s, i, c), i);
  }

  lemma CoreTerm(s: State, i: nat, c: Choice)
    requires Core(s) && CanAct(s, i, c) && s.actors[i].pc.Term?
    ensures Core(ActTerm(s, i, c))
  {
    assert ActorOk(i, s.actors[i], s.hist, s.clock);
    match s.actors[i].pc.term
    case TermMark => TerminationMarked(s, i, c);
    case TermRemove => RecordTornDown(s, i, c);
    case Deleting => InstanceDeleted(s, i, c);
    case _ => TermQuiet(s, i, c); QuietKeeps(s, ActTerm(s, i, c), i);
  }

  /** The step of an actor, whatever its position. */
  lemma CoreAct(s: State, i: nat, c: Choice)
    requires Core(s) && CanAct(s, i, c)
    ensures Core(ActStep(s, i, c))
  {
    assert ActorOk(i, s.actors[i], s.hist, s.clock) && NameOk(s, s.actors[i].name);
    match s.actors[i].pc
    case Scale(_) => ScaleQuiet(s, i); ScaleMoved(s, i); QuietKeeps(s, ActScale(s, i), i);
    case Handle(MarkBusy) => JobStartedMarks(s, i, c);
    case Handle(_) => HandleQuiet(s, i); QuietKeeps(s, ActHandle(s, i), i);
    case Unwind(_) => UnwindQuiet(s, i); QuietKeeps(s, ActUnwind(s, i), i);
    case Exit(_) => ExitQuiet(s, i); QuietKeeps(s, ActExit(s, i), i);
    case Quit(_) => QuitQuiet(s, i); QuietKeeps(s, ActQuit(s, i), i);
    case Verdict(MarkIdle) => Promoted(s, i, c);
    case Verdict(AbortRemove) => LaunchAborted(s, i, c);
    case Verdict(QuitRemove) => LaunchQuit(s, i, c);
    case Prep(_) => CorePrepMint(s, i, c);
    case Mint(_) => CorePrepMint(s, i, c);
    case Ahead(_) => CoreAhead(s, i, c);
    case Term(_) => CoreTerm(s, i, c);
  }

  // ----- steps of the environment, the reaper and the shutdown -----

  /** A new actor appears. */
  lemma Arrives(s: State, s': State, a: Actor)
    requires Core(s) && s'.actors == s.actors + [a] && s'.tracker == s.tracker && s'.hist == s.hist
    requires s'.clock == s.clock && s'.remote == s.remote && ReaperOk(s'.reaper, s.hist)
    requires ActorOk(|s.actors|, a, s.hist, s.clock)
    ensures Core(s')
  {
    assert NameOk(s, a.name);
    Step(s, s', |s.actors|, a.name);
  }

  lemma JobStartedArrives(s: State, n: Name)
    requires Core(s) && n != ""
    ensures Core(Apply(s, JobStarted(n)))
  {
    var s' := Apply(s, JobStarted(n));
    assert NameOk(s, n);
    Step(s, s', |s.actors|, n);
  }

  lemma Dispatched(s: State)
    requires Core(s) && Enabled(s, SweepDispatch)
    ensures Core(Dispatch(s))
  {
    var s' := Dispatch(s);
    match s.reaper
    case Handing(queue, now) =>
      assert QueuedOk(queue[0], s.hist);
      Arrives(s, s', NewWorker(queue[0], TimedOut(s.cfg, queue[0], now)));
    case Sweeping(orphans) =>
      Arrives(s, s', NewSweeper(orphans[0]));
  }

  lemma OrphansUnknown(listing: seq<Name>, known: set<Name>, n: Name)
    ensures n in Orphans(listing, known) <==> n in listing && n !in known
  {}

  /** Add before Launch on one side, List before names on the other: an instance that was listed and is
      not known afterwards is a leftover, or its record is gone. */
  lemma NamesRead(s: State)
    requires Core(s) && s.reaper.Listed?
    ensures ReaperOk(Sweeping(Orphans(s.reaper.listing, s.tracker.Keys)), s.hist)
  {
    var orphans := Orphans(s.reaper.listing, s.tracker.Keys);
    forall k | 0 <= k < |orphans| ensures orphans[k] in s.hist.prior || orphans[k] in s.hist.removed {
      OrphansUnknown(s.reaper.listing, s.tracker.Keys, orphans[k]);
      assert NameOk(s, orphans[k]);
    }
  }

  lemma SnapshotQueued(s: State, order: seq<Record>, now: int)
    requires Core(s) && IsSnapshot(s.tracker, order)
    ensures ReaperOk(Handing(order, now), s.hist)
  {
    forall k | 0 <= k < |order| ensures QueuedOk(order[k], s.hist) {
      assert NameOk(s, order[k].name);
    }
  }

  lemma ListingKnown(s: State, listing: seq<Name>)
    requires Core(s) && IsListing(s.remote, listing)
    ensures ReaperOk(Listed(listing), s.hist)
  {
    forall k | 0 <= k < |listing| ensures listing[k] in s.hist.prior || listing[k] in s.hist.launched {
      assert NameOk(s, listing[k]);
    }
  }

  lemma CoreApply(s: State, e: Event)
    requires Core(s) && Enabled(s, e)
    ensures Core(Apply(s, e))
  {
    match e
    case Act(i, c) => CoreAct(s, i, c);
    case DesiredCount(count) => Arrives(s, Apply(s, e), NewScaler(Clamp(count, s.cfg.maxRunners)));
    case JobStarted(n) => JobStartedArrives(s, n);
    case JobCompleted(n) => Arrives(s, Apply(s, e), NewCompleter(n));
    case SweepDispatch => Dispatched(s);
    case ReadNames => NamesRead(s); StillCore(s, Apply(s, e));
    case SweepSnapshot(order) => SnapshotQueued(s, order, s.reaper.now); StillCore(s, Apply(s, e));
    case ListReturn(ok, listing) =>
      if ok { ListingKnown(s, listing); }
      StillCore(s, Apply(s, e));
    case _ => StillCore(s, Apply(s, e));
  }
}
