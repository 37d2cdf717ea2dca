/** What must not get lost: a termination request, and a GitHub registration. */
module Obligations {
  import opened Tracking
  import opened Lifecycle
  import opened LifecycleInvariant
  import opened LifecycleAccounts

  // ----- termination requests -----

  /** The actor will take n's record away, whatever the other actors do: it is the spawn task that has
      yet to look at the record, or a terminator that found the launch over. */
  predicate BoundToRemove(a: Actor, n: Name) {
    a.name == n && ((a.role.Spawner? && (InCharge(a.pc) || a.pc == Term(TermMark))) || a.pc == Term(TermRemove))
  }

  /** Every record with a termination request has an actor bound to remove it. */
  ghost predicate PendingOk(s: State) {
    forall n :: PendingIn(s.tracker, n) ==> exists j :: 0 <= j < |s.actors| && BoundToRemove(s.actors[j], n)
  }

  /** The two decisions of the hand-over: markIdle sees the request, and the spawn task that saw it does not defer. */
  lemma HandsOver(s: State, i: nat, c: Choice)
    requires Core(s) && CanAct(s, i, c) && s.actors[i].role.Spawner? && PendingIn(s.tracker, s.actors[i].name)
    ensures s.actors[i].pc == Verdict(MarkIdle) ==> ActVerdict(s, i).actors[i].pc == Term(TermMark)
    ensures s.actors[i].pc == Term(TermMark) ==> ActTerm(s, i, c).actors[i].pc == Term(TermRemove)
  {
    assert ActorOk(i, s.actors[i], s.hist, s.clock) && NameOk(s, s.actors[i].name);
  }

  /** Along the edges an actor bound to remove stays bound, or has just removed. */
  lemma BoundAlongEdge(a: Actor, a': Actor, n: Name)
    requires Steps(a, a') && BoundToRemove(a, n)
    requires a.role.Spawner? && a.pc == Verdict(MarkIdle) ==> a'.pc == Term(TermMark)
    requires a.role.Spawner? && a.pc == Term(TermMark) ==> a'.pc == Term(TermRemove)
    ensures BoundToRemove(a', n) || a.pc == Term(TermRemove) || a.pc == Verdict(AbortRemove)
      || a.pc == Verdict(QuitRemove)
  {}

  /** An actor bound to remove a pending record stays bound until the record is gone. */
  lemma BoundStays(s: State, i: nat, c: Choice, n: Name)
    requires Core(s) && CanAct(s, i, c) && PendingIn(s.tracker, n) && BoundToRemove(s.actors[i], n)
    ensures var s' := ActStep(s, i, c); n !in s'.tracker || (i < |s'.actors| && BoundToRemove(s'.actors[i], n))
  {
    EdgeTaken(s, i, c);
    ActShape(s, i, c);
    RegistryStep(s, i, c);
    if s.actors[i].role.Spawner? { HandsOver(s, i, c); }
    BoundAlongEdge(s.actors[i], ActStep(s, i, c).actors[i], n);
  }

  /** A terminator that marks a record leaves it to an actor bound to remove it: itself, or the spawn task. */
  lemma MarkedIsBound(s: State, i: nat, c: Choice, n: Name)
    requires Core(s) && CanAct(s, i, c) && s.actors[i].pc == Term(TermMark) && s.actors[i].name == n && n in s.tracker
    ensures exists j :: 0 <= j < |ActTerm(s, i, c).actors| && BoundToRemove(ActTerm(s, i, c).actors[j], n)
  {
    assert ActorOk(i, s.actors[i], s.hist, s.clock) && NameOk(s, n);
    var s' := ActTerm(s, i, c);
    var w := if s.tracker[n].state == Launching then s.hist.owner[n] else i;
    assert BoundToRemove(s'.actors[w], n);
  }

  lemma PendingAct(s: State, i: nat, c: Choice)
    requires Core(s) && PendingOk(s) && CanAct(s, i, c)
    ensures PendingOk(ActStep(s, i, c))
  {
    var s' := ActStep(s, i, c);
    RegistryStep(s, i, c);
    ActShape(s, i, c);
    forall n | PendingIn(s'.tracker, n)
      ensures exists j :: 0 <= j < |s'.actors| && BoundToRemove(s'.actors[j], n)
    {
      if PendingIn(s.tracker, n) {
        var w :| 0 <= w < |s.actors| && BoundToRemove(s.actors[w], n);
        if w == i {
          BoundStays(s, i, c, n);
        } else {
          assert s'.actors[w] == s.actors[w];
        }
      } else {
        MarkedIsBound(s, i, c, n);
      }
    }
  }

  // ----- GitHub registrations -----

  /** The actor holds registration `id` of runner n and has yet to add it to the tracker or to give it back. */
  predicate Owes(a: Actor, n: Name, id: int) {
    && a.name == n && a.id == id
    && match a.role
       case Spawner =>
         a.pc == Mint(Rendering) || a.pc == Mint(PreDeregister) || a.pc == Mint(AddWait)
         || a.pc == Verdict(AbortRemove) || a.pc == Verdict(QuitRemove) || a.pc.Term?
         || a.pc == Exit(Deregister) || a.pc == Quit(QuitDeregister)
       case Worker => a.pc.Term? || a.pc == Exit(Deregister)
       case _ => false
  }

  /** Where a registration can be: in the tracker, handed to RemoveRunner, torn down by its job's
      completion, or in the hands of an actor that owes it. */
  ghost predicate Accounted(s: State, n: Name, id: int) {
    || n in s.tracker
    || (n, id) in s.books.passed
    || n in s.books.completed
    || exists j :: 0 <= j < |s.actors| && Owes(s.actors[j], n, id)
  }

  ghost predicate LedgerOk(s: State) {
    forall n :: n in s.hist.minted && s.hist.minted[n] != 0 ==> Accounted(s, n, s.hist.minted[n])
  }

  predicate Deregisters(pc: Pc) {
    pc == Mint(PreDeregister) || pc == Exit(Deregister) || pc == Quit(QuitDeregister)
  }

  /** The accounts only grow, a registration that is not zero is handed over where the program calls
      RemoveRunner, names are chosen in one place, and no actor changes the configuration, the phase, or what
      was there or settled before. */
  predicate BooksGrow(s: State, s': State, a: Actor) {
    && s.books.passed <= s'.books.passed
    && s.books.completed <= s'.books.completed
    && (Deregisters(a.pc) && a.id != 0 ==> (a.name, a.id) in s'.books.passed)
    && (a.pc == Term(TermRemove) && a.role.Completer? && a.name in s.tracker ==> a.name in s'.books.completed)
    && (a.pc != Mint(Minting) ==> s'.hist.minted == s.hist.minted)
    && s.hist.removed <= s'.hist.removed && s.hist.born <= s'.hist.born && s.hist.stamped.Keys <= s'.hist.stamped.Keys
    && s'.hist.early == s.hist.early && s'.hist.premature == s.hist.premature && s'.hist.prior == s.hist.prior
    && (a.pc != Prep(Naming) ==> s'.hist.owner == s.hist.owner)
    && s'.cfg == s.cfg && s'.phase == s.phase
  }

  lemma TermBooks(s: State, i: nat, c: Choice)
    requires i < |s.actors| && s.actors[i].pc.Term?
    ensures BooksGrow(s, ActTerm(s, i, c), s.actors[i])
  {}

  lemma MintBooks(s: State, i: nat, c: Choice)
    requires i < |s.actors| && s.actors[i].pc.Mint?
    ensures BooksGrow(s, ActMint(s, i, c), s.actors[i])
  {}

  /** A step on the way to the launch, or of the launch, changes what is known of launches only. */
  predicate LaunchesOnly(s: State, s': State) {
    && s'.books == s.books && s'.cfg == s.cfg && s'.phase == s.phase
    && s'.hist == s.hist.(launched := s'.hist.launched, finished := s'.hist.finished)
  }

  lemma ApproachHistory(s: State, i: nat, c: Choice)
    requires i < |s.actors| && s.actors[i].pc.Ahead?
    requires s.actors[i].pc.ahead.Added? || s.actors[i].pc.ahead.DropMint? || s.actors[i].pc.ahead.LaunchWait?
    ensures LaunchesOnly(s, ActAhead(s, i, c))
  {}

  lemma LaunchHistory(s: State, i: nat, c: Choice)
    requires i < |s.actors| && s.actors[i].pc.Ahead?
    requires s.actors[i].pc.ahead.PreCheck? || s.actors[i].pc.ahead.LaunchCall? || s.actors[i].pc.ahead.LaunchFlight?
    ensures LaunchesOnly(s, ActAhead(s, i, c))
  {}

  lemma AheadBooks(s: State, i: nat, c: Choice)
    requires i < |s.actors| && s.actors[i].pc.Ahead?
    ensures BooksGrow(s, ActAhead(s, i, c), s.actors[i])
  {
    match s.actors[i].pc.ahead
    case PreCheck => LaunchHistory(s, i, c);
    case LaunchCall => LaunchHistory(s, i, c);
    case LaunchFlight => LaunchHistory(s, i, c);
    case _ => ApproachHistory(s, i, c);
  }

  lemma ExitQuitBooks(s: State, i: nat, c: Choice)
    requires CanAct(s, i, c) && (s.actors[i].pc.Exit? || s.actors[i].pc.Quit?)
    ensures BooksGrow(s, ActStep(s, i, c), s.actors[i])
  {}

  lemma ScaleBooks(s: State, i: nat)
    requires i < |s.actors| && s.actors[i].pc.Scale?
    ensures BooksGrow(s, ActScale(s, i), s.actors[i])
  {}

  lemma PrepBooks(s: State, i: nat, c: Choice)
    requires i < |s.actors| && s.actors[i].pc.Prep?
    ensures BooksGrow(s, ActPrep(s, i, c), s.actors[i])
  {}

  lemma VerdictHistory(s: State, i: nat)
    requires i < |s.actors| && s.actors[i].pc.Verdict?
    ensures var s' := ActVerdict(s, i);
      && s'.books == s.books && s'.cfg == s.cfg && s'.phase == s.phase
      && s'.hist == s.hist.(removed := s'.hist.removed) && s.hist.removed <= s'.hist.removed
  {}

  lemma VerdictBooks(s: State, i: nat)
    requires i < |s.actors| && s.actors[i].pc.Verdict?
    ensures BooksGrow(s, ActVerdict(s, i), s.actors[i])
  {
    VerdictHistory(s, i);
  }

  lemma BooksStep(s: State, i: nat, c: Choice)
    requires CanAct(s, i, c)
    ensures BooksGrow(s, ActStep(s, i, c), s.actors[i])
  {
    match s.actors[i].pc
    case Scale(_) => ScaleBooks(s, i);
    case Term(_) => TermBooks(s, i, c);
    case Mint(_) => MintBooks(s, i, c);
    case Ahead(_) => AheadBooks(s, i, c);
    case Exit(_) => ExitQuitBooks(s, i, c);
    case Quit(_) => ExitQuitBooks(s, i, c);
    case Prep(_) => PrepBooks(s, i, c);
    case Verdict(_) => VerdictBooks(s, i);
    case _ =>
  }

  /** Along the edges an actor that owes a registration keeps owing it, until it tracks it or hands it over. */
  lemma OwesAlongEdge(a: Actor, a': Actor, n: Name, id: int)
    requires Steps(a, a') && Owes(a, n, id)
    ensures Owes(a', n, id) || a.pc == Mint(AddWait) || Deregisters(a.pc)
  {}

  /** Whoever removes a record takes its registration over, unless its job completed. */
  lemma RemoverOwes(a: Actor, a': Actor, n: Name, id: int)
    requires RoleFits(a) && Steps(a, a') && a.name == n && a.id == id && !a.role.Completer?
    requires a.pc == Term(TermRemove) || a.pc == Verdict(AbortRemove) || a.pc == Verdict(QuitRemove)
    ensures Owes(a', n, id)
  {}

  lemma AccountedAct(s: State, i: nat, c: Choice, n: Name)
    requires Core(s) && CanAct(s, i, c)
    requires n in s.hist.minted && s.hist.minted[n] != 0 && Accounted(s, n, s.hist.minted[n])
    ensures Accounted(ActStep(s, i, c), n, s.hist.minted[n])
  {
    var id := s.hist.minted[n];
    var s', a := ActStep(s, i, c), s.actors[i];
    assert ActorOk(i, a, s.hist, s.clock);
    RegistryStep(s, i, c);
    ActShape(s, i, c);
    EdgeTaken(s, i, c);
    BooksStep(s, i, c);
    var a' := s'.actors[i];
    if n in s.tracker {
      if n !in s'.tracker && !a.role.Completer? {
        RemoverOwes(a, a', n, id);
      }
    } else if exists j :: 0 <= j < |s.actors| && Owes(s.actors[j], n, id) {
      var w :| 0 <= w < |s.actors| && Owes(s.actors[w], n, id);
      if w == i {
        OwesAlongEdge(a, a', n, id);
      } else {
        assert s'.actors[w] == s.actors[w];
      }
    }
  }

  lemma LedgerAct(s: State, i: nat, c: Choice)
    requires Core(s) && LedgerOk(s) && CanAct(s, i, c)
    ensures LedgerOk(ActStep(s, i, c))
  {
    var s', a := ActStep(s, i, c), s.actors[i];
    assert ActorOk(i, a, s.hist, s.clock);
    BooksStep(s, i, c);
    forall n | n in s'.hist.minted && s'.hist.minted[n] != 0 ensures Accounted(s', n, s'.hist.minted[n]) {
      if a.pc == Mint(Minting) && n == a.name {
        assert Owes(s'.actors[i], n, s'.hist.minted[n]);
      } else {
        AccountedAct(s, i, c, n);
      }
    }
  }

  // ----- all other steps -----

  lemma ArrivalKeeps(s: State, s': State, a: Actor)
    requires PendingOk(s) && LedgerOk(s) && s'.actors == s.actors + [a] && s'.tracker == s.tracker
    requires s'.books == s.books && s'.hist.minted == s.hist.minted
    ensures PendingOk(s') && LedgerOk(s')
  {
    forall n | PendingIn(s'.tracker, n) ensures exists j :: 0 <= j < |s'.actors| && BoundToRemove(s'.actors[j], n) {
      var w :| 0 <= w < |s.actors| && BoundToRemove(s.actors[w], n);
      assert s'.actors[w] == s.actors[w];
    }
    forall n | n in s'.hist.minted && s'.hist.minted[n] != 0 ensures Accounted(s', n, s'.hist.minted[n]) {
      var id := s.hist.minted[n];
      if exists j :: 0 <= j < |s.actors| && Owes(s.actors[j], n, id) {
        var w :| 0 <= w < |s.actors| && Owes(s.actors[w], n, id);
        assert s'.actors[w] == s.actors[w];
      }
    }
  }

  lemma StillObliged(s: State, s': State)
    requires PendingOk(s) && LedgerOk(s) && s'.actors == s.actors && s'.tracker == s.tracker
    requires s'.books == s.books && s'.hist.minted == s.hist.minted
    ensures PendingOk(s') && LedgerOk(s')
  {
    forall n | n in s'.hist.minted && s'.hist.minted[n] != 0 ensures Accounted(s', n, s'.hist.minted[n]) {
      assert Accounted(s, n, s.hist.minted[n]);
    }
  }

  lemma DispatchKeeps(s: State)
    requires PendingOk(s) && LedgerOk(s) && Enabled(s, SweepDispatch)
    ensures PendingOk(Dispatch(s)) && LedgerOk(Dispatch(s))
  {
    ArrivalKeeps(s, Dispatch(s), Dispatch(s).actors[|s.actors|]);
  }

  lemma ObligationsApply(s: State, e: Event)
    requires Core(s) && PendingOk(s) && LedgerOk(s) && Enabled(s, e)
    ensures PendingOk(Apply(s, e)) && LedgerOk(Apply(s, e))
  {
    match e
    case Act(i, c) => PendingAct(s, i, c); LedgerAct(s, i, c);
    case DesiredCount(count) => ArrivalKeeps(s, Apply(s, e), NewScaler(Clamp(count, s.cfg.maxRunners)));
    case JobStarted(n) => ArrivalKeeps(s, Apply(s, e), NewStarter(n, s.clock));
    case JobCompleted(n) => ArrivalKeeps(s, Apply(s, e), NewCompleter(n));
    case SweepDispatch => DispatchKeeps(s);
    case _ => StillObliged(s, Apply(s, e));
  }
}
