/** The drift half of a sweep, which hands its orphans out the same way: for every interleaving of the goroutines
    the host ends as the sequential loop leaves it. */
module ParallelDrift {
  import opened Tracking
  import opened Lifecycle
  import opened LifecycleAccounts
  import P = ParallelSweep

  /** An orchestrator at rest is about to hand the orphans out. */
  ghost predicate Begins(b: State, orphans: seq<Name>) {
    Quiescent(b) && b.reaper == Sweeping(orphans)
  }

  /** The goroutine's Delete has returned. */
  predicate Past(pc: Pc) {
    pc.Exit? || pc.Done?
  }

  predicate SweeperOk(n: Name, a: Actor) {
    && a.role.Sweeper? && a.name == n
    && (Tearing(a.pc) ==> a.pc != Term(TermRemove)) && (Tearing(a.pc) || a.pc == Exit(DropLaunch) || a.pc.Done?)
  }

  /** The instances that are gone: those whose Delete has returned and was carried out. */
  function Gone(orphans: seq<Name>, sweepers: seq<Actor>, deletable: set<Name>): set<Name>
    requires |sweepers| <= |orphans|
  {
    set w | 0 <= w < |sweepers| && Past(sweepers[w].pc) && orphans[w] in deletable :: orphans[w]
  }

  /** The goroutines so far are for the first k orphans, in order, one each. */
  ghost predicate Between(b: State, s: State, orphans: seq<Name>, deletable: set<Name>, k: nat) {
    && k <= |orphans| && |s.actors| == |b.actors| + k
    && (s.reaper == Sweeping(orphans[k..]) || (s.reaper == SweptJoin && (k == |orphans| || s.ctxDone)))
    && (forall j :: 0 <= j < |b.actors| ==> s.actors[j].pc.Done?)
    && (forall w :: 0 <= w < k ==> SweeperOk(orphans[w], s.actors[|b.actors| + w]))
    && s.tracker == b.tracker && s.books == b.books
    && s.remote == b.remote - Gone(orphans, s.actors[|b.actors|..], deletable)
  }

  lemma SweeperSteps(s: State, i: nat, c: Choice, n: Name)
    requires CanAct(s, i, c) && SweeperOk(n, s.actors[i])
    ensures var s' := ActStep(s, i, c);
      && |s'.actors| == |s.actors| && s'.actors == s.actors[i := s'.actors[i]] && SweeperOk(n, s'.actors[i])
      && (Past(s'.actors[i].pc) <==> Past(s.actors[i].pc) || s.actors[i].pc == Term(Deleting))
      && s'.tracker == s.tracker && s'.ctxDone == s.ctxDone && s'.reaper == s.reaper
  {
    EdgeTaken(s, i, c);
    ActShape(s, i, c);
    RegistryStep(s, i, c);
    HostStep(s, i, c);
  }

  lemma TermBooksKept(s: State, i: nat, c: Choice)
    requires i < |s.actors| && s.actors[i].pc.Term? && !s.actors[i].role.Completer?
    ensures ActTerm(s, i, c).books == s.books
  {}

  lemma BooksOfSweeper(s: State, i: nat, c: Choice, n: Name)
    requires CanAct(s, i, c) && SweeperOk(n, s.actors[i])
    ensures ActStep(s, i, c).books == s.books
  {
    if s.actors[i].pc.Term? { TermBooksKept(s, i, c); }
  }

  lemma GoneStep(orphans: seq<Name>, sweepers: seq<Actor>, deletable: set<Name>, v: nat, a: Actor)
    requires v < |sweepers| <= |orphans| && (Past(sweepers[v].pc) ==> Past(a.pc))
    ensures Gone(orphans, sweepers[v := a], deletable)
            == Gone(orphans, sweepers, deletable)
               + (if Past(a.pc) && orphans[v] in deletable then {orphans[v]} else {})
  {
    var after := sweepers[v := a];
    forall n ensures n in Gone(orphans, after, deletable) <==>
      n in Gone(orphans, sweepers, deletable) || (Past(a.pc) && orphans[v] in deletable && n == orphans[v])
    {
      if w :| 0 <= w < |sweepers| && Past(sweepers[w].pc) && orphans[w] in deletable && orphans[w] == n {
        assert Past(after[w].pc);
      }
      if w :| 0 <= w < |after| && Past(after[w].pc) && orphans[w] in deletable && orphans[w] == n {
        assert w == v || after[w] == sweepers[w];
      }
      if Past(a.pc) && orphans[v] in deletable && n == orphans[v] {
        assert after[v] == a;
      }
    }
  }

  /** One goroutine moved on, and if its Delete returned its orphan is gone, if Incus carried that out. */
  lemma BetweenKept(b: State, s: State, s': State, orphans: seq<Name>, deletable: set<Name>, k: nat, v: nat, a: Actor)
    requires Between(b, s, orphans, deletable, k) && v < k && SweeperOk(orphans[v], a)
    requires s'.actors == s.actors[|b.actors| + v := a] && s'.reaper == s.reaper && s'.ctxDone == s.ctxDone
    requires s'.tracker == s.tracker && s'.books == s.books
    requires Past(a.pc) <==> Past(s.actors[|b.actors| + v].pc) || s.actors[|b.actors| + v].pc == Term(Deleting)
    requires var deletes := s.actors[|b.actors| + v].pc == Term(Deleting) && orphans[v] in deletable;
             s'.remote == if deletes then s.remote - {orphans[v]} else s.remote
    ensures Between(b, s', orphans, deletable, k)
  {
    var before := s.actors[|b.actors|..];
    assert s'.actors[|b.actors|..] == before[v := a];
    GoneStep(orphans, before, deletable, v, a);
  }

  lemma SweeperActs(b: State, s: State, orphans: seq<Name>, deletable: set<Name>, k: nat, i: nat)
    requires Begins(b, orphans) && Between(b, s, orphans, deletable, k) && i < |s.actors| && !s.actors[i].pc.Done?
    ensures |b.actors| <= i < |b.actors| + k && SweeperOk(orphans[i - |b.actors|], s.actors[i])
  {
    var v := i - |b.actors|;
    assert 0 <= v < k && SweeperOk(orphans[v], s.actors[|b.actors| + v]);
  }

  lemma BetweenAct(b: State, s: State, orphans: seq<Name>, deletable: set<Name>, k: nat, i: nat, c: Choice)
    requires Begins(b, orphans) && Between(b, s, orphans, deletable, k) && CanAct(s, i, c)
    requires P.SweepEvent(s, Act(i, c), deletable)
    ensures Between(b, ActStep(s, i, c), orphans, deletable, k)
  {
    SweeperActs(b, s, orphans, deletable, k, i);
    var v := i - |b.actors|;
    SweeperSteps(s, i, c, orphans[v]);
    BooksOfSweeper(s, i, c, orphans[v]);
    HostStep(s, i, c);
    BetweenKept(b, s, ActStep(s, i, c), orphans, deletable, k, v, ActStep(s, i, c).actors[i]);
  }

  lemma BetweenDispatch(b: State, s: State, orphans: seq<Name>, deletable: set<Name>, k: nat)
    requires Begins(b, orphans) && Between(b, s, orphans, deletable, k) && Enabled(s, SweepDispatch)
    ensures Between(b, Dispatch(s), orphans, deletable, k + 1)
  {
    var s' := Dispatch(s);
    assert orphans[k..][0] == orphans[k] && orphans[k..][1..] == orphans[k + 1..];
    assert s'.actors == s.actors + [NewSweeper(orphans[k])];
    var before, after := s.actors[|b.actors|..], s'.actors[|b.actors|..];
    assert after == before + [NewSweeper(orphans[k])];
    assert forall w :: 0 <= w < k ==> after[w] == before[w];
    assert Gone(orphans, after, deletable) == Gone(orphans, before, deletable);
  }

  lemma BetweenApply(b: State, s: State, orphans: seq<Name>, deletable: set<Name>, k: nat, e: Event)
    requires Begins(b, orphans) && Between(b, s, orphans, deletable, k)
    requires Enabled(s, e) && P.SweepEvent(s, e, deletable)
    ensures Between(b, Apply(s, e), orphans, deletable, if e.SweepDispatch? then k + 1 else k)
  {
    match e
    case Act(i, c) => BetweenAct(b, s, orphans, deletable, k, i, c);
    case SweepDispatch => BetweenDispatch(b, s, orphans, deletable, k);
    case _ =>
  }

  lemma {:induction false} BetweenRun(b: State, s: State, orphans: seq<Name>, deletable: set<Name>, k: nat,
                                      es: seq<Event>) returns (k': nat)
    requires Begins(b, orphans) && Between(b, s, orphans, deletable, k)
    requires Legal(s, es) && P.SweepRun(s, es, deletable)
    ensures Between(b, Exec(s, es), orphans, deletable, k')
    decreases |es|
  {
    k' := k;
    if es != [] {
      BetweenApply(b, s, orphans, deletable, k, es[0]);
      k' := if es[0].SweepDispatch? then k + 1 else k;
      k' := BetweenRun(b, Apply(s, es[0]), orphans, deletable, k', es[1..]);
    }
  }

  lemma AllGone(orphans: seq<Name>, sweepers: seq<Actor>, deletable: set<Name>)
    requires |sweepers| <= |orphans| && forall w :: 0 <= w < |sweepers| ==> sweepers[w].pc.Done?
    ensures Gone(orphans, sweepers, deletable) == (set n | n in orphans[..|sweepers|]) * deletable
  {
    forall n | n in orphans[..|sweepers|] && n in deletable ensures n in Gone(orphans, sweepers, deletable) {
      var w :| 0 <= w < |sweepers| && orphans[w] == n;
    }
  }

  /** However the goroutines interleave, when all orphans are handed out and dealt with, exactly those that Incus
      deletes are gone from the host - of all orphans or, if the context was cancelled, of a prefix - and
      tracker and registrations are untouched. */
  lemma DriftIsSequential(b: State, orphans: seq<Name>, es: seq<Event>, deletable: set<Name>) returns (k: nat)
    requires Begins(b, orphans) && Legal(b, es) && P.SweepRun(b, es, deletable)
    requires Exec(b, es).reaper.SweptJoin? && Quiescent(Exec(b, es))
    ensures k <= |orphans| && (k == |orphans| || Exec(b, es).ctxDone)
    ensures |Exec(b, es).actors| == |b.actors| + k
    ensures Exec(b, es).tracker == b.tracker && Exec(b, es).books == b.books
    ensures Exec(b, es).remote == b.remote - ((set n | n in orphans[..k]) * deletable)
  {
    assert orphans[0..] == orphans && b.actors[|b.actors|..] == [];
    k := BetweenRun(b, b, orphans, deletable, 0, es);
    AllGone(orphans, Exec(b, es).actors[|b.actors|..], deletable);
  }
}
