/** Pieces of runs, to be put together where a run with a certain end has to be shown. */
module Schedules {
  import opened Tracking
  import opened Lifecycle

  const YES := Choice(true, "", 0)

  // ----- putting runs together -----

  /** A run can be prolonged by any step that is possible at its end. */
  lemma {:induction false} Prolong(s: State, es: seq<Event>, e: Event)
    requires Legal(s, es) && Enabled(Exec(s, es), e)
    ensures Legal(s, es + [e]) && Exec(s, es + [e]) == Apply(Exec(s, es), e)
    decreases |es|
  {
    if es == [] {
      assert es + [e] == [e] && [e][1..] == [];
    } else {
      Prolong(Apply(s, es[0]), es[1..], e);
      assert (es + [e])[1..] == es[1..] + [e];
    }
  }

  lemma Then(s: State, es: seq<Event>, e: Event) returns (es': seq<Event>)
    requires Legal(s, es) && Enabled(Exec(s, es), e)
    ensures Legal(s, es') && Exec(s, es') == Apply(Exec(s, es), e)
  {
    es' := es + [e];
    Prolong(s, es, e);
  }

  lemma {:induction false} RunOn(s: State, es: seq<Event>, later: seq<Event>)
    requires Legal(s, es) && Legal(Exec(s, es), later)
    ensures Legal(s, es + later) && Exec(s, es + later) == Exec(Exec(s, es), later)
    decreases |es|
  {
    if es == [] {
      assert es + later == later;
    } else {
      RunOn(Apply(s, es[0]), es[1..], later);
      assert (es + later)[1..] == es[1..] + later;
    }
  }

  lemma Followed(s: State, es: seq<Event>, later: seq<Event>) returns (es': seq<Event>)
    requires Legal(s, es) && Legal(Exec(s, es), later)
    ensures Legal(s, es') && Exec(s, es') == Exec(Exec(s, es), later)
  {
    es' := es + later;
    RunOn(s, es, later);
  }

  /** The beginning of a run is a run. */
  lemma {:induction false} Beginning(s: State, es: seq<Event>, k: nat)
    requires Legal(s, es) && k <= |es|
    ensures Legal(s, es[..k]) && Legal(Exec(s, es[..k]), es[k..]) && Exec(Exec(s, es[..k]), es[k..]) == Exec(s, es)
    decreases |es|
  {
    if k > 0 {
      Beginning(Apply(s, es[0]), es[1..], k - 1);
      assert es[..k][1..] == es[1..][..k - 1] && es[1..][k - 1..] == es[k..];
    } else {
      assert es[..0] == [] && es[0..] == es;
    }
  }

  lemma LastStep(s0: State, es: seq<Event>) returns (front: seq<Event>, e: Event)
    requires Legal(s0, es) && es != []
    ensures es == front + [e] && Legal(s0, front)
    ensures Enabled(Exec(s0, front), e) && Exec(s0, es) == Apply(Exec(s0, front), e)
  {
    var k := |es| - 1;
    front, e := es[..k], es[k];
    Beginning(s0, es, k);
    assert es[k..] == [e];
  }

  // ----- a spawn task -----

  lemma TaskAdmitted(s: State, i: nat) returns (es: seq<Event>)
    requires i < |s.actors| && s.actors[i].pc == Prep(MintWait)
    ensures Legal(s, es) && Exec(s, es) == Goto(s, i, if s.cfg.baked then Prep(Naming) else Prep(ResolveWait))
  {
    es := Then(s, [], Act(i, YES));
  }

  lemma TaskResolves(s: State, i: nat) returns (es: seq<Event>)
    requires i < |s.actors| && s.actors[i].pc == Prep(ResolveWait)
    ensures Legal(s, es) && Exec(s, es) == Goto(s, i, Prep(Naming))
  {
    es := Then(s, [], Act(i, YES));
    assert Exec(s, es) == Goto(s, i, Prep(Resolving));
    es := Then(s, es, Act(i, YES));
  }

  lemma TaskNamed(s: State, i: nat, n: Name) returns (es: seq<Event>)
    requires i < |s.actors| && s.actors[i].pc == Prep(Naming) && n !in s.hist.prior && n !in s.hist.owner && n != ""
    ensures Legal(s, es)
    ensures Exec(s, es) == s.(actors := s.actors[i := s.actors[i].(pc := Mint(Minting), name := n)],
                              hist := s.hist.(owner := s.hist.owner[n := i]))
  {
    es := Then(s, [], Act(i, Choice(true, n, 0)));
  }

  /** Task i gets its mint permit, resolves the release if it has to, and chooses its name. */
  lemma TaskNames(s: State, i: nat, n: Name) returns (es: seq<Event>)
    requires i < |s.actors| && s.actors[i].pc == Prep(MintWait) && n !in s.hist.prior && n !in s.hist.owner && n != ""
    ensures Legal(s, es)
    ensures Exec(s, es) == s.(actors := s.actors[i := s.actors[i].(pc := Mint(Minting), name := n)],
                              hist := s.hist.(owner := s.hist.owner[n := i]))
  {
    es := TaskAdmitted(s, i);
    if !s.cfg.baked {
      var more := TaskResolves(Exec(s, es), i);
      es := Followed(s, es, more);
    }
    var more := TaskNamed(Exec(s, es), i, n);
    es := Followed(s, es, more);
  }

  lemma TaskMints(s: State, i: nat, id: int) returns (es: seq<Event>)
    requires i < |s.actors| && s.actors[i].pc == Mint(Minting)
    ensures Legal(s, es)
    ensures Exec(s, es) == s.(actors := s.actors[i := s.actors[i].(pc := Mint(Rendering), id := id)],
                              hist := s.hist.(minted := s.hist.minted[s.actors[i].name := id]))
  {
    es := Then(s, [], Act(i, Choice(true, "", id)));
  }

  lemma TaskStamps(s: State, i: nat) returns (es: seq<Event>)
    requires i < |s.actors| && s.actors[i].pc == Mint(Rendering)
    ensures Legal(s, es)
    ensures Exec(s, es) == s.(actors := s.actors[i := s.actors[i].(pc := Mint(AddWait), at := s.clock)],
                              hist := s.hist.(stamped := s.hist.stamped[s.actors[i].name := s.clock]))
  {
    es := Then(s, [], Act(i, YES));
  }

  /** The section under spawnMu that adds the record. */
  lemma TaskAdds(s: State, i: nat) returns (es: seq<Event>)
    requires i < |s.actors| && s.actors[i].pc == Mint(AddWait) && s.spawnMu.Free?
    ensures Legal(s, es)
    ensures var a := s.actors[i];
            Exec(s, es) == s.(actors := s.actors[i := a.(pc := Ahead(DropMint))], inflight := s.inflight - 1,
                              tracker := s.tracker[a.name := NewRecord(a.name, a.id, a.at)],
                              hist := s.hist.(born := s.hist.born + {a.name}))
  {
    es := Then(s, [], Act(i, YES));
    es := Then(s, es, Act(i, YES));
  }

  lemma TaskPermitted(s: State, i: nat) returns (es: seq<Event>)
    requires i < |s.actors| && s.actors[i].pc == Ahead(DropMint)
    ensures Legal(s, es) && Exec(s, es) == Goto(s, i, Ahead(PreCheck))
  {
    es := Then(s, [], Act(i, YES));
    assert Exec(s, es) == Goto(s, i, Ahead(LaunchWait));
    es := Then(s, es, Act(i, YES));
  }

  lemma TaskCalls(s: State, i: nat) returns (es: seq<Event>)
    requires i < |s.actors| && s.actors[i].pc == Ahead(PreCheck) && !PendingIn(s.tracker, s.actors[i].name)
    ensures Legal(s, es)
    ensures Exec(s, es) == s.(actors := s.actors[i := s.actors[i].(pc := Ahead(LaunchFlight))],
                              hist := s.hist.(launched := s.hist.launched + {s.actors[i].name}))
  {
    es := Then(s, [], Act(i, YES));
    assert Exec(s, es) == Goto(s, i, Ahead(LaunchCall));
    es := Then(s, es, Act(i, YES));
  }

  /** It returns its mint permit, takes a launch permit, finds no request, and calls Launch. */
  lemma TaskLaunches(s: State, i: nat) returns (es: seq<Event>)
    requires i < |s.actors| && s.actors[i].pc == Ahead(DropMint) && !PendingIn(s.tracker, s.actors[i].name)
    ensures Legal(s, es)
    ensures Exec(s, es) == s.(actors := s.actors[i := s.actors[i].(pc := Ahead(LaunchFlight))],
                              hist := s.hist.(launched := s.hist.launched + {s.actors[i].name}))
  {
    es := TaskPermitted(s, i);
    var more := TaskCalls(Exec(s, es), i);
    es := Followed(s, es, more);
  }

  lemma LaunchSucceeds(s: State, i: nat) returns (es: seq<Event>)
    requires i < |s.actors| && s.actors[i].pc == Ahead(LaunchFlight)
    ensures Legal(s, es)
    ensures Exec(s, es)
      == Goto(s, i, Verdict(MarkIdle)).(hist := s.hist.(finished := s.hist.finished + {s.actors[i].name}))
  {
    es := Then(s, [], Act(i, YES));
  }

  lemma TaskLeaves(s: State, i: nat) returns (es: seq<Event>)
    requires i < |s.actors| && s.actors[i].pc == Verdict(MarkIdle) && !PendingIn(s.tracker, s.actors[i].name)
    ensures Legal(s, es)
    ensures Exec(s, es) == s.(actors := s.actors[i := s.actors[i].(pc := Done)],
                              tracker := WithIdle(s.tracker, s.actors[i].name, s.clock))
  {
    es := Then(s, [], Act(i, YES));
    assert Exec(s, es) == Goto(s, i, Exit(DropLaunch)).(tracker := WithIdle(s.tracker, s.actors[i].name, s.clock));
    es := Then(s, es, Act(i, YES));
  }

  /** Launch succeeds and the runner is idle. */
  lemma TaskConcludes(s: State, i: nat) returns (es: seq<Event>)
    requires i < |s.actors| && s.actors[i].pc == Ahead(LaunchFlight) && !PendingIn(s.tracker, s.actors[i].name)
    ensures Legal(s, es)
    ensures var n := s.actors[i].name;
            Exec(s, es)
              == s.(actors := s.actors[i := s.actors[i].(pc := Done)], tracker := WithIdle(s.tracker, n, s.clock),
                              hist := s.hist.(finished := s.hist.finished + {n}))
  {
    es := LaunchSucceeds(s, i);
    var more := TaskLeaves(Exec(s, es), i);
    es := Followed(s, es, more);
  }

  // ----- the handlers -----

  /** No runner is tracked or in flight, and no handler is reserving. */
  predicate Empty(s: State) {
    s.phase.Running? && s.spawnMu.Free? && s.tracker == map[] && s.inflight == 0 && s.cfg.maxRunners >= 1
  }

  /** One runner is wanted: a handler reserves it and starts its task. */
  lemma OneWanted(s: State) returns (es: seq<Event>)
    requires Empty(s)
    ensures Legal(s, es)
    ensures var t, k := Exec(s, es), |s.actors|;
            && |t.actors| == k + 2 && t.actors[..k] == s.actors && t.actors[k + 1] == NewSpawner()
            && t == s.(inflight := 1, actors := t.actors, books := t.books)
  {
    var k := |s.actors|;
    es := Then(s, [], DesiredCount(1));
    es := Then(s, es, Act(k, YES));
    es := Then(s, es, Act(k, YES));
    assert Exec(s, es).actors[k].pc == Scale(Starting) && Exec(s, es).actors[k].left == 1;
    es := Then(s, es, Act(k, YES));
  }

  /** A job of a tracked runner starts. */
  lemma JobStarts(s: State, n: Name) returns (es: seq<Event>)
    requires n != ""
    ensures Legal(s, es)
    ensures Exec(s, es) == s.(actors := s.actors + [NewStarter(n, s.clock).(pc := Done)],
                              tracker := WithBusy(s.tracker, n, s.clock), hist := Heard(s.hist, n))
  {
    es := Then(s, [], JobStarted(n));
    es := Then(s, es, Act(|s.actors|, YES));
  }

  lemma CompletionArrives(s: State, n: Name) returns (es: seq<Event>)
    requires n in s.tracker && n != ""
    ensures Legal(s, es)
    ensures Exec(s, es) == s.(actors := s.actors + [NewCompleter(n).(pc := Term(TermMark))])
  {
    es := Then(s, [], JobCompleted(n));
    es := Then(s, es, Act(|s.actors|, YES));
  }

  lemma RecordGoes(s: State, k: nat) returns (es: seq<Event>)
    requires k < |s.actors| && s.actors[k].pc == Term(TermRemove) && s.actors[k].name in s.tracker
    ensures Legal(s, es)
    ensures var t := Exec(s, es);
            t == s.(actors := s.actors[k := s.actors[k].(pc := Term(StopCall))],
              tracker := Without(s.tracker, s.actors[k].name),
                    hist := s.hist.(removed := s.hist.removed + {s.actors[k].name}), books := t.books)
  {
    es := Then(s, [], Act(k, YES));
  }

  lemma TerminationMarks(s: State, k: nat) returns (es: seq<Event>)
    requires k < |s.actors| && s.actors[k].pc == Term(TermMark)
    requires s.actors[k].name in s.tracker && s.tracker[s.actors[k].name].state != Launching
    ensures Legal(s, es)
    ensures Exec(s, es) == Goto(s, k, Term(TermRemove)).(tracker := WithPending(s.tracker, s.actors[k].name))
  {
    es := Then(s, [], Act(k, YES));
  }

  /** terminateInstance of a runner that is not launching, up to its Stop call. */
  lemma Terminates(s: State, k: nat) returns (es: seq<Event>)
    requires k < |s.actors| && s.actors[k].pc == Term(TermMark)
    requires s.actors[k].name in s.tracker && s.tracker[s.actors[k].name].state != Launching
    ensures Legal(s, es)
    ensures var t := Exec(s, es);
            t == s.(actors := s.actors[k := s.actors[k].(pc := Term(StopCall))],
              tracker := Without(s.tracker, s.actors[k].name),
                    hist := s.hist.(removed := s.hist.removed + {s.actors[k].name}), books := t.books)
  {
    es := TerminationMarks(s, k);
    var more := RecordGoes(Exec(s, es), k);
    es := Followed(s, es, more);
    assert Without(WithPending(s.tracker, s.actors[k].name), s.actors[k].name) == Without(s.tracker, s.actors[k].name);
  }

  /** A job completes, and the termination of its runner gets as far as the Stop call. */
  lemma JobCompletes(s: State, n: Name) returns (es: seq<Event>)
    requires n in s.tracker && s.tracker[n].state != Launching && n != ""
    ensures Legal(s, es)
    ensures var t := Exec(s, es);
            t == s.(actors := s.actors + [NewCompleter(n).(pc := Term(StopCall))], tracker := Without(s.tracker, n),
                    hist := s.hist.(removed := s.hist.removed + {n}), books := t.books)
  {
    es := CompletionArrives(s, n);
    var s', k := Exec(s, es), |s.actors|;
    assert s'.actors[k].name == n;
    var rest := Terminates(s', k);
    es := Followed(s, es, rest);
  }

  // ----- a whole spawn -----

  /** From nothing to a runner n whose Launch call is in flight, in task |s.actors| + 1. */
  lemma LaunchUnderWay(s: State, n: Name) returns (es: seq<Event>)
    requires Empty(s) && n !in s.hist.prior && n !in s.hist.owner && n != ""
    ensures Legal(s, es)
    ensures var t, i := Exec(s, es), |s.actors| + 1;
            && |t.actors| == i + 1 && t.actors[i].role.Spawner? && t.actors[i].name == n
               && t.actors[i].pc == Ahead(LaunchFlight)
            && t.tracker == map[n := NewRecord(n, 7, s.clock)] && t.inflight == 0 && n in t.hist.launched
            && t == s.(actors := t.actors, tracker := t.tracker, hist := t.hist, books := t.books)
  {
    var i := |s.actors| + 1;
    es := OneWanted(s);
    var more := TaskNames(Exec(s, es), i, n);
    es := Followed(s, es, more);
    more := TaskMints(Exec(s, es), i, 7);
    es := Followed(s, es, more);
    more := TaskStamps(Exec(s, es), i);
    es := Followed(s, es, more);
    more := TaskAdds(Exec(s, es), i);
    es := Followed(s, es, more);
    more := TaskLaunches(Exec(s, es), i);
    es := Followed(s, es, more);
  }
}
