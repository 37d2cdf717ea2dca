/** How precise a sweep is that others interrupt: a worker goes by the record it was handed, whatever became
    of the runner in the meantime. */
module Verdicts {
  import opened Tracking
  import opened Lifecycle
  import opened LifecycleInvariant
  import opened LifecycleAccounts
  import opened Capacity
  import opened Guarantees
  import opened RunnerLives
  import opened Schedules

  // ----- where a worker's record comes from -----

  /** Event k of the run takes a snapshot at sweep time `now`, and r is one of its records. */
  ghost predicate Snapped(s0: State, es: seq<Event>, k: nat, r: Record, now: int) {
    && k < |es| && Legal(s0, es[..k]) && es[k].SweepSnapshot? && r in es[k].order
    && r.name in Exec(s0, es[..k]).tracker && Exec(s0, es[..k]).tracker[r.name] == r
    && Exec(s0, es[..k]).reaper == Woken(now)
  }

  lemma SnappedStays(s0: State, front: seq<Event>, e: Event, k: nat, r: Record, now: int)
    requires Snapped(s0, front, k, r, now)
    ensures Snapped(s0, front + [e], k, r, now)
  {
    assert (front + [e])[..k] == front[..k];
  }

  lemma ReaperOfActors(s: State, e: Event)
    requires Enabled(s, e) && Apply(s, e).reaper.Handing? && !e.SweepSnapshot?
    ensures s.reaper.Handing? && s.reaper.now == Apply(s, e).reaper.now
    ensures forall r :: r in Apply(s, e).reaper.queue ==> r in s.reaper.queue
  {
    if e.Act? {
      ReaperOfAct(s, e.actor, e.choice);
    } else if Arrival(e) {
      Arrived(s, e);
    }
  }

  /** What the reaper still has to hand out was in its snapshot. */
  lemma {:induction false} QueueFrom(s0: State, es: seq<Event>, r: Record) returns (k: nat)
    requires Init(s0) && Legal(s0, es) && Exec(s0, es).reaper.Handing? && r in Exec(s0, es).reaper.queue
    ensures Snapped(s0, es, k, r, Exec(s0, es).reaper.now)
    decreases |es|
  {
    var front, e := LastStep(s0, es);
    if e.SweepSnapshot? {
      k := |front|;
      assert es[..k] == front;
    } else {
      ReaperOfActors(Exec(s0, front), e);
      k := QueueFrom(s0, front, r);
      SnappedStays(s0, front, e, k, r, Exec(s0, es).reaper.now);
    }
  }

  /** A worker was there before, or was just started on the record at the head of the queue. */
  lemma WorkerBefore(s: State, e: Event, j: nat)
    requires Safe(s) && Enabled(s, e) && j < |Apply(s, e).actors| && Apply(s, e).actors[j].role.Worker?
    ensures var a := Apply(s, e).actors[j];
            if j < |s.actors|
            then s.actors[j].role.Worker? && s.actors[j].name == a.name && s.actors[j].stale == a.stale
            else s.reaper.Handing? && s.reaper.queue != []
                 && a == NewWorker(s.reaper.queue[0], TimedOut(s.cfg, s.reaper.queue[0], s.reaper.now))
  {
    if e.Act? {
      ActShape(s, e.actor, e.choice);
      EdgeTaken(s, e.actor, e.choice);
      assert ActorOk(e.actor, s.actors[e.actor], s.hist, s.clock);
    } else if Arrival(e) {
      Arrived(s, e);
    } else if !e.SweepDispatch? {
      ElsewhereOutside(s, e);
    }
  }

  /** A worker's verdict is about a record of some snapshot of its sweep. */
  lemma {:induction false} VerdictFrom(s0: State, es: seq<Event>, j: nat) returns (k: nat, r: Record, now: int)
    requires Init(s0) && Legal(s0, es) && j < |Exec(s0, es).actors| && Exec(s0, es).actors[j].role.Worker?
    ensures Snapped(s0, es, k, r, now) && r.name == Exec(s0, es).actors[j].name
    ensures Exec(s0, es).actors[j].stale == TimedOut(Exec(s0, es).cfg, r, now)
    decreases |es|
  {
    var front, e := LastStep(s0, es);
    var s := Exec(s0, front);
    SafeFromStart(s0, front);
    WorkerBefore(s, e, j);
    ConfigStep(s, e);
    if j < |s.actors| {
      k, r, now := VerdictFrom(s0, front, j);
    } else {
      r, now := s.reaper.queue[0], s.reaper.now;
      k := QueueFrom(s0, front, r);
    }
    SnappedStays(s0, front, e, k, r, now);
  }

  // ----- what may have happened since -----

  /** The event is the step of a job-started handler for n. */
  predicate IsStart(s: State, e: Event, n: Name) {
    e.Act? && e.actor < |s.actors| && s.actors[e.actor].pc == Handle(MarkBusy) && s.actors[e.actor].name == n
  }

  /** Event m of the run is such a step. */
  ghost predicate Starts(s: State, es: seq<Event>, m: nat, n: Name) {
    m < |es| && Legal(s, es[..m]) && IsStart(Exec(s, es[..m]), es[m], n)
  }

  /** When the job-started event arrived that event m of the run handles. */
  ghost function ArrivedAt(s: State, es: seq<Event>, m: nat, n: Name): int
    requires Starts(s, es, m, n)
  {
    Exec(s, es[..m]).actors[es[m].actor].at
  }

  /** The two records are timed alike: whether and since when busy, and since when there. */
  predicate TimedAlike(r: Record, r': Record) {
    r'.mintedAt == r.mintedAt && r'.busyAt == r.busyAt && (r'.state.Busy? <==> r.state.Busy?)
  }

  lemma EffectRetimes(t: Registry, a: Actor, now: int, n: Name)
    requires n in t && n in Effect(t, a, now) && (a.pc == Mint(AddWait) ==> a.name !in t)
    ensures var r, r' := t[n], Effect(t, a, now)[n];
            if a.pc == Handle(MarkBusy) && a.name == n
            then r'.state.Busy? && r'.busyAt == Some(a.at) && r'.mintedAt == r.mintedAt
            else TimedAlike(r, r')
  {}

  /** Only the handling of a job-started event touches what a verdict goes by. */
  lemma OnlyStartsRetime(s: State, e: Event, n: Name)
    requires Safe(s) && Enabled(s, e) && n in s.tracker && n in Apply(s, e).tracker
    ensures var r, r' := s.tracker[n], Apply(s, e).tracker[n];
            if IsStart(s, e, n)
            then r'.state.Busy? && r'.busyAt == Some(s.actors[e.actor].at) && r'.mintedAt == r.mintedAt
            else TimedAlike(r, r')
  {
    if e.Act? {
      assert ActorOk(e.actor, s.actors[e.actor], s.hist, s.clock) && NameOk(s, s.actors[e.actor].name);
      RegistryStep(s, e.actor, e.choice);
      EffectRetimes(s.tracker, s.actors[e.actor], s.clock, n);
    } else if Arrival(e) {
      Arrived(s, e);
    } else if e.SweepDispatch? {
      DispatchAppends(s);
    } else {
      ElsewhereOutside(s, e);
    }
  }

  lemma StillTracked(s: State, e: Event, es: seq<Event>, n: Name)
    requires Safe(s) && Enabled(s, e) && Legal(Apply(s, e), es) && n in s.tracker && n in Exec(Apply(s, e), es).tracker
    ensures n in Apply(s, e).tracker
  {
    SafeApply(s, e);
    BornGrows(s, e);
    assert NameOk(s, n) && NameOk(Apply(s, e), n);
    if n !in Apply(s, e).tracker {
      RemovedForever(Apply(s, e), es, n);
    }
  }

  lemma OneEarlier(s: State, es: seq<Event>, m: nat, n: Name)
    requires Legal(s, es) && es != []
    ensures Starts(s, es, m + 1, n) <==> Starts(Apply(s, es[0]), es[1..], m, n)
    ensures Starts(s, es, m + 1, n) ==> ArrivedAt(s, es, m + 1, n) == ArrivedAt(Apply(s, es[0]), es[1..], m, n)
  {
    if m + 1 < |es| {
      Beginning(s, es, m + 1);
      assert es[..m + 1][0] == es[0] && es[..m + 1][1..] == es[1..][..m];
    }
  }

  /** Over any run a runner that stays tracked is timed as before, or as one of the job-started events says
      that were handled. */
  lemma {:induction false} Retimed(s: State, es: seq<Event>, n: Name) returns (started: bool, m: nat)
    requires Safe(s) && Legal(s, es) && n in s.tracker && n in Exec(s, es).tracker
    ensures !started ==> TimedAlike(s.tracker[n], Exec(s, es).tracker[n])
    ensures started ==> Starts(s, es, m, n) && var r := Exec(s, es).tracker[n];
                        r.state.Busy? && r.busyAt == Some(ArrivedAt(s, es, m, n))
    decreases |es|
  {
    started, m := false, 0;
    if es != [] {
      StillTracked(s, es[0], es[1..], n);
      OnlyStartsRetime(s, es[0], n);
      SafeApply(s, es[0]);
      started, m := Retimed(Apply(s, es[0]), es[1..], n);
      if started {
        OneEarlier(s, es, m, n);
        m := m + 1;
      } else {
        started, m := IsStart(s, es[0], n), 0;
      }
    }
  }

  /** A runner becomes busy only because a job-started event for it is handled. */
  lemma BusyNeedsStart(s: State, es: seq<Event>, n: Name) returns (m: nat)
    requires Safe(s) && Legal(s, es) && n in s.tracker && !s.tracker[n].state.Busy?
    requires n in Exec(s, es).tracker && Exec(s, es).tracker[n].state.Busy?
    ensures Starts(s, es, m, n)
  {
    var started;
    started, m := Retimed(s, es, n);
  }

  /** And a runner for which one has been handled is busy as long as it is tracked. */
  lemma {:induction false} StartedIsBusy(s: State, es: seq<Event>, m: nat, n: Name)
    requires Safe(s) && Legal(s, es) && n in s.tracker && n in Exec(s, es).tracker && Starts(s, es, m, n)
    ensures Exec(s, es).tracker[n].state.Busy?
    decreases |es|
  {
    StillTracked(s, es[0], es[1..], n);
    SafeApply(s, es[0]);
    if m == 0 {
      OnlyStartsRetime(s, es[0], n);
      AdvancesRun(Apply(s, es[0]), es[1..], n);
    } else {
      OneEarlier(s, es, m - 1, n);
      StartedIsBusy(Apply(s, es[0]), es[1..], m - 1, n);
    }
  }

  lemma StateFrom(s: State, es: seq<Event>, k: nat, m: nat)
    requires Legal(s, es) && k + m <= |es|
    ensures Legal(s, es[..k]) && Legal(s, es[..k + m]) && Legal(Exec(s, es[..k]), es[k..][..m])
    ensures Exec(s, es[..k + m]) == Exec(Exec(s, es[..k]), es[k..][..m])
  {
    Beginning(s, es, k);
    Beginning(Exec(s, es[..k]), es[k..], m);
    RunOn(s, es[..k], es[k..][..m]);
    assert es[..k] + es[k..][..m] == es[..k + m];
  }

  /** Events counted from the beginning of a run and from its k-th state. */
  lemma StartsFrom(s: State, es: seq<Event>, k: nat, m: nat, n: Name)
    requires Legal(s, es) && k <= |es| && Legal(s, es[..k])
    ensures Starts(s, es, k + m, n) <==> Starts(Exec(s, es[..k]), es[k..], m, n)
    ensures Starts(s, es, k + m, n) ==> ArrivedAt(s, es, k + m, n) == ArrivedAt(Exec(s, es[..k]), es[k..], m, n)
  {
    if k + m < |es| {
      StateFrom(s, es, k, m);
    }
  }

  // ----- what a worker's verdict is worth by now -----

  lemma TimesPass(s: State, e: Event)
    requires Enabled(s, e) && ((s.reaper.Woken? || s.reaper.Handing?) ==> s.reaper.now <= s.clock)
    ensures var t := Apply(s, e);
            t.clock >= s.clock && ((t.reaper.Woken? || t.reaper.Handing?) ==> t.reaper.now <= t.clock)
  {
    if e.Act? {
      ReaperOfAct(s, e.actor, e.choice);
    } else if Arrival(e) {
      Arrived(s, e);
    }
  }

  /** No sweep began in the future. */
  lemma {:induction false} SweepTimePast(s: State, es: seq<Event>, k: nat)
    requires Legal(s, es) && k <= |es| && ((s.reaper.Woken? || s.reaper.Handing?) ==> s.reaper.now <= s.clock)
    ensures Legal(s, es[..k])
    ensures var t := Exec(s, es[..k]); (t.reaper.Woken? || t.reaper.Handing?) ==> t.reaper.now <= Exec(s, es).clock
    ensures Exec(s, es).clock >= s.clock
    decreases |es|
  {
    if es != [] {
      TimesPass(s, es[0]);
      SweepTimePast(Apply(s, es[0]), es[1..], if k == 0 then 0 else k - 1);
      if k > 0 {
        assert es[..k][0] == es[0] && es[..k][1..] == es[1..][..k - 1];
      }
    }
    if k == 0 {
      assert es[..0] == [];
    }
  }

  /** A record past its timeout stays past it. */
  lemma TimedOutStays(cfg: Config, r: Record, now: int, later: int)
    requires TimedOut(cfg, r, now) && now <= later
    ensures TimedOut(cfg, r, later)
  {}

  /** Event m handles a job-started event for n that arrived at most max_job_duration before now, and its time is
      what the record of n says. */
  ghost predicate Renews(s: State, es: seq<Event>, m: nat, n: Name, r: Record, cfg: Config, now: int) {
    && Starts(s, es, m, n) && r.busyAt == Some(ArrivedAt(s, es, m, n))
    && now - ArrivedAt(s, es, m, n) <= cfg.maxJobDuration
  }

  /** Seen from a state in which the record is past its timeout. */
  lemma OutdatedFrom(s: State, es: seq<Event>, n: Name, cfg: Config, now: int) returns (m: nat)
    requires Safe(s) && Legal(s, es) && n in s.tracker && n in Exec(s, es).tracker && TimedOut(cfg, s.tracker[n], now)
    ensures var r := Exec(s, es).tracker[n]; !TimedOut(cfg, r, now) ==> Renews(s, es, m, n, r, cfg, now)
    ensures Exec(s, es).tracker[n].state.Busy? && !s.tracker[n].state.Busy? ==> Starts(s, es, m, n)
  {
    var started;
    started, m := Retimed(s, es, n);
  }

  /** The record of n was tracked and past its timeout in the k-th state, and is still tracked at the end. */
  ghost predicate SeenStale(s0: State, es: seq<Event>, k: nat, n: Name, cfg: Config, now: int) {
    && Legal(s0, es) && k < |es| && Legal(s0, es[..k]) && es[k].SweepSnapshot?
    && n in Exec(s0, es[..k]).tracker && TimedOut(cfg, Exec(s0, es[..k]).tracker[n], now) && n in Exec(s0, es).tracker
  }

  lemma StartSince(s0: State, es: seq<Event>, k: nat, l: nat, n: Name, cfg: Config, now: int)
    requires Init(s0) && SeenStale(s0, es, k, n, cfg, now) && k < l && Starts(s0, es, l, n)
    ensures var r := Exec(s0, es).tracker[n];
            r.state.Busy? && (Renews(s0, es, l, n, r, cfg, now) ==> !TimedOut(cfg, r, now))
  {
    SafeFromStart(s0, es[..k]);
    Beginning(s0, es, k);
    StartsFrom(s0, es, k, l - k, n);
    StartedIsBusy(Exec(s0, es[..k]), es[k..], l - k, n);
    assert Exec(s0, es).tracker[n].state.Busy?;
  }

  lemma OutdatedSince(s0: State, es: seq<Event>, k: nat, n: Name, cfg: Config, now: int) returns (m: nat)
    requires Init(s0) && SeenStale(s0, es, k, n, cfg, now)
    ensures var r := Exec(s0, es).tracker[n];
      && (!TimedOut(cfg, r, now) ==> k < m && Renews(s0, es, m, n, r, cfg, now))
      && (r.state.Busy? && !Exec(s0, es[..k]).tracker[n].state.Busy? ==> k < m && Starts(s0, es, m, n))
  {
    SafeFromStart(s0, es[..k]);
    Beginning(s0, es, k);
    var l := OutdatedFrom(Exec(s0, es[..k]), es[k..], n, cfg, now);
    StartsFrom(s0, es, k, l, n);
    assert es[k..][0] == es[k];
    m := k + l;
  }

  /** A verdict, once right, is wrong exactly if the job-started event that the record is timed by was handled
      since the snapshot and is recent enough. */
  lemma VerdictOutdated(s0: State, es: seq<Event>, k: nat, n: Name, cfg: Config, now: int)
    requires Init(s0) && SeenStale(s0, es, k, n, cfg, now)
    ensures var r := Exec(s0, es).tracker[n];
            !TimedOut(cfg, r, now) <==> exists m :: k < m && Renews(s0, es, m, n, r, cfg, now)
    ensures !Exec(s0, es[..k]).tracker[n].state.Busy? ==>
              (Exec(s0, es).tracker[n].state.Busy? <==> exists m :: k < m && Starts(s0, es, m, n))
  {
    var m := OutdatedSince(s0, es, k, n, cfg, now);
    forall l | k < l && Starts(s0, es, l, n)
      ensures var r := Exec(s0, es).tracker[n];
            r.state.Busy? && (Renews(s0, es, l, n, r, cfg, now) ==> !TimedOut(cfg, r, now))
    {
      StartSince(s0, es, k, l, n, cfg, now);
    }
  }

  /** Over every interleaving: a worker that tears a runner down was handed a snapshot record of that runner which
      was past the timeout of its state when its sweep began. The record as it is by now
      - is not past its timeout exactly if the time it is judged by comes from a job-started event that was
        handled since the snapshot and is recent enough,
      - and is busy, if it was not then, exactly if such an event was handled since. */
  lemma TornDownByVerdict(s0: State, es: seq<Event>, j: nat) returns (k: nat, r: Record, now: int)
    requires Init(s0) && Legal(s0, es) && j < |Exec(s0, es).actors|
    requires Exec(s0, es).actors[j].role.Worker? && Exec(s0, es).actors[j].pc.Term?
    ensures Snapped(s0, es, k, r, now) && r.name == Exec(s0, es).actors[j].name
    ensures TimedOut(Exec(s0, es).cfg, r, now) && now <= Exec(s0, es).clock
    ensures r.state.Busy? ==> r.busyAt.None? || now - r.busyAt.value > Exec(s0, es).cfg.maxJobDuration
    ensures !r.state.Busy? ==> now - r.mintedAt > Exec(s0, es).cfg.registrationTimeout
    ensures var s := Exec(s0, es);
            r.name in s.tracker ==>
              (!TimedOut(s.cfg, s.tracker[r.name], now)
               <==> exists m :: k < m && Renews(s0, es, m, r.name, s.tracker[r.name], s.cfg, now))
    ensures var s := Exec(s0, es);
            r.name in s.tracker && !TimedOut(s.cfg, s.tracker[r.name], s.clock) ==>
              exists m :: k < m && Starts(s0, es, m, r.name)
    ensures var s := Exec(s0, es);
            r.name in s.tracker && !r.state.Busy? ==>
              (s.tracker[r.name].state.Busy? <==> exists m :: k < m && Starts(s0, es, m, r.name))
  {
    k, r, now := VerdictFrom(s0, es, j);
    var s := Exec(s0, es);
    SafeFromStart(s0, es);
    assert ActorOk(j, s.actors[j], s.hist, s.clock);
    SweepTimePast(s0, es, k);
    if r.name in s.tracker {
      VerdictOutdated(s0, es, k, r.name, s.cfg, now);
      if TimedOut(s.cfg, s.tracker[r.name], now) {
        TimedOutStays(s.cfg, s.tracker[r.name], now, s.clock);
      } else {
        var m :| k < m && Renews(s0, es, m, r.name, s.tracker[r.name], s.cfg, now);
        assert Starts(s0, es, m, r.name);
      }
    }
  }

  // ----- it does happen -----

  /** The worker is about to remove the record of a runner that is busy and within its time. */
  predicate ReapsFresh(t: State, j: nat, n: Name) {
    && j < |t.actors| && t.actors[j].role.Worker? && t.actors[j].name == n && t.actors[j].pc == Term(TermRemove)
    && n in t.tracker && t.tracker[n].state.Busy? && !TimedOut(t.cfg, t.tracker[n], t.clock)
  }

  lemma StaleWorkerMarks(s: State, j: nat) returns (es: seq<Event>)
    requires j < |s.actors| && s.actors[j].role.Worker? && s.actors[j].stale && s.actors[j].pc == Handle(Judge)
    requires s.actors[j].name in s.tracker && s.tracker[s.actors[j].name].state.Busy?
    ensures Legal(s, es)
    ensures Exec(s, es) == Goto(s, j, Term(TermRemove)).(tracker := WithPending(s.tracker, s.actors[j].name))
  {
    es := Then(s, [], Act(j, YES));
    assert Exec(s, es) == Goto(s, j, Term(TermMark));
    var more := TerminationMarks(Exec(s, es), j);
    es := Followed(s, es, more);
  }

  /** Nothing more is needed: whenever a worker has a stale record to judge and its runner is still tracked, that
      runner's job can start, and the worker tears the runner down at this very moment. */
  lemma StaleWorkerGoesAhead(s: State, j: nat) returns (es: seq<Event>)
    requires j < |s.actors| && s.actors[j].role.Worker? && s.actors[j].stale && s.actors[j].pc == Handle(Judge)
    requires s.actors[j].name in s.tracker && s.actors[j].name != "" && s.cfg.maxJobDuration >= 0
    ensures Legal(s, es) && ReapsFresh(Exec(s, es), j, s.actors[j].name)
  {
    es := JobStarts(s, s.actors[j].name);
    assert Exec(s, es).actors[j] == s.actors[j];
    var more := StaleWorkerMarks(Exec(s, es), j);
    es := Followed(s, es, more);
  }

  /** Time passes until the runner is past its timeout, and a sweep takes its snapshot. */
  lemma SnapshotTooLate(s: State, r: Record) returns (es: seq<Event>)
    requires s.phase.Running? && s.reaper.Asleep? && s.tracker == map[r.name := r]
    ensures Legal(s, es)
    ensures var t := Exec(s, es);
            t == s.(clock := t.clock, reaper := Handing([r], t.clock)) && TimedOut(s.cfg, r, t.clock)
  {
    var since := if r.state.Busy? && r.busyAt.Some? then r.busyAt.value + s.cfg.maxJobDuration
                 else r.mintedAt + s.cfg.registrationTimeout;
    es := Then(s, [], Tick(if since + 1 > s.clock then since + 1 else s.clock));
    es := Then(s, es, SweepWake);
    es := Then(s, es, SweepSnapshot([r]));
  }

  lemma WorkerStarted(s: State, r: Record) returns (es: seq<Event>)
    requires s.reaper.Handing? && s.reaper.queue == [r] && TimedOut(s.cfg, r, s.reaper.now)
    ensures Legal(s, es)
    ensures Exec(s, es) == s.(reaper := Handing([], s.reaper.now), actors := s.actors + [NewWorker(r, true)])
  {
    es := Then(s, [], SweepDispatch);
    assert [r][1..] == [];
  }

  /** One runner is idle, and nothing else is going on. */
  lemma RunnerIdle(s0: State, n: Name) returns (es: seq<Event>)
    requires Init(s0) && s0.cfg.maxRunners >= 1 && n !in s0.remote && n != ""
    ensures Legal(s0, es)
    ensures var t := Exec(s0, es);
            && t.phase.Running? && t.reaper.Asleep? && t.cfg == s0.cfg
            && n in t.tracker && t.tracker == map[n := t.tracker[n]]
            && t.tracker[n].name == n && t.tracker[n].state.Idle?
  {
    es := LaunchUnderWay(s0, n);
    var more := TaskConcludes(Exec(s0, es), 1);
    es := Followed(s0, es, more);
  }

  lemma SweptThenStarted(s: State, r: Record) returns (es: seq<Event>)
    requires s.phase.Running? && s.reaper.Asleep? && s.tracker == map[r.name := r] && r.name != ""
    requires s.cfg.maxJobDuration >= 0
    ensures Legal(s, es) && ReapsFresh(Exec(s, es), |s.actors|, r.name)
  {
    es := SnapshotTooLate(s, r);
    var worker := WorkerStarted(Exec(s, es), r);
    es := Followed(s, es, worker);
    assert Exec(s, es).actors[|s.actors|] == NewWorker(r, true);
    var more := StaleWorkerGoesAhead(Exec(s, es), |s.actors|);
    es := Followed(s, es, more);
  }

  /** For every configuration and every fresh name there is a run in which a runner whose job has this very moment
      started is about to be torn down for its registration timeout: the record `seen` by the sweep was idle. */
  lemma BusyRunnerReaped(s0: State, n: Name) returns (es: seq<Event>, later: seq<Event>, seen: Record, j: nat)
    requires Init(s0) && s0.cfg.maxRunners >= 1 && s0.cfg.maxJobDuration >= 0 && n !in s0.remote && n != ""
    ensures Legal(s0, es) && Exec(s0, es).tracker == map[n := seen] && seen.state.Idle? && Legal(Exec(s0, es), later)
    ensures ReapsFresh(Exec(Exec(s0, es), later), j, n)
  {
    es := RunnerIdle(s0, n);
    seen, j := Exec(s0, es).tracker[n], |Exec(s0, es).actors|;
    later := SweptThenStarted(Exec(s0, es), seen);
  }

  /** The same with a runner that was busy already: its job ran for too long, a further job-started event stamps
      BusyAt anew, and it is about to be torn down for its maximal job duration. */
  lemma RestampedRunnerReaped(s0: State, n: Name) returns (es: seq<Event>, later: seq<Event>, seen: Record, j: nat)
    requires Init(s0) && s0.cfg.maxRunners >= 1 && s0.cfg.maxJobDuration >= 0 && n !in s0.remote && n != ""
    ensures Legal(s0, es) && Exec(s0, es).tracker == map[n := seen] && seen.state.Busy? && Legal(Exec(s0, es), later)
    ensures ReapsFresh(Exec(Exec(s0, es), later), j, n)
  {
    es := RunnerIdle(s0, n);
    var more := JobStarts(Exec(s0, es), n);
    es := Followed(s0, es, more);
    seen, j := Exec(s0, es).tracker[n], |Exec(s0, es).actors|;
    later := SweptThenStarted(Exec(s0, es), seen);
  }
}
