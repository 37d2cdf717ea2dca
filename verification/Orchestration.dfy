/** The orchestrator's methods as they run when nothing interrupts them, against the collaborators
    they call. The interleavings are the subject of the module Lifecycle. */
module Orchestration {
  import opened Tracking
  import opened Decimals
  import opened Permits
  import opened SweepSpec
  import L = Lifecycle

  // ----- ownership tags -----

  const META_MANAGED := "user.incuse.managed"
  const META_RUNNER_NAME := "user.incuse.runner_name"
  const META_SCALE_SET_ID := "user.incuse.scale_set_id"

  type Tags = map<string, string>

  /** The filter of the drift sweep: managed by this program, and of this scale set. */
  predicate OwnedBy(tags: Tags, scaleSetId: int) {
    META_MANAGED in tags && tags[META_MANAGED] == "true"
    && META_SCALE_SET_ID in tags && tags[META_SCALE_SET_ID] == Decimal(scaleSetId)
  }

  /** The tags make the instance one of this scale set, and of no other. */
  ghost predicate TaggedFor(tags: Tags, scaleSetId: int) {
    forall id: int :: OwnedBy(tags, id) <==> id == scaleSetId
  }

  lemma TaggedOnce(tags: Tags, scaleSetId: int)
    requires META_MANAGED in tags && tags[META_MANAGED] == "true"
    requires META_SCALE_SET_ID in tags && tags[META_SCALE_SET_ID] == Decimal(scaleSetId)
    ensures TaggedFor(tags, scaleSetId)
  {
    forall id: int ensures OwnedBy(tags, id) <==> id == scaleSetId {
      if Decimal(id) == Decimal(scaleSetId) { DecimalInjective(id, scaleSetId); }
    }
  }

  predicate Has(tags: Tags, key: string, value: string) {
    key in tags && tags[key] == value
  }

  lemma KeysApart()
    ensures "user.incuse.managed" != "security.privileged" && "user.incuse.runner_name" != "security.privileged"
    ensures |"security.nesting"| == 16 && |"security.privileged"| == 19
      && |"security.syscalls.intercept.mknod"| == 33 && |"security.syscalls.intercept.setxattr"| == 36
    ensures |META_MANAGED| == 19 && |META_RUNNER_NAME| == 23 && |META_SCALE_SET_ID| == 24
  {
    assert "user.incuse.managed"[0] == 'u' && "security.privileged"[0] == 's';
  }

  /** The configuration keys of a launch request that concern ownership and containers. */
  method BuildConfig(name: Name, scaleSetId: int, container: bool, privileged: bool) returns (tags: Tags)
    ensures TaggedFor(tags, scaleSetId)
    ensures "user.incuse.scale_set_id" in tags && Read(tags["user.incuse.scale_set_id"]) == scaleSetId
    ensures Has(tags, "user.incuse.managed", "true") && Has(tags, "user.incuse.runner_name", name)
    ensures Has(tags, "user.incuse.scale_set_id", Decimal(scaleSetId))
    ensures container ==>
      Has(tags, "security.nesting", "true") && Has(tags, "security.syscalls.intercept.mknod", "true")
      && Has(tags, "security.syscalls.intercept.setxattr", "true")
    ensures privileged && container ==> Has(tags, "security.privileged", "true")
    ensures !container ==> "security.nesting" !in tags && "security.syscalls.intercept.mknod" !in tags
                           && "security.syscalls.intercept.setxattr" !in tags
    ensures !(container && privileged) ==> "security.privileged" !in tags
  {
    KeysApart();
    tags := map[META_MANAGED := "true", META_RUNNER_NAME := name, META_SCALE_SET_ID := Decimal(scaleSetId)];
    if container {
      tags := tags["security.nesting" := "true"];
      tags := tags["security.syscalls.intercept.mknod" := "true"];
      tags := tags["security.syscalls.intercept.setxattr" := "true"];
      if privileged {
        tags := tags["security.privileged" := "true"];
      }
    }
    TaggedOnce(tags, scaleSetId);
    ReadBack(scaleSetId);
  }

  // ----- collaborators -----

  /** The instances of the Incus project. Stop and Delete always come as a pair, and stopping an ephemeral
      instance may already remove it; `deletable` says whose teardown removes the instance in the end. */
  class Incus {
    var instances: map<Name, Tags>
    const deletable: set<Name>
    ghost var stopped: set<Name>  // a Stop was issued, and no Delete since

    /** An absent instance is not an error. */
    method Stop(n: Name)
      modifies this`stopped
      ensures stopped == old(stopped) + {n}
    {
      stopped := stopped + {n};
    }

    /** Callers must stop an instance first. */
    method Delete(n: Name)
      requires n in stopped
      modifies this
      ensures instances == (if n in deletable then old(instances) - {n} else old(instances))
      ensures stopped == old(stopped) - {n}
    {
      if n in deletable {
        instances := instances - {n};
      }
      stopped := stopped - {n};
    }

    /** A launch that fails may leave its instance behind. */
    method Launch(n: Name, tags: Tags, ok: bool, created: bool)
      modifies this
      ensures instances == (if ok || created then old(instances)[n := tags] else old(instances))
      ensures stopped == old(stopped)
    {
      if ok || created {
        instances := instances[n := tags];
      }
    }

    method List() returns (names: seq<Name>)
      ensures L.IsListing(instances.Keys, names)
    {
      names := [];
      var left := instances.Keys;
      while left != {}
        invariant left <= instances.Keys
        invariant forall k :: 0 <= k < |names| ==> names[k] in instances.Keys && names[k] !in left
        invariant forall n :: n in instances.Keys && n !in left ==> n in names
        invariant forall k, l :: 0 <= k < l < |names| ==> names[k] != names[l]
      {
        var n :| n in left;
        names := names + [n];
        left := left - {n};
      }
    }
  }

  /** The registrations passed to RemoveRunner, in order. */
  class GitHub {
    var passed: seq<int>

    method RemoveRunner(id: int)
      modifies this
      ensures passed == old(passed) + [id]
    {
      passed := passed + [id];
    }
  }

  /** What another goroutine does to a record: a job-started handler, a terminator that asks for the removal, or
      whoever removes it. */
  datatype Touch = JobStart(at: int) | Request | Removal

  /** What the calls of one spawn return. A registration of 0 stands for none. `waiting` is what others do to the
      record while a spawn task waits for its launch permit, `meanwhile` what they do during the Launch call. */
  datatype Outcomes = Outcomes(
    mintSlot: bool, resolved: bool, minted: bool, id: int, rendered: bool, waiting: seq<Touch>,
    launchSlot: bool, launched: bool, leftBehind: bool, meanwhile: seq<Touch>)
  {
    /** GenerateJITConfig is reached and answers with a runner. */
    predicate Mints() { mintSlot && resolved && minted }

    /** The record is added. */
    predicate Tracks() { Mints() && rendered }
  }

  function TouchOne(t: Registry, n: Name, touch: Touch): Registry {
    match touch
    case JobStart(at) => WithBusy(t, n, at)
    case Request => WithPending(t, n)
    case Removal => Without(t, n)
  }

  function Touched(t: Registry, n: Name, touches: seq<Touch>): Registry {
    if touches == [] then t
    else TouchOne(Touched(t, n, touches[..|touches| - 1]), n, touches[|touches| - 1])
  }

  /** The instances that are left when those of `names` are torn down. */
  function TornDown(instances: map<Name, Tags>, names: set<Name>, deletable: set<Name>): map<Name, Tags> {
    instances - (names * deletable)
  }

  /** The host after a Launch call, and after the teardown if the record was flagged during the call. */
  function Hosted(instances: map<Name, Tags>, n: Name, tags: Tags, r: Outcomes, flagged: bool, deletable: set<Name>)
    : map<Name, Tags>
  {
    if r.launched && flagged then TornDown(instances[n := tags], {n}, deletable)
    else if r.launched || r.leftBehind then instances[n := tags]
    else instances
  }

  /** The records of t that a sweep of these names removes. */
  function ReapedNames(cfg: L.Config, t: Registry, names: set<Name>, now: int): set<Name> {
    set n | n in names && n in t && Reaped(cfg, t[n], now)
  }

  /** The instances of this scale set that the registry does not know. */
  function OrphanNames(instances: map<Name, Tags>, known: set<Name>, scaleSetId: int): set<Name> {
    set n | n in instances && OwnedBy(instances[n], scaleSetId) && n !in known
  }

  /** The launch of n goes through: a permit was granted, Incus succeeds, and no termination was requested before
      or during the call. */
  predicate GoesThrough(t: Registry, n: Name, r: Outcomes) {
    r.launchSlot && !PendingIn(t, n) && r.launched && !PendingIn(Touched(t, n, r.meanwhile), n)
  }

  /** What launch makes of the registry: the runner is promoted, or its record removed. */
  function AfterLaunch(t: Registry, n: Name, now: int, r: Outcomes): Registry {
    if GoesThrough(t, n, r) then WithIdle(Touched(t, n, r.meanwhile), n, now) else Without(t, n)
  }

  function HostAfterLaunch(instances: map<Name, Tags>, t: Registry, n: Name, tags: Tags, r: Outcomes,
                           deletable: set<Name>): map<Name, Tags>
  {
    if r.launchSlot && !PendingIn(t, n)
    then Hosted(instances, n, tags, r, PendingIn(Touched(t, n, r.meanwhile), n), deletable)
    else instances
  }

  /** The registry when a spawn task has its launch permit, or is refused one. */
  function Waited(t: Registry, n: Name, now: int, r: Outcomes): Registry {
    Touched(t[n := NewRecord(n, r.id, now)], n, r.waiting)
  }

  /** What is left of the record once others have touched it: it is gone if one of them removed it, and otherwise
      flagged if it was or one of them asked for that, and busy if it was or a job started. */
  lemma {:induction false} TouchedMeans(t: Registry, n: Name, touches: seq<Touch>)
    ensures var after := Touched(t, n, touches);
      && (n in after <==> n in t && Removal !in touches)
      && (n in after ==>
            && (after[n].pending <==> t[n].pending || Request in touches)
            && (after[n].state == if exists k :: 0 <= k < |touches| && touches[k].JobStart? then Busy else t[n].state)
            && after[n].name == t[n].name && after[n].id == t[n].id && after[n].mintedAt == t[n].mintedAt
            && after[n].readyAt == t[n].readyAt)
  {
    if touches != [] {
      var front, last := touches[..|touches| - 1], touches[|touches| - 1];
      TouchedMeans(t, n, front);
      assert touches == front + [last];
    }
  }

  lemma TouchOneElsewhere(t: Registry, n: Name, touch: Touch)
    ensures Without(TouchOne(t, n, touch), n) == Without(t, n)
  {}

  /** Others touch a record under its own name only. */
  lemma {:induction false} TouchedElsewhere(t: Registry, n: Name, touches: seq<Touch>)
    ensures Without(Touched(t, n, touches), n) == Without(t, n)
  {
    if touches != [] {
      var front := touches[..|touches| - 1];
      TouchedElsewhere(t, n, front);
      TouchOneElsewhere(Touched(t, n, front), n, touches[|touches| - 1]);
    }
  }

  lemma IdleElsewhere(t: Registry, n: Name, now: int)
    ensures Without(WithIdle(t, n, now), n) == Without(t, n)
  {}

  /** Spelled out, when a launch goes through and what it makes of the registry. */
  lemma LaunchMeans(t: Registry, n: Name, now: int, r: Outcomes)
    ensures var stays := n in t && Removal !in r.meanwhile;
            var flagged := stays && (t[n].pending || Request in r.meanwhile);
            var after := AfterLaunch(t, n, now, r);
            && (GoesThrough(t, n, r) <==> r.launchSlot && !(n in t && t[n].pending) && r.launched && !flagged)
            && (!GoesThrough(t, n, r) ==> after == t - {n})
            && (GoesThrough(t, n, r) ==> after - {n} == t - {n} && (n in after <==> stays))
            && (GoesThrough(t, n, r) && stays ==> after[n].state != Launching && after[n].id == t[n].id)
  {
    TouchedMeans(t, n, r.meanwhile);
    TouchedElsewhere(t, n, r.meanwhile);
    IdleElsewhere(Touched(t, n, r.meanwhile), n, now);
  }

  /** And of the host. */
  lemma LaunchOnHost(t: Registry, instances: map<Name, Tags>, n: Name, tags: Tags, r: Outcomes, deletable: set<Name>)
    ensures var flagged := n in t && Removal !in r.meanwhile && (t[n].pending || Request in r.meanwhile);
            var asked := r.launchSlot && !(n in t && t[n].pending);
            var hosts := HostAfterLaunch(instances, t, n, tags, r, deletable);
            && hosts - {n} == instances - {n}
            && (asked && (r.launched || r.leftBehind) && !(r.launched && flagged && n in deletable) ==>
                  n in hosts && hosts[n] == tags)
            && (asked && r.launched && flagged && n in deletable ==> n !in hosts)
            && (!asked || (!r.launched && !r.leftBehind) ==> hosts == instances)
  {
    TouchedMeans(t, n, r.meanwhile);
  }

  /** A spawn ends in one of two ways, whatever others do to its record meanwhile: its launch goes through and it
      keeps its registration, or it hands that back and leaves no record and nothing else changed. Left
      alone it is tracked as idle exactly if Incus was asked and succeeded. */
  lemma SpawnEnds(t: Registry, n: Name, now: int, r: Outcomes)
    requires n !in t
    ensures !GoesThrough(Waited(t, n, now, r), n, r) ==> AfterLaunch(Waited(t, n, now, r), n, now, r) == t
    ensures Without(AfterLaunch(Waited(t, n, now, r), n, now, r), n) == t
    ensures r.waiting == [] && r.meanwhile == [] ==>
      AfterLaunch(Waited(t, n, now, r), n, now, r)
      == if r.launchSlot && r.launched then t[n := NewRecord(n, r.id, now).(state := Idle, readyAt := Some(now))] else t
  {
    TouchedElsewhere(t[n := NewRecord(n, r.id, now)], n, r.waiting);
    TouchedElsewhere(Waited(t, n, now, r), n, r.meanwhile);
    assert Without(t[n := NewRecord(n, r.id, now)], n) == t;
  }

  /** Spelled out, when the launch of a new runner goes through, in terms of what others do to its record, and what
      is left of that. */
  lemma SpawnMeans(t: Registry, n: Name, now: int, r: Outcomes)
    requires n !in t
    ensures var through := r.launchSlot && r.launched
              && (Removal in r.waiting
                  || (Request !in r.waiting && (Removal in r.meanwhile || Request !in r.meanwhile)));
            var after := AfterLaunch(Waited(t, n, now, r), n, now, r);
            && (GoesThrough(Waited(t, n, now, r), n, r) <==> through)
            && (!through ==> after == t) && after - {n} == t
            && (n in after <==> through && Removal !in r.waiting && Removal !in r.meanwhile)
            && (through && r.waiting == [] && r.meanwhile == [] ==>
                  after[n] == Record(n, r.id, now, Some(now), None, Idle, false))
  {
    SpawnEnds(t, n, now, r);
    TouchedMeans(t[n := NewRecord(n, r.id, now)], n, r.waiting);
    TouchedMeans(Waited(t, n, now, r), n, r.meanwhile);
  }

  lemma ForgetFlagged(t: Registry, n: Name, now: int)
    ensures Without(WithPending(t, n), n) == Without(t, n) == Without(WithPending(WithIdle(t, n, now), n), n)
  {}

  // ----- how far a sweep got -----

  /** What a sweep changes: the registry, the host, and the registrations passed to RemoveRunner. */
  datatype Scene = Scene(tracked: Registry, hosted: map<Name, Tags>, passed: seq<int>)

  predicate SweptTo(cfg: L.Config, start: Scene, s: Scene, deletable: set<Name>, dealt: seq<Record>, now: int) {
    && s.tracked == Swept(cfg, start.tracked, NamesOf(dealt), now)
    && s.hosted == TornDown(start.hosted, ReapedNames(cfg, start.tracked, NamesOf(dealt), now), deletable)
    && s.passed == start.passed + ReturnedIds(cfg, dealt, now)
  }

  /** The host after reapTracked. */
  function HostAfterReap(cfg: L.Config, t: Registry, instances: map<Name, Tags>, r: Record, now: int,
                         deletable: set<Name>): map<Name, Tags>
  {
    if L.TimedOut(cfg, r, now) && !(r.name in t && t[r.name].state == Launching)
    then TornDown(instances, {r.name}, deletable) else instances
  }

  lemma SweptNothing(cfg: L.Config, start: Scene, deletable: set<Name>, now: int)
    ensures SweptTo(cfg, start, start, deletable, [], now)
  {}

  lemma ReapedOneMore(cfg: L.Config, t: Registry, names: set<Name>, r: Record, now: int)
    requires r.name !in names && r.name in t && t[r.name] == r
    ensures ReapedNames(cfg, t, names + {r.name}, now)
            == ReapedNames(cfg, t, names, now) + (if Reaped(cfg, r, now) then {r.name} else {})
  {}

  lemma TornDownOneMore(instances: map<Name, Tags>, names: set<Name>, n: Name, deletable: set<Name>)
    ensures TornDown(instances, names + {n}, deletable)
      == TornDown(TornDown(instances, names, deletable), {n}, deletable)
  {}

  lemma HostFurther(cfg: L.Config, start: Scene, s: Scene, deletable: set<Name>, names: set<Name>, r: Record, now: int)
    requires s.tracked == Swept(cfg, start.tracked, names, now)
    requires s.hosted == TornDown(start.hosted, ReapedNames(cfg, start.tracked, names, now), deletable)
    requires r.name !in names && r.name in start.tracked && start.tracked[r.name] == r
    ensures HostAfterReap(cfg, s.tracked, s.hosted, r, now, deletable)
            == TornDown(start.hosted, ReapedNames(cfg, start.tracked, names + {r.name}, now), deletable)
  {
    ReapedOneMore(cfg, start.tracked, names, r, now);
    TornDownOneMore(start.hosted, ReapedNames(cfg, start.tracked, names, now), r.name, deletable);
    assert s.tracked[r.name] == r;
  }

  /** The sequential loop, one record further. */
  lemma SweptFurther(cfg: L.Config, start: Scene, s: Scene, deletable: set<Name>, dealt: seq<Record>, r: Record,
    now: int)
    requires SweptTo(cfg, start, s, deletable, dealt, now)
    requires r.name !in NamesOf(dealt) && r.name in start.tracked && start.tracked[r.name] == r
    ensures var s' := Scene(ReapOne(cfg, s.tracked, r, now), HostAfterReap(cfg, s.tracked, s.hosted, r, now, deletable),
                            s.passed + (if L.TimedOut(cfg, r, now) && r.id != 0 then [r.id] else []));
            SweptTo(cfg, start, s', deletable, dealt + [r], now)
  {
    OneMoreDealt(cfg, dealt, r, now);
    SweptOneMore(cfg, start.tracked, NamesOf(dealt), r, now);
    HostFurther(cfg, start, s, deletable, NamesOf(dealt), r, now);
  }

  predicate Spared(before: map<Name, Tags>, after: map<Name, Tags>, n: Name) {
    n in before && n in after && after[n] == before[n]
  }

  /** Spelled out, what a sweep leaves on the host: gone are, of what Incus deletes, the instances of runners that are
      past their timeout and not launching, and, if the sweep gets to its second half, those that are tagged for this
      scale set and not tracked any more. */
  ghost predicate HostSwept(cfg: L.Config, t: Registry, hosted: map<Name, Tags>, tracked: Registry,
                            after: map<Name, Tags>, scaleSetId: int, deletable: set<Name>, now: int, drift: bool)
  {
    && after.Keys <= hosted.Keys
    && (forall n :: n in after ==> after[n] == hosted[n])
    && forall n :: n in hosted ==>
         var late := n in t && !t[n].state.Launching?
                     && if t[n].state.Busy? then t[n].busyAt.None? || now - t[n].busyAt.value > cfg.maxJobDuration
                        else now - t[n].mintedAt > cfg.registrationTimeout;
         var orphan := n !in tracked && Has(hosted[n], "user.incuse.managed", "true")
                       && Has(hosted[n], "user.incuse.scale_set_id", Decimal(scaleSetId));
         n !in after <==> n in deletable && (late || (drift && orphan))
  }

  lemma SweepExact(cfg: L.Config, t: Registry, hosted: map<Name, Tags>, between: map<Name, Tags>, scaleSetId: int,
                   deletable: set<Name>, now: int)
    requires between == TornDown(hosted, ReapedNames(cfg, t, t.Keys, now), deletable)
    ensures var t' := Swept(cfg, t, t.Keys, now);
            && HostSwept(cfg, t, hosted, t', between, scaleSetId, deletable, now, false)
            && HostSwept(cfg, t, hosted, t', TornDown(between, OrphanNames(between, t'.Keys, scaleSetId), deletable),
                         scaleSetId, deletable, now, true)
  {}

  /** What is tracked afterwards is left alone, and so is what is neither tracked nor of this scale set; and if every
      teardown succeeds, all that is left of this scale set is tracked. */
  ghost predicate SweepKeeps(t: Registry, hosted: map<Name, Tags>, tracked: Registry, after: map<Name, Tags>,
                             scaleSetId: int, deletable: set<Name>, drift: bool)
  {
    && (forall n :: n in tracked && n in hosted ==> Spared(hosted, after, n))
    && (forall n :: n in hosted && n !in t && !OwnedBy(hosted[n], scaleSetId) ==> Spared(hosted, after, n))
    && (drift && hosted.Keys <= deletable ==> forall n :: n in after && OwnedBy(after[n], scaleSetId) ==> n in tracked)
  }

  lemma SweepPrecise(cfg: L.Config, t: Registry, hosted: map<Name, Tags>, between: map<Name, Tags>, scaleSetId: int,
                     deletable: set<Name>, now: int)
    requires between == TornDown(hosted, ReapedNames(cfg, t, t.Keys, now), deletable)
    ensures var t' := Swept(cfg, t, t.Keys, now);
            var after := TornDown(between, OrphanNames(between, t'.Keys, scaleSetId), deletable);
            && SweepKeeps(t, hosted, t', between, scaleSetId, deletable, false)
            && SweepKeeps(t, hosted, t', after, scaleSetId, deletable, true)
  {}

  /** The host after a sweep, with or without its second half. */
  lemma SweepOutcome(cfg: L.Config, t: Registry, hosted: map<Name, Tags>, tracked: Registry, after: map<Name, Tags>,
                     scaleSetId: int, deletable: set<Name>, now: int, drift: bool)
    requires tracked == Swept(cfg, t, t.Keys, now)
    requires var between := TornDown(hosted, ReapedNames(cfg, t, t.Keys, now), deletable);
             after == if drift then TornDown(between, OrphanNames(between, tracked.Keys, scaleSetId), deletable)
                      else between
    ensures HostSwept(cfg, t, hosted, tracked, after, scaleSetId, deletable, now, drift)
    ensures SweepKeeps(t, hosted, tracked, after, scaleSetId, deletable, drift)
  {
    var between := TornDown(hosted, ReapedNames(cfg, t, t.Keys, now), deletable);
    SweepPrecise(cfg, t, hosted, between, scaleSetId, deletable, now);
    SweepExact(cfg, t, hosted, between, scaleSetId, deletable, now);
  }

  // ----- the orchestrator -----

  /** Of n tasks those that are started before a shutdown that begins after `shutdownAt` of them. */
  function InTime(shuttingDown: bool, n: nat, shutdownAt: nat): nat {
    if shuttingDown then 0 else if shutdownAt < n then shutdownAt else n
  }

  class Orchestrator {
    const cfg: L.Config
    const scaleSetId: int
    const tracker: InstanceTracker
    const incus: Incus
    const github: GitHub
    const mintLimiter: Limiter
    const launchLimiter: Limiter
    var spawnInflight: int
    var shuttingDown: bool
    var tasks: nat

    ghost predicate Valid()
      reads this, tracker, tracker.m.Values, mintLimiter, launchLimiter
    {
      tracker.Valid() && mintLimiter.Valid() && launchLimiter.Valid() && mintLimiter != launchLimiter
    }

    constructor (cfg: L.Config, scaleSetId: int, incus: Incus, github: GitHub, mintLimiter: Limiter,
      launchLimiter: Limiter)
      requires mintLimiter.Valid() && launchLimiter.Valid() && mintLimiter != launchLimiter
      ensures Valid() && fresh(tracker) && tracker.contents == map[] && spawnInflight == 0 && !shuttingDown
        && tasks == 0
    {
      this.cfg, this.scaleSetId, this.incus, this.github := cfg, scaleSetId, incus, github;
      this.mintLimiter, this.launchLimiter := mintLimiter, launchLimiter;
      tracker := new InstanceTracker();
      spawnInflight, shuttingDown, tasks := 0, false, 0;
    }

    // ----- the listener's handlers -----

    /** Reserves the difference to the clamped target and starts a task for each reservation; a task that
        is refused because of the shutdown gives its reservation back. The shutdown may begin in the middle:
        `shutdownAt` is the number of tasks started before it does. */
    method HandleDesiredRunnerCount(count: int, shutdownAt: nat) returns (target: int)
      requires Valid()
      modifies this`spawnInflight, this`tasks, this`shuttingDown
      ensures Valid()
      ensures target == L.Clamp(count, cfg.maxRunners)
      ensures count > cfg.maxRunners ==> target == cfg.maxRunners
      ensures 0 <= count <= cfg.maxRunners ==> target == count
      ensures count < 0 ==> target == 0
      ensures var missing := target - |tracker.contents| - old(spawnInflight);
              && (old(shuttingDown) || missing <= 0 ==> tasks == old(tasks) && spawnInflight == old(spawnInflight))
              && (!old(shuttingDown) && 0 < missing <= shutdownAt ==>
                    tasks == old(tasks) + missing && |tracker.contents| + spawnInflight == target && !shuttingDown)
              && (!old(shuttingDown) && shutdownAt < missing ==>
                    tasks == old(tasks) + shutdownAt && spawnInflight == old(spawnInflight) + shutdownAt
                    && shuttingDown)
      ensures var missing := L.ScaleUp(target, |tracker.contents|, old(spawnInflight));
              var started := InTime(old(shuttingDown), missing, shutdownAt);
              && tasks == old(tasks) + started && spawnInflight == old(spawnInflight) + started
              && shuttingDown == (old(shuttingDown) || shutdownAt < missing)
    {
      target := count;
      if target > cfg.maxRunners {
        target := cfg.maxRunners;
      }
      if target < 0 {
        target := 0;
      }
      var size := tracker.Size();
      var current := size + spawnInflight;
      var scaleUp := target - current;
      if scaleUp > 0 {
        spawnInflight := spawnInflight + scaleUp;
        StartTasks(scaleUp, shutdownAt);
      }
    }

    /** The loop over the reservations. */
    method StartTasks(n: nat, shutdownAt: nat)
      modifies this`spawnInflight, this`tasks, this`shuttingDown
      ensures tasks == old(tasks) + InTime(old(shuttingDown), n, shutdownAt)
      ensures spawnInflight == old(spawnInflight) - n + InTime(old(shuttingDown), n, shutdownAt)
      ensures shuttingDown == (old(shuttingDown) || shutdownAt < n)
    {
      for i := 0 to n
        invariant shuttingDown == (old(shuttingDown) || shutdownAt < i)
        invariant tasks == old(tasks) + InTime(old(shuttingDown), i, shutdownAt)
        invariant spawnInflight == old(spawnInflight) - i + InTime(old(shuttingDown), i, shutdownAt)
      {
        if i == shutdownAt {
          BeginShutdown();
        }
        var started := StartSpawnTask();
        if !started {
          spawnInflight := spawnInflight - 1;
        }
      }
    }

    method StartSpawnTask() returns (started: bool)
      modifies this`tasks
      ensures started == !shuttingDown && tasks == old(tasks) + (if started then 1 else 0)
    {
      if shuttingDown {
        return false;
      }
      tasks := tasks + 1;
      return true;
    }

    /** The deferred part of Run: from here on no task is started. */
    method BeginShutdown()
      modifies this`shuttingDown
      ensures shuttingDown
    {
      shuttingDown := true;
    }

    method HandleJobStarted(n: Name, now: int)
      requires Valid()
      modifies tracker`contents, tracker.m.Values
      ensures Valid() && tracker.m == old(tracker.m)
      ensures tracker.contents == if n == "" then old(tracker.contents) else WithBusy(old(tracker.contents), n, now)
      ensures n != "" && n in old(tracker.contents) ==>
        tracker.contents == old(tracker.contents)[n := old(tracker.contents)[n].(state := Busy, busyAt := Some(now))]
      ensures n == "" || n !in old(tracker.contents) ==> tracker.contents == old(tracker.contents)
    {
      if n == "" {
        return;
      }
      var previous, ok := tracker.MarkBusy(n, now);
    }

    /** An unknown runner is left alone, on the host as well. */
    method HandleJobCompleted(n: Name)
      requires Valid()
      modifies tracker, tracker.m.Values, incus
      ensures Valid()
      ensures n == "" || n !in old(tracker.contents) ==>
        tracker.contents == old(tracker.contents) && incus.instances == old(incus.instances)
      ensures n != "" && n in old(tracker.contents) && old(tracker.contents)[n].state == Launching ==>
        tracker.contents == old(tracker.contents)[n := old(tracker.contents)[n].(pending := true)]
        && incus.instances == old(incus.instances)
      ensures n != "" && n in old(tracker.contents) && old(tracker.contents)[n].state != Launching ==>
        && tracker.contents == old(tracker.contents) - {n}
        && incus.instances == old(incus.instances) - ({n} * incus.deletable)
      ensures var known := n != "" && n in old(tracker.contents);
              && tracker.contents == (if known then Terminated(old(tracker.contents), n) else old(tracker.contents))
              && incus.instances == if known && old(tracker.contents)[n].state != Launching
                                    then TornDown(old(incus.instances), {n}, incus.deletable) else old(incus.instances)
    {
      if n == "" {
        return;
      }
      var r, ok := tracker.Get(n);
      if !ok {
        return;
      }
      TerminateInstance(n);
    }

    // ----- one spawn task -----

    /** spawnIdleRunner with its deferred calls. Whatever its calls return, the reservation is settled
        exactly once, both permits are back, and a registration is kept with the tracked runner or handed
        to RemoveRunner, never both and never neither. */
    method SpawnIdleRunner(n: Name, now: int, r: Outcomes, tags: Tags)
      requires Valid() && n !in tracker.contents
      requires r.mintSlot ==> mintLimiter.used < mintLimiter.capacity
      requires r.launchSlot ==> launchLimiter.used < launchLimiter.capacity
      modifies this`spawnInflight, tracker, tracker.m.Values, incus, github, mintLimiter, launchLimiter
      ensures Valid() && spawnInflight == old(spawnInflight) - 1
      ensures mintLimiter.used == old(mintLimiter.used) && launchLimiter.used == old(launchLimiter.used)
      ensures tracker.contents
              == if r.Tracks() then AfterLaunch(Waited(old(tracker.contents), n, now, r), n, now, r)
                 else old(tracker.contents)
      ensures var given := r.Mints() && !(r.Tracks() && GoesThrough(Waited(old(tracker.contents), n, now, r), n, r));
              github.passed == old(github.passed) + (if given && r.id != 0 then [r.id] else [])
      ensures var t := Waited(old(tracker.contents), n, now, r);
              incus.instances
              == if r.Tracks() then HostAfterLaunch(old(incus.instances), t, n, tags, r, incus.deletable)
                 else old(incus.instances)
      ensures var through := r.mintSlot && r.resolved && r.minted && r.rendered && r.launchSlot && r.launched
                && (Removal in r.waiting
                    || (Request !in r.waiting && (Removal in r.meanwhile || Request !in r.meanwhile)));
              var minted := r.mintSlot && r.resolved && r.minted;
              && github.passed == old(github.passed) + (if minted && !through && r.id != 0 then [r.id] else [])
              && (!through ==> tracker.contents == old(tracker.contents))
              && tracker.contents - {n} == old(tracker.contents)
              && (n in tracker.contents <==> through && Removal !in r.waiting && Removal !in r.meanwhile)
              && (through && r.waiting == [] && r.meanwhile == [] ==>
                    tracker.contents[n] == Record(n, r.id, now, Some(now), None, Idle, false))
    {
      SpawnMeans(tracker.contents, n, now, r);
      var inflight, mintHeld := SpawnTask(n, now, r, tags);
      if mintHeld {
        mintLimiter.Release();
      }
      if inflight {
        spawnInflight := spawnInflight - 1;
      }
    }

    /** The body up to its return, with the two flags its deferred calls look at. */
    method SpawnTask(n: Name, now: int, r: Outcomes, tags: Tags) returns (inflight: bool, mintHeld: bool)
      requires Valid() && n !in tracker.contents
      requires r.mintSlot ==> mintLimiter.used < mintLimiter.capacity
      requires r.launchSlot ==> launchLimiter.used < launchLimiter.capacity
      modifies this`spawnInflight, tracker, tracker.m.Values, incus, github, mintLimiter, launchLimiter
      ensures Valid() && spawnInflight == old(spawnInflight) - (if inflight then 0 else 1)
      ensures mintLimiter.used == old(mintLimiter.used) + (if mintHeld then 1 else 0)
        && launchLimiter.used == old(launchLimiter.used)
      ensures tracker.contents
              == if r.Tracks() then AfterLaunch(Waited(old(tracker.contents), n, now, r), n, now, r)
                 else old(tracker.contents)
      ensures var given := r.Mints() && !(r.Tracks() && GoesThrough(Waited(old(tracker.contents), n, now, r), n, r));
              github.passed == old(github.passed) + (if given && r.id != 0 then [r.id] else [])
      ensures var t := Waited(old(tracker.contents), n, now, r);
              incus.instances
              == if r.Tracks() then HostAfterLaunch(old(incus.instances), t, n, tags, r, incus.deletable)
                 else old(incus.instances)
    {
      inflight, mintHeld := true, false;
      var acquired := mintLimiter.Acquire(!r.mintSlot, r.mintSlot);
      if !acquired {
        return;
      }
      mintHeld := true;
      if !r.resolved || !r.minted {
        return;
      }
      if !r.rendered {
        RemoveRunnerById(r.id);
        return;
      }
      TrackAndLaunch(n, now, r, tags);
      inflight, mintHeld := false, false;
    }

    /** From the record on: the reservation is settled and the mint permit returned before the launch. */
    method TrackAndLaunch(n: Name, now: int, r: Outcomes, tags: Tags)
      requires Valid() && n !in tracker.contents && mintLimiter.used > 0
      requires r.launchSlot ==> launchLimiter.used < launchLimiter.capacity
      modifies this`spawnInflight, tracker, tracker.m.Values, incus, github, mintLimiter, launchLimiter
      ensures Valid() && spawnInflight == old(spawnInflight) - 1
      ensures mintLimiter.used == old(mintLimiter.used) - 1 && launchLimiter.used == old(launchLimiter.used)
      ensures tracker.contents == AfterLaunch(Waited(old(tracker.contents), n, now, r), n, now, r)
      ensures var given := !GoesThrough(Waited(old(tracker.contents), n, now, r), n, r);
              github.passed == old(github.passed) + (if given && r.id != 0 then [r.id] else [])
      ensures var t := Waited(old(tracker.contents), n, now, r);
              incus.instances == HostAfterLaunch(old(incus.instances), t, n, tags, r, incus.deletable)
    {
      var tracked := Track(n, r.id, now);
      mintLimiter.Release();
      Interfere(n, r.waiting);
      Launch(tracked, now, r, tags);
    }

    /** The section under spawnMu that turns a reservation into a record. */
    method Track(n: Name, id: int, now: int) returns (tracked: TrackedRunner)
      requires Valid()
      modifies this`spawnInflight, tracker
      ensures Valid() && fresh(tracked) && tracker.m.Values <= old(tracker.m.Values) + {tracked}
      ensures tracked.name == n && tracked.id == id
      ensures tracker.contents == old(tracker.contents)[n := NewRecord(n, id, now)]
        && spawnInflight == old(spawnInflight) - 1
    {
      tracked := new TrackedRunner(n, id, now);
      tracker.Add(tracked);
      spawnInflight := spawnInflight - 1;
    }

    /** A launch that will not be: the record goes and the registration is handed back. */
    method Abandon(tracked: TrackedRunner)
      requires Valid()
      modifies tracker, github
      ensures Valid() && tracker.m.Values <= old(tracker.m.Values)
      ensures tracker.contents == Without(old(tracker.contents), tracked.name)
      ensures github.passed == old(github.passed) + (if tracked.id != 0 then [tracked.id] else [])
    {
      tracker.Remove(tracked.name);
      RemoveRunnerById(tracked.id);
    }

    /** Other goroutines touch the record of n while a call of its spawn task is in flight. */
    method Interfere(n: Name, touches: seq<Touch>)
      requires Valid()
      modifies tracker, tracker.m.Values
      ensures Valid() && tracker.m.Values <= old(tracker.m.Values)
      ensures tracker.contents == Touched(old(tracker.contents), n, touches)
    {
      for i := 0 to |touches|
        invariant Valid() && tracker.m.Values <= old(tracker.m.Values)
        invariant tracker.contents == Touched(old(tracker.contents), n, touches[..i])
      {
        assert touches[..i + 1][..i] == touches[..i];
        match touches[i]
        case JobStart(at) => var previous, ok := tracker.MarkBusy(n, at);
        case Request => var state, ok := tracker.MarkForTermination(n);
        case Removal => tracker.Remove(n);
      }
      assert touches[..|touches|] == touches;
    }

    method Launch(tracked: TrackedRunner, now: int, r: Outcomes, tags: Tags)
      requires Valid()
      requires r.launchSlot ==> launchLimiter.used < launchLimiter.capacity
      modifies tracker, tracker.m.Values, incus, github, launchLimiter
      ensures Valid() && launchLimiter.used == old(launchLimiter.used)
      ensures var t, n := old(tracker.contents), tracked.name;
              tracker.contents == AfterLaunch(t, n, now, r)
      ensures var given := !GoesThrough(old(tracker.contents), tracked.name, r) && tracked.id != 0;
              github.passed == old(github.passed) + (if given then [tracked.id] else [])
      ensures var t, n := old(tracker.contents), tracked.name;
              incus.instances == HostAfterLaunch(old(incus.instances), t, n, tags, r, incus.deletable)
      ensures var t, n := old(tracker.contents), tracked.name;
              var stays := n in t && Removal !in r.meanwhile;
              var flagged := stays && (t[n].pending || Request in r.meanwhile);
              var asked := r.launchSlot && !(n in t && t[n].pending);
              var through := asked && r.launched && !flagged;
              && github.passed == old(github.passed) + (if !through && tracked.id != 0 then [tracked.id] else [])
              && (!through ==> tracker.contents == t - {n})
              && (through ==> tracker.contents - {n} == t - {n} && (n in tracker.contents <==> stays))
              && (through && stays ==> tracker.contents[n].state != Launching && tracker.contents[n].id == t[n].id)
              && incus.instances - {n} == old(incus.instances) - {n}
              && (asked && (r.launched || r.leftBehind) && !(r.launched && flagged && n in incus.deletable) ==>
                    n in incus.instances && incus.instances[n] == tags)
              && (asked && r.launched && flagged && n in incus.deletable ==> n !in incus.instances)
              && (!asked || (!r.launched && !r.leftBehind) ==> incus.instances == old(incus.instances))
    {
      LaunchMeans(tracker.contents, tracked.name, now, r);
      LaunchOnHost(tracker.contents, incus.instances, tracked.name, tags, r, incus.deletable);
      var acquired := launchLimiter.Acquire(!r.launchSlot, r.launchSlot);
      if !acquired {
        Abandon(tracked);
        return;
      }
      LaunchHeld(tracked, now, r, tags);
      launchLimiter.Release();
    }

    /** The part of launch that runs under the permit. */
    method LaunchHeld(tracked: TrackedRunner, now: int, r: Outcomes, tags: Tags)
      requires Valid() && r.launchSlot
      modifies tracker, tracker.m.Values, incus, github
      ensures Valid()
      ensures var t, n := old(tracker.contents), tracked.name;
              tracker.contents == AfterLaunch(t, n, now, r)
      ensures var given := !GoesThrough(old(tracker.contents), tracked.name, r) && tracked.id != 0;
              github.passed == old(github.passed) + (if given then [tracked.id] else [])
      ensures var t, n := old(tracker.contents), tracked.name;
              incus.instances == HostAfterLaunch(old(incus.instances), t, n, tags, r, incus.deletable)
    {
      var pending := tracker.TerminationPending(tracked.name);
      if pending {
        Abandon(tracked);
        return;
      }
      TouchedElsewhere(tracker.contents, tracked.name, r.meanwhile);
      incus.Launch(tracked.name, tags, r.launched, r.leftBehind);
      Interfere(tracked.name, r.meanwhile);
      if !r.launched {
        Abandon(tracked);
        return;
      }
      Conclude(tracked, now);
    }

    /** After a launch that succeeded: the runner is idle, unless its termination was requested meanwhile. */
    method Conclude(tracked: TrackedRunner, now: int)
      requires Valid()
      modifies tracker, tracker.m.Values, incus, github
      ensures Valid()
      ensures var t, n := old(tracker.contents), tracked.name;
              && tracker.contents == (if PendingIn(t, n) then Without(t, n) else WithIdle(t, n, now))
              && github.passed == old(github.passed) + (if PendingIn(t, n) && tracked.id != 0 then [tracked.id] else [])
              && incus.instances
                 == (if PendingIn(t, n) then TornDown(old(incus.instances), {n}, incus.deletable)
                     else old(incus.instances))
    {
      ForgetFlagged(tracker.contents, tracked.name, now);
      var terminationRequested, ok := tracker.MarkIdle(tracked.name, now);
      if terminationRequested {
        TerminateInstance(tracked.name);
        RemoveRunnerById(tracked.id);
      }
    }

    // ----- termination -----

    /** A launching runner is only flagged; any other is removed, stopped and deleted - also one that is
        not tracked at all. */
    method TerminateInstance(n: Name)
      requires Valid()
      modifies tracker, tracker.m.Values, incus
      ensures Valid() && tracker.m.Values <= old(tracker.m.Values)
      ensures tracker.contents
              == Terminated(old(tracker.contents), n)
              == if n in old(tracker.contents) && old(tracker.contents)[n].state == Launching
                 then old(tracker.contents)[n := old(tracker.contents)[n].(pending := true)]
                 else old(tracker.contents) - {n}
      ensures incus.instances == if n in old(tracker.contents) && old(tracker.contents)[n].state == Launching
                                 then old(incus.instances) else TornDown(old(incus.instances), {n}, incus.deletable)
    {
      TerminatedMeans(tracker.contents, n);
      var state, ok := tracker.MarkForTermination(n);
      if ok && state == Launching {
        return;
      }
      tracker.Remove(n);
      incus.Stop(n);
      incus.Delete(n);
    }

    method RemoveRunnerById(id: int)
      modifies github
      ensures github.passed == old(github.passed) + (if id == 0 then [] else [id])
    {
      if id == 0 {
        return;
      }
      github.RemoveRunner(id);
    }

    // ----- the reaper -----

    method ReapStale(r: Record)
      requires Valid()
      modifies tracker, tracker.m.Values, incus, github
      ensures Valid() && tracker.m.Values <= old(tracker.m.Values)
      ensures tracker.contents == Terminated(old(tracker.contents), r.name)
      ensures incus.instances
              == if r.name in old(tracker.contents) && old(tracker.contents)[r.name].state == Launching
                 then old(incus.instances) else TornDown(old(incus.instances), {r.name}, incus.deletable)
      ensures github.passed == old(github.passed) + (if r.id != 0 then [r.id] else [])
    {
      TerminateInstance(r.name);
      RemoveRunnerById(r.id);
    }

    method ReapTracked(r: Record, now: int)
      requires Valid()
      modifies tracker, tracker.m.Values, incus, github
      ensures Valid() && tracker.m.Values <= old(tracker.m.Values)
      ensures tracker.contents == ReapOne(cfg, old(tracker.contents), r, now)
      ensures incus.instances
        == HostAfterReap(cfg, old(tracker.contents), old(incus.instances), r, now, incus.deletable)
      ensures github.passed == old(github.passed) + (if L.TimedOut(cfg, r, now) && r.id != 0 then [r.id] else [])
      ensures var due := if r.state.Busy? then r.busyAt.None? || now - r.busyAt.value > cfg.maxJobDuration
                         else now - r.mintedAt > cfg.registrationTimeout;
              var t := old(tracker.contents);
              var launching := r.name in t && t[r.name].state.Launching?;
              && github.passed == old(github.passed) + (if due && r.id != 0 then [r.id] else [])
              && tracker.contents == (if !due then t
                                      else if launching then t[r.name := t[r.name].(pending := true)] else t - {r.name})
              && incus.instances == if due && !launching then old(incus.instances) - ({r.name} * incus.deletable)
                                    else old(incus.instances)
    {
      match r.state {
        case Busy =>
          if r.busyAt.None? || now - r.busyAt.value > cfg.maxJobDuration {
            ReapStale(r);
          }
        case _ =>
          if now - r.mintedAt > cfg.registrationTimeout {
            ReapStale(r);
          }
      }
    }

    /** Tracker, host and registrations as a sweep leaves them once it has dealt with these records. */
    ghost predicate SweptSoFar(start: Scene, dealt: seq<Record>, now: int)
      reads this, tracker, tracker.m.Values, incus, github
    {
      SweptTo(cfg, start, Scene(tracker.contents, incus.instances, github.passed), incus.deletable, dealt, now)
    }

    /** reapTracked on the next record of the snapshot. */
    method ReapNext(ghost start: Scene, ghost dealt: seq<Record>, r: Record, now: int)
      requires Valid() && SweptSoFar(start, dealt, now)
      requires r.name !in NamesOf(dealt) && r.name in start.tracked && start.tracked[r.name] == r
      modifies tracker, tracker.m.Values, incus, github
      ensures Valid() && tracker.m.Values <= old(tracker.m.Values)
      ensures SweptSoFar(start, dealt + [r], now)
    {
      SweptFurther(cfg, start, Scene(tracker.contents, incus.instances, github.passed), incus.deletable, dealt, r, now);
      ReapTracked(r, now);
    }

    /** parallelReap over a snapshot, one record after the other. */
    method ReapEach(ghost start: Scene, order: seq<Record>, now: int)
      requires Valid() && SweptSoFar(start, [], now) && PartOf(start.tracked, order)
      modifies tracker, tracker.m.Values, incus, github
      ensures Valid() && tracker.m.Values <= old(tracker.m.Values)
      ensures SweptSoFar(start, order, now)
    {
      assert order[..0] == [];
      for i := 0 to |order|
        invariant Valid() && tracker.m.Values <= old(tracker.m.Values)
        invariant SweptSoFar(start, order[..i], now)
      {
        NextName(order, i);
        ReapNext(start, order[..i], order[i], now);
        assert order[..i + 1] == order[..i] + [order[i]];
      }
      assert order[..|order|] == order;
    }

    /** The timeout half of a sweep, one record after the other: of the tracked runners exactly those past
        their state's timeout are removed and torn down, or flagged if they are launching; exactly their
        registrations are handed to RemoveRunner, in the order of the snapshot. */
    method ReapTimeouts(now: int) returns (ghost order: seq<Record>)
      requires Valid()
      modifies tracker, tracker.m.Values, incus, github
      ensures Valid() && tracker.m.Values <= old(tracker.m.Values)
      ensures tracker.contents == Swept(cfg, old(tracker.contents), old(tracker.contents).Keys, now)
      ensures var t := old(tracker.contents);
              incus.instances == TornDown(old(incus.instances), ReapedNames(cfg, t, t.Keys, now), incus.deletable)
      ensures IsSnapshot(old(tracker.contents), order)
        && github.passed == old(github.passed) + ReturnedIds(cfg, order, now)
      ensures RecordsSwept(cfg, old(tracker.contents), tracker.contents, now)
      ensures HostSwept(cfg, old(tracker.contents), old(incus.instances), tracker.contents, incus.instances,
                        scaleSetId, incus.deletable, now, false)
    {
      ghost var start := Scene(tracker.contents, incus.instances, github.passed);
      var tracked := tracker.Snapshot();
      order := tracked;
      SnapshotNames(start.tracked, tracked);
      SweptNothing(cfg, start, incus.deletable, now);
      ReapEach(start, tracked, now);
      AllSweptMeans(cfg, start.tracked, now);
      SweepOutcome(cfg, start.tracked, start.hosted, tracker.contents, incus.instances, scaleSetId, incus.deletable,
                   now, false);
    }

    /** The drift half: what is listed as ours and is not tracked is torn down; nothing else is touched. */
    method DriftSweep(listFails: bool)
      requires Valid()
      modifies incus
      ensures incus.instances
              == if listFails then old(incus.instances)
                 else TornDown(old(incus.instances),
                               OrphanNames(old(incus.instances), tracker.contents.Keys, scaleSetId), incus.deletable)
      ensures incus.instances.Keys <= old(incus.instances).Keys
      ensures forall n :: n in old(incus.instances) ==>
        var tags := old(incus.instances)[n];
        var orphan := ("user.incuse.managed", "true") in tags.Items
                      && ("user.incuse.scale_set_id", Decimal(scaleSetId)) in tags.Items && n !in tracker.contents;
        && (n !in incus.instances <==> orphan && !listFails && n in incus.deletable)
        && (n in incus.instances ==> incus.instances[n] == tags)
    {
      if listFails {
        return;
      }
      ghost var before := incus.instances;
      var remote := incus.List();
      var known := tracker.Names();
      var orphans: seq<Name> := [];
      for i := 0 to |remote|
        invariant forall n :: n in orphans <==> n in remote[..i] && n in OrphanNames(before, known, scaleSetId)
      {
        if OwnedBy(incus.instances[remote[i]], scaleSetId) && remote[i] !in known {
          orphans := orphans + [remote[i]];
        }
      }
      for i := 0 to |orphans|
        invariant incus.instances == TornDown(before, (set n | n in orphans[..i]), incus.deletable)
      {
        incus.Stop(orphans[i]);
        incus.Delete(orphans[i]);
        assert orphans[..i + 1] == orphans[..i] + [orphans[i]];
      }
      assert orphans[..|orphans|] == orphans;
      assert (set n | n in orphans) == OrphanNames(before, known, scaleSetId);
    }

    /** One sweep under a live context. If Incus carries every call out, each remaining instance of this
        scale set is tracked; and whatever happens, an instance that is neither tracked nor of this scale
        set is left alone. */
    method ReapOnce(now: int, ctxDone: bool, listFails: bool) returns (ghost order: seq<Record>)
      requires Valid()
      modifies tracker, tracker.m.Values, incus, github
      ensures Valid()
      ensures tracker.contents == Swept(cfg, old(tracker.contents), old(tracker.contents).Keys, now)
      ensures IsSnapshot(old(tracker.contents), order)
        && github.passed == old(github.passed) + ReturnedIds(cfg, order, now)
      ensures RecordsSwept(cfg, old(tracker.contents), tracker.contents, now)
      ensures HostSwept(cfg, old(tracker.contents), old(incus.instances), tracker.contents, incus.instances,
                        scaleSetId, incus.deletable, now, !ctxDone && !listFails)
      ensures SweepKeeps(old(tracker.contents), old(incus.instances), tracker.contents, incus.instances,
                         scaleSetId, incus.deletable, !ctxDone && !listFails)
    {
      ghost var t, hosted := tracker.contents, incus.instances;
      order := ReapTimeouts(now);
      ghost var drift := !ctxDone && !listFails;
      if !ctxDone {
        DriftSweep(listFails);
      }
      SweepOutcome(cfg, t, hosted, tracker.contents, incus.instances, scaleSetId, incus.deletable, now, drift);
    }
  }
}
