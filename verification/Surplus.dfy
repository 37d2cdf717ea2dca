/** Instances on the host: the runners in the pool stay within MaxRunners, all instances together do not. */
module Surplus {
  import opened Tracking
  import opened Lifecycle
  import opened LifecycleInvariant
  import opened Capacity
  import opened Guarantees
  import opened Schedules

  /** The instances that are neither leftovers of an earlier process nor runners already given up. */
  function Current(s: State): set<Name> {
    set n | n in s.remote && n !in s.hist.prior && n !in s.hist.removed
  }

  /** What is bounded: whenever spawnMu is free, every instance is a leftover, a runner whose record was removed,
      or a tracked runner, and of the last kind there are at most MaxRunners. So an excess consists of
      instances that wait to be torn down. */
  lemma PoolBounded(s0: State, es: seq<Event>)
    requires Init(s0) && Legal(s0, es) && Exec(s0, es).spawnMu.Free?
    ensures var s := Exec(s0, es);
            && s.remote <= s.hist.prior + s.hist.removed + Current(s)
            && Current(s) <= s.tracker.Keys && |Current(s)| <= s.cfg.maxRunners
  {
    SafeFromStart(s0, es);
    CapacityBound(s0, es);
    var s := Exec(s0, es);
    forall n | n in Current(s) ensures n in s.tracker {
      assert NameOk(s, n);
    }
    SubsetSize(Current(s), s.tracker.Keys);
    assert |s.tracker| == |s.tracker.Keys|;
    ReservationsCount(s);
  }

  // ----- what is not bounded -----

  /** A runner is launched, does its job, and is given up; its Stop call has still to be made. */
  lemma OneGivenUp(s: State, n: Name) returns (es: seq<Event>)
    requires Empty(s) && n !in s.hist.prior && n !in s.hist.owner && n != ""
    ensures Legal(s, es)
    ensures var t := Exec(s, es); Empty(t) && t.cfg == s.cfg && t.remote == s.remote + {n}
  {
    es := LaunchUnderWay(s, n);
    es := Then(s, es, Appear(n));
    var more := TaskConcludes(Exec(s, es), |s.actors| + 1);
    es := Followed(s, es, more);
    more := JobCompletes(Exec(s, es), n);
    es := Followed(s, es, more);
  }

  lemma {:induction false} ManyGivenUp(s: State, k: nat) returns (es: seq<Event>)
    requires Empty(s)
    ensures Legal(s, es) && Empty(Exec(s, es)) && |Exec(s, es).remote| >= |s.remote| + k
    decreases k
  {
    es := [];
    if k > 0 {
      var n := AnotherName(s.hist.prior + s.hist.owner.Keys + s.remote);
      es := OneGivenUp(s, n);
      var more := ManyGivenUp(Exec(s, es), k - 1);
      es := Followed(s, es, more);
    }
  }

  /** The record is removed before the instance is stopped and deleted, so MaxRunners does not bound the
      instances: for every configuration that allows a runner and for every k there is a run that ends with at
      least k instances on the host, though none is tracked or in flight. */
  lemma InstancesUnbounded(s: State, k: nat) returns (es: seq<Event>)
    requires Init(s) && s.cfg.maxRunners >= 1
    ensures Legal(s, es)
    ensures |Exec(s, es).remote| >= k && Exec(s, es).tracker == map[] && Exec(s, es).inflight == 0
  {
    es := ManyGivenUp(s, k);
  }
}
