/** One timeout sweep as a function: what the sequential loop over a snapshot makes of the registry, and
    the same without any order. */
module SweepSpec {
  import opened Tracking
  import opened Lifecycle

  /** Past its timeout and not launching: reapTracked removes the record. */
  predicate Reaped(cfg: Config, r: Record, now: int) {
    TimedOut(cfg, r, now) && r.state != Launching
  }

  /** terminateInstance on the registry, run without interruption. */
  function Terminated(t: Registry, n: Name): Registry {
    if n in t && t[n].state == Launching then WithPending(t, n) else Without(WithPending(t, n), n)
  }

  lemma TerminatedMeans(t: Registry, n: Name)
    ensures Terminated(t, n) == if n in t && t[n].state == Launching then t[n := t[n].(pending := true)] else t - {n}
    ensures Without(WithPending(t, n), n) == t - {n}
  {}

  /** reapTracked on one record of a snapshot. */
  function ReapOne(cfg: Config, t: Registry, r: Record, now: int): Registry {
    if TimedOut(cfg, r, now) then Terminated(t, r.name) else t
  }

  /** The sequential loop. */
  function ReapAll(cfg: Config, t: Registry, order: seq<Record>, now: int): Registry {
    if order == [] then t
    else ReapOne(cfg, ReapAll(cfg, t, order[..|order| - 1], now), order[|order| - 1], now)
  }

  function NamesOf(order: seq<Record>): set<Name> {
    set r | r in order :: r.name
  }

  /** What the sweep leaves: of the records it was handed, those past their timeout are gone, or flagged
      if they are still launching; all others are as they were. */
  function Swept(cfg: Config, t: Registry, names: set<Name>, now: int): Registry {
    map n | n in t && !(n in names && Reaped(cfg, t[n], now)) ::
      if n in names && TimedOut(cfg, t[n], now) then t[n].(pending := true) else t[n]
  }

  /** The registrations a sweep hands to RemoveRunner: those of the stale records it was handed, as a list
      in the order of the loop and as a set with the names they belong to. */
  function ReturnedIds(cfg: Config, order: seq<Record>, now: int): seq<int> {
    if order == [] then []
    else
      var r := order[|order| - 1];
      ReturnedIds(cfg, order[..|order| - 1], now) + (if TimedOut(cfg, r, now) && r.id != 0 then [r.id] else [])
  }

  function Returned(cfg: Config, order: seq<Record>, now: int): set<(Name, int)> {
    set r | r in order && TimedOut(cfg, r, now) && r.id != 0 :: (r.name, r.id)
  }

  /** The records are records of t, with distinct names. */
  ghost predicate PartOf(t: Registry, order: seq<Record>) {
    && (forall k :: 0 <= k < |order| ==> order[k].name in t && t[order[k].name] == order[k])
    && (forall k, l :: 0 <= k < l < |order| ==> order[k].name != order[l].name)
  }

  /** Spelled out: of the records in t the sweep deals with those that are due - a busy runner that has been busy for
      longer than max_job_duration, any other that was minted more than registration_timeout ago. Those that
      are launching are flagged, the others are gone; whatever is not due, or not dealt with, stays. */
  lemma SweptMeans(cfg: Config, t: Registry, names: set<Name>, now: int, n: Name)
    requires n in t
    ensures var r, after := t[n], Swept(cfg, t, names, now);
            var due := if r.state.Busy? then r.busyAt.None? || now - r.busyAt.value > cfg.maxJobDuration
                       else now - r.mintedAt > cfg.registrationTimeout;
            && (n !in after <==> n in names && due && !r.state.Launching?)
            && (n in after ==> after[n] == if n in names && due then r.(pending := true) else r)
            && after.Keys <= t.Keys
  {}

  /** Of all records of t those that are due are gone, or flagged where they are launching; the others stay. */
  ghost predicate RecordsSwept(cfg: Config, t: Registry, after: Registry, now: int) {
    && after.Keys <= t.Keys
    && forall n :: n in t ==>
         var r := t[n];
         var due := if r.state.Busy? then r.busyAt.None? || now - r.busyAt.value > cfg.maxJobDuration
                    else now - r.mintedAt > cfg.registrationTimeout;
         && (n !in after <==> due && !r.state.Launching?)
         && (n in after ==> after[n] == if due then r.(pending := true) else r)
  }

  lemma AllSweptMeans(cfg: Config, t: Registry, now: int)
    ensures RecordsSwept(cfg, t, Swept(cfg, t, t.Keys, now), now)
  {
    forall n | n in t { SweptMeans(cfg, t, t.Keys, now, n); }
  }

  /** And exactly the nonzero registrations of due records are handed over. */
  lemma ReturnedMeans(cfg: Config, order: seq<Record>, now: int, n: Name, id: int)
    ensures (n, id) in Returned(cfg, order, now) <==>
      id != 0
      && (exists r :: r in order && r.name == n && r.id == id
                      && (r.state.Busy? ==> r.busyAt.None? || now - r.busyAt.value > cfg.maxJobDuration)
                      && (!r.state.Busy? ==> now - r.mintedAt > cfg.registrationTimeout))
  {}

  lemma SweptOneMore(cfg: Config, t: Registry, names: set<Name>, r: Record, now: int)
    requires r.name !in names && r.name in t && t[r.name] == r
    ensures Swept(cfg, t, names + {r.name}, now) == ReapOne(cfg, Swept(cfg, t, names, now), r, now)
  {
    var before, after := Swept(cfg, t, names, now), Swept(cfg, t, names + {r.name}, now);
    assert r.name in before && before[r.name] == r;
    assert forall n :: n != r.name ==> (n in before <==> n in after);
    assert forall n :: n != r.name && n in before ==> before[n] == after[n];
  }

  /** The loop does what the order-free description says, so its result depends on the set of records
      only, not on the order in which the snapshot lists them. */
  lemma {:induction false} LoopIsSwept(cfg: Config, t: Registry, order: seq<Record>, now: int)
    requires PartOf(t, order)
    ensures ReapAll(cfg, t, order, now) == Swept(cfg, t, NamesOf(order), now)
  {
    if order == [] {
      assert Swept(cfg, t, {}, now) == t;
    } else {
      var k := |order| - 1;
      var front, r := order[..k], order[k];
      LoopIsSwept(cfg, t, front, now);
      assert order == front + [r];
      assert NamesOf(order) == NamesOf(front) + {r.name};
      SweptOneMore(cfg, t, NamesOf(front), r, now);
    }
  }

  ghost predicate Named(t: Registry) {
    forall n :: n in t ==> t[n].name == n
  }

  lemma SnapshotNames(t: Registry, order: seq<Record>)
    requires Named(t) && IsSnapshot(t, order)
    ensures NamesOf(order) == t.Keys
  {
    forall n | n in t ensures n in NamesOf(order) {
      assert t[n] in order && t[n].name == n;
    }
  }

  lemma OrderIrrelevant(cfg: Config, t: Registry, order: seq<Record>, order': seq<Record>, now: int)
    requires Named(t) && IsSnapshot(t, order) && IsSnapshot(t, order')
    ensures ReapAll(cfg, t, order, now) == ReapAll(cfg, t, order', now) == Swept(cfg, t, t.Keys, now)
  {
    LoopIsSwept(cfg, t, order, now);
    LoopIsSwept(cfg, t, order', now);
    SnapshotNames(t, order);
    SnapshotNames(t, order');
  }

  /** A snapshot names each record once. */
  lemma NextName(order: seq<Record>, i: nat)
    requires i < |order| && forall k, l :: 0 <= k < l < |order| ==> order[k].name != order[l].name
    ensures order[i].name !in NamesOf(order[..i])
    ensures NamesOf(order[..i + 1]) == NamesOf(order[..i]) + {order[i].name}
  {
    assert order[..i + 1] == order[..i] + [order[i]];
  }

  lemma OneMoreDealt(cfg: Config, dealt: seq<Record>, r: Record, now: int)
    ensures NamesOf(dealt + [r]) == NamesOf(dealt) + {r.name}
    ensures ReturnedIds(cfg, dealt + [r], now)
            == ReturnedIds(cfg, dealt, now) + (if TimedOut(cfg, r, now) && r.id != 0 then [r.id] else [])
  {
    assert (dealt + [r])[..|dealt|] == dealt;
  }

  /** The list and the set hold the same registrations. */
  lemma {:induction false} ReturnedBothWays(cfg: Config, order: seq<Record>, now: int, id: int)
    ensures id in ReturnedIds(cfg, order, now) <==> exists n :: (n, id) in Returned(cfg, order, now)
  {
    if order != [] {
      var k := |order| - 1;
      ReturnedBothWays(cfg, order[..k], now, id);
      assert order == order[..k] + [order[k]];
      assert forall n :: (n, id) in Returned(cfg, order, now) <==>
        (n, id) in Returned(cfg, order[..k], now)
        || (TimedOut(cfg, order[k], now) && order[k].id != 0 && n == order[k].name && id == order[k].id);
    }
  }
}
