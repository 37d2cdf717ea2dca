/** The orchestrator's per-runner registry: the values it holds, what each of its
    operations does to them, and the mutable registry that carries the operations out. */
module Tracking {

  type Name = string

  datatype Option<+T> = None | Some(value: T)

  datatype RunnerState = Launching | Idle | Busy

  /** One tracked runner. `readyAt` and `busyAt` are None where the program holds the zero time. */
  datatype Record = Record(
    name: Name, id: int, mintedAt: int, readyAt: Option<int>, busyAt: Option<int>,
    state: RunnerState, pending: bool)

  type Registry = map<Name, Record>

  lemma LongerThanAll(used: set<Name>) returns (length: nat)
    ensures forall n :: n in used ==> |n| < length
    decreases used
  {
    length := 0;
    if used != {} {
      var n :| n in used;
      length := LongerThanAll(used - {n});
      if |n| >= length {
        length := |n| + 1;
      }
    }
  }

  /** There is always another name. */
  lemma AnotherName(used: set<Name>) returns (n: Name)
    ensures n !in used && n != ""
  {
    var length := LongerThanAll(used);
    n := seq(length + 1, _ => 'a');
  }

  function NewRecord(name: Name, id: int, mintedAt: int): Record {
    Record(name, id, mintedAt, None, None, Launching, false)
  }

  /** Launching comes before idle, and idle before busy. */
  function Stage(state: RunnerState): nat {
    match state
    case Launching => 0
    case Idle => 1
    case Busy => 2
  }

  // ----- what each operation makes of the registry -----

  function Without(t: Registry, n: Name): Registry {
    t - {n}
  }

  /** A launch that returns promotes a launching runner only: a busy one is not demoted. */
  function WithIdle(t: Registry, n: Name, now: int): Registry {
    if n in t && t[n].state == Launching then t[n := t[n].(state := Idle, readyAt := Some(now))] else t
  }

  function WithBusy(t: Registry, n: Name, now: int): Registry {
    if n in t then t[n := t[n].(state := Busy, busyAt := Some(now))] else t
  }

  function WithPending(t: Registry, n: Name): Registry {
    if n in t then t[n := t[n].(pending := true)] else t
  }

  predicate PendingIn(t: Registry, n: Name) {
    n in t && t[n].pending
  }

  /** `order` lists the registry's records, each exactly once, in some order. */
  ghost predicate IsSnapshot(t: Registry, order: seq<Record>) {
    && (forall k :: 0 <= k < |order| ==> order[k].name in t && t[order[k].name] == order[k])
    && (forall n :: n in t ==> t[n] in order)
    && (forall k, l :: 0 <= k < l < |order| ==> order[k].name != order[l].name)
  }

  // ----- the lifecycle of a record -----

  /** The record changed as a runner's life allows: same identity, no state lost, no request dropped. */
  predicate Advances(before: Record, after: Record) {
    && after.name == before.name && after.id == before.id && after.mintedAt == before.mintedAt
    && Stage(before.state) <= Stage(after.state)
    && (before.pending ==> after.pending)
    && (before.busyAt.Some? ==> after.busyAt.Some?)
  }

  /** Every record that survives advanced. */
  ghost predicate RegistryAdvances(before: Registry, after: Registry) {
    forall n :: n in before && n in after ==> Advances(before[n], after[n])
  }

  // ----- the mutable registry -----

  class TrackedRunner {
    const name: Name
    const id: int
    const mintedAt: int
    var readyAt: Option<int>
    var busyAt: Option<int>
    var state: RunnerState
    var terminationPending: bool

    constructor (name: Name, id: int, mintedAt: int)
      ensures Value() == NewRecord(name, id, mintedAt) == Record(name, id, mintedAt, None, None, Launching, false)
      ensures this.name == name && this.id == id
    {
      this.name, this.id, this.mintedAt := name, id, mintedAt;
      readyAt, busyAt, state, terminationPending := None, None, Launching, false;
    }

    function Value(): Record
      reads this
    {
      Record(name, id, mintedAt, readyAt, busyAt, state, terminationPending)
    }
  }

  class InstanceTracker {
    var m: map<Name, TrackedRunner>
    ghost var contents: Registry  // the values of the records in m

    constructor ()
      ensures Valid() && contents == map[] && m == map[] && fresh(this)
    {
      m, contents := map[], map[];
    }

    ghost predicate Valid()
      reads this, m.Values
    {
      contents.Keys == m.Keys && forall n :: n in m ==> m[n].name == n && contents[n] == m[n].Value()
    }

    /** An existing record of the same name is replaced. */
    method Add(r: TrackedRunner)
      requires Valid()
      modifies this
      ensures Valid() && contents == old(contents)[r.name := r.Value()]
      ensures m.Values <= old(m.Values) + {r}
    {
      m, contents := m[r.name := r], contents[r.name := r.Value()];
    }

    method Remove(n: Name)
      requires Valid()
      modifies this
      ensures Valid() && contents == Without(old(contents), n) == old(contents) - {n}
      ensures m.Values <= old(m.Values)
    {
      m, contents := m - {n}, contents - {n};
    }

    method Get(n: Name) returns (r: Record, ok: bool)
      requires Valid()
      ensures ok == (n in contents)
      ensures ok ==> r == contents[n] && r.name == n
      ensures !ok ==> r == NewRecord("", 0, 0)
    {
      if n in m {
        return m[n].Value(), true;
      }
      return NewRecord("", 0, 0), false;
    }

    method MarkIdle(n: Name, now: int) returns (terminationRequested: bool, ok: bool)
      requires Valid()
      modifies this`contents, m.Values
      ensures Valid() && m == old(m) && contents == WithIdle(old(contents), n, now)
      ensures ok == (n in old(contents))
      ensures terminationRequested == PendingIn(old(contents), n) == (ok && old(contents)[n].pending)
      ensures contents.Keys == old(contents).Keys
      ensures forall k :: k in contents && (k != n || old(contents)[k].state != Launching) ==>
        contents[k] == old(contents)[k]
      ensures ok && old(contents)[n].state == Launching ==>
        contents[n] == old(contents)[n].(state := Idle, readyAt := Some(now))
    {
      if n !in m {
        return false, false;
      }
      var v := m[n];
      if v.state == Launching {
        v.state := Idle;
        v.readyAt := Some(now);
        contents := contents[n := v.Value()];
      }
      return v.terminationPending, true;
    }

    method MarkBusy(n: Name, now: int) returns (previous: RunnerState, ok: bool)
      requires Valid()
      modifies this`contents, m.Values
      ensures Valid() && m == old(m) && contents == WithBusy(old(contents), n, now)
      ensures ok == (n in old(contents))
      ensures previous == if ok then old(contents)[n].state else Launching
      ensures contents.Keys == old(contents).Keys
      ensures forall k :: k in contents && k != n ==> contents[k] == old(contents)[k]
      ensures ok ==> contents[n] == old(contents)[n].(state := Busy, busyAt := Some(now))
    {
      if n !in m {
        return Launching, false;
      }
      var v := m[n];
      previous := v.state;
      v.busyAt := Some(now);
      v.state := Busy;
      contents := contents[n := v.Value()];
      return previous, true;
    }

    method MarkForTermination(n: Name) returns (state: RunnerState, ok: bool)
      requires Valid()
      modifies this`contents, m.Values
      ensures Valid() && m == old(m) && contents == WithPending(old(contents), n)
      ensures ok == (n in old(contents))
      ensures state == if ok then old(contents)[n].state else Launching
      ensures contents.Keys == old(contents).Keys
      ensures forall k :: k in contents && k != n ==> contents[k] == old(contents)[k]
      ensures ok ==> contents[n] == old(contents)[n].(pending := true)
    {
      if n !in m {
        return Launching, false;
      }
      var v := m[n];
      v.terminationPending := true;
      contents := contents[n := v.Value()];
      return v.state, true;
    }

    method TerminationPending(n: Name) returns (pending: bool)
      requires Valid()
      ensures pending == PendingIn(contents, n) == (n in contents && contents[n].pending)
    {
      return n in m && m[n].terminationPending;
    }

    /** Copies every record; the order of the copies is not specified. */
    method Snapshot() returns (out: seq<Record>)
      requires Valid()
      ensures IsSnapshot(contents, out)
    {
      out := [];
      var left := m.Keys;
      while left != {}
        invariant left <= m.Keys
        invariant forall k :: 0 <= k < |out| ==>
          out[k].name in m && out[k].name !in left && out[k] == contents[out[k].name]
        invariant forall n :: n in m && n !in left ==> contents[n] in out
        invariant forall k, l :: 0 <= k < l < |out| ==> out[k].name != out[l].name
      {
        var n :| n in left;
        out := out + [m[n].Value()];
        left := left - {n};
      }
    }

    method Names() returns (out: set<Name>)
      requires Valid()
      ensures out == contents.Keys
    {
      out := {};
      var left := m.Keys;
      while left != {}
        invariant left <= m.Keys
        invariant out == m.Keys - left
      {
        var n :| n in left;
        out := out + {n};
        left := left - {n};
      }
    }

    method Size() returns (n: nat)
      requires Valid()
      ensures n == |contents|
    {
      assert |contents| == |contents.Keys| && |m| == |m.Keys|;
      return |m|;
    }
  }
}
