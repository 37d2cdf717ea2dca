/** The release resolver: a cache with a time to live that falls back on stale entries. */
module ReleaseCache {
  import opened Tracking

  datatype Release = Release(version: string, downloadUrl: string, sha256: string)

  datatype Entry = Entry(release: Release, at: int)

  type Cache = map<string, Entry>

  /** One call of Resolve: the clock when it looks at the cache, the clock when a fetch has returned, and
      what a fetch would bring. Calls are serialised by the resolver's mutex. */
  datatype Call = Call(arch: string, start: int, end: int, fetched: Option<Release>)

  // ----- one call -----

  predicate Hit(cache: Cache, ttl: int, c: Call) {
    c.arch in cache && ttl > 0 && c.start - cache[c.arch].at < ttl
  }

  /** The call goes to GitHub and comes back with a release. */
  predicate Refreshes(cache: Cache, ttl: int, c: Call) {
    !Hit(cache, ttl, c) && c.fetched.Some?
  }

  function After(cache: Cache, ttl: int, c: Call): Cache {
    if Refreshes(cache, ttl, c) && ttl > 0 then cache[c.arch := Entry(c.fetched.value, c.end)] else cache
  }

  function Answer(cache: Cache, ttl: int, c: Call): Option<Release> {
    if Hit(cache, ttl, c) then Some(cache[c.arch].release)
    else if c.fetched.Some? then c.fetched
    else if c.arch in cache && ttl > 0 then Some(cache[c.arch].release)
    else None
  }

  class LatestResolver {
    const ttl: int
    var cached: Cache

    constructor (ttl: int)
      ensures this.ttl == ttl && cached == map[]
    {
      this.ttl := ttl;
      cached := map[];
    }

    method Resolve(c: Call) returns (r: Option<Release>, asked: bool)
      modifies this
      ensures cached == After(old(cached), ttl, c) && r == Answer(old(cached), ttl, c)
      ensures asked <==> !Hit(old(cached), ttl, c)
    {
      if c.arch in cached && ttl > 0 && c.start - cached[c.arch].at < ttl {
        return Some(cached[c.arch].release), false;
      }
      asked := true;
      if c.fetched.None? {
        if c.arch in cached && ttl > 0 {
          return Some(cached[c.arch].release), true;
        }
        return None, true;
      }
      if ttl > 0 {
        cached := cached[c.arch := Entry(c.fetched.value, c.end)];
      }
      return c.fetched, true;
    }
  }

  // ----- a history of calls -----

  function CacheAfter(calls: seq<Call>, ttl: int): Cache {
    if calls == [] then map[] else After(CacheAfter(calls[..|calls| - 1], ttl), ttl, calls[|calls| - 1])
  }

  /** The successful fetches so far, oldest first, of all architectures. */
  function FetchLog(calls: seq<Call>, ttl: int): seq<Call> {
    if calls == [] then []
    else
      var before, c := calls[..|calls| - 1], calls[|calls| - 1];
      FetchLog(before, ttl) + (if Refreshes(CacheAfter(before, ttl), ttl, c) then [c] else [])
  }

  function Latest(log: seq<Call>, arch: string): Option<Call> {
    if log == [] then None
    else if log[|log| - 1].arch == arch then Some(log[|log| - 1])
    else Latest(log[..|log| - 1], arch)
  }

  predicate Agrees(cache: Cache, log: seq<Call>, arch: string) {
    match Latest(log, arch)
    case None => arch !in cache
    case Some(c) => arch in cache && c.fetched.Some? && cache[arch] == Entry(c.fetched.value, c.end)
  }

  /** The cache holds, per architecture, the latest successful fetch and when it returned. */
  lemma {:induction false} CacheIsLatest(calls: seq<Call>, ttl: int, arch: string)
    requires ttl > 0
    ensures Agrees(CacheAfter(calls, ttl), FetchLog(calls, ttl), arch)
  {
    if calls != [] {
      var before, c := calls[..|calls| - 1], calls[|calls| - 1];
      CacheIsLatest(before, ttl, arch);
      if Refreshes(CacheAfter(before, ttl), ttl, c) {
        assert (FetchLog(before, ttl) + [c])[..|FetchLog(before, ttl)|] == FetchLog(before, ttl);
      } else {
        assert FetchLog(before, ttl) + [] == FetchLog(before, ttl);
      }
    }
  }

  /** With caching on, every answer is the latest successful fetch for that very architecture, the one of
      this call included, and there is an error exactly if it never succeeded. */
  lemma AnswersLatest(calls: seq<Call>, c: Call, ttl: int)
    requires ttl > 0
    ensures var latest := Latest(FetchLog(calls + [c], ttl), c.arch);
            Answer(CacheAfter(calls, ttl), ttl, c) == if latest.Some? then latest.value.fetched else None
  {
    CacheIsLatest(calls, ttl, c.arch);
    assert (calls + [c])[..|calls|] == calls;
    var log := FetchLog(calls, ttl);
    if Refreshes(CacheAfter(calls, ttl), ttl, c) {
      assert (log + [c])[|log|] == c;
    } else {
      assert FetchLog(calls + [c], ttl) == log;
    }
  }

  // ----- when GitHub is asked -----

  /** Whether the i-th call of a history asks GitHub, and what it answers. */
  predicate AskedAt(calls: seq<Call>, ttl: int, i: nat)
    requires i < |calls|
  {
    !Hit(CacheAfter(calls[..i], ttl), ttl, calls[i])
  }

  function AnswerAt(calls: seq<Call>, ttl: int, i: nat): Option<Release>
    requires i < |calls|
  {
    Answer(CacheAfter(calls[..i], ttl), ttl, calls[i])
  }

  /** Call j asked GitHub for this architecture and was brought a release. */
  predicate Brought(calls: seq<Call>, ttl: int, j: nat, arch: string)
    requires j < |calls|
  {
    AskedAt(calls, ttl, j) && calls[j].arch == arch && calls[j].fetched.Some?
  }

  /** The last such call before the i-th. */
  ghost predicate Supplies(calls: seq<Call>, ttl: int, i: nat, j: nat, arch: string)
    requires i <= |calls|
  {
    j < i && Brought(calls, ttl, j, arch) && forall l: nat :: j < l < i ==> !Brought(calls, ttl, l, arch)
  }

  lemma SupplierUnique(calls: seq<Call>, ttl: int, i: nat, j: nat, l: nat, arch: string)
    requires i <= |calls| && Supplies(calls, ttl, i, j, arch) && Supplies(calls, ttl, i, l, arch)
    ensures j == l
  {}

  lemma {:induction false} EntrySupplied(calls: seq<Call>, ttl: int, i: nat, arch: string) returns (j: nat)
    requires ttl > 0 && i <= |calls|
    ensures var cache := CacheAfter(calls[..i], ttl);
            if arch in cache
            then Supplies(calls, ttl, i, j, arch)
                 && cache[arch].at == calls[j].end && Some(cache[arch].release) == calls[j].fetched
            else forall l: nat :: l < i ==> !Brought(calls, ttl, l, arch)
    decreases i
  {
    j := 0;
    if i == 0 {
      assert calls[..0] == [];
    } else {
      assert calls[..i][..i - 1] == calls[..i - 1];
      j := EntrySupplied(calls, ttl, i - 1, arch);
      if Brought(calls, ttl, i - 1, arch) {
        j := i - 1;
      }
    }
  }

  /** Spelled out, over any history of calls. A call asks GitHub exactly if no call before it was brought a release
      for its architecture, or the last that was is at least the time to live ago. When it asks and is
      brought a release, it answers that one; otherwise it answers what the last one was brought, and with
      none it fails. So a release that old is answered only if asking failed. */
  lemma ResolveMeans(calls: seq<Call>, ttl: int, i: nat)
    requires ttl > 0 && i < |calls|
    ensures var c := calls[i];
      && (AskedAt(calls, ttl, i) <==>
            !exists j: nat :: Supplies(calls, ttl, i, j, c.arch) && c.start - calls[j].end < ttl)
      && (AskedAt(calls, ttl, i) && c.fetched.Some? ==> AnswerAt(calls, ttl, i) == c.fetched)
      && (forall j: nat :: Supplies(calls, ttl, i, j, c.arch) && !(AskedAt(calls, ttl, i) && c.fetched.Some?) ==>
            AnswerAt(calls, ttl, i) == calls[j].fetched)
      && (c.fetched.None? && (forall j: nat :: !Supplies(calls, ttl, i, j, c.arch)) ==> AnswerAt(calls, ttl, i) == None)
  {
    var arch := calls[i].arch;
    var j := EntrySupplied(calls, ttl, i, arch);
    assert Supplies(calls, ttl, i, j, arch) || forall l: nat :: !Supplies(calls, ttl, i, l, arch);
    forall l: nat | Supplies(calls, ttl, i, l, arch) && Supplies(calls, ttl, i, j, arch) ensures l == j {
      SupplierUnique(calls, ttl, i, j, l, arch);
    }
  }

  /** With caching off the cache stays empty: every call asks GitHub and answers what it brings. */
  lemma {:induction false} UncachedAsksAlways(calls: seq<Call>, c: Call, ttl: int)
    requires ttl <= 0
    ensures CacheAfter(calls, ttl) == map[]
    ensures !Hit(CacheAfter(calls, ttl), ttl, c) && Answer(CacheAfter(calls, ttl), ttl, c) == c.fetched
  {
    if calls != [] {
      UncachedAsksAlways(calls[..|calls| - 1], c, ttl);
    }
  }

  // ----- the rate of refreshes -----

  /** The clock does not go back, within a call or from one to the next. */
  predicate Monotone(calls: seq<Call>) {
    && (forall i :: 0 <= i < |calls| ==> calls[i].start <= calls[i].end)
    && (forall i, j :: 0 <= i < j < |calls| ==> calls[i].end <= calls[j].start)
  }

  /** When the stored refreshes of one architecture returned, oldest first. */
  function Times(log: seq<Call>, arch: string): seq<int> {
    if log == [] then []
    else Times(log[..|log| - 1], arch) + (if log[|log| - 1].arch == arch then [log[|log| - 1].end] else [])
  }

  predicate Apart(ts: seq<int>, ttl: int) {
    forall i :: 0 <= i < |ts| - 1 ==> ts[i + 1] - ts[i] >= ttl
  }

  lemma {:induction false} LastTime(log: seq<Call>, arch: string)
    ensures Latest(log, arch).None? <==> Times(log, arch) == []
    ensures Latest(log, arch).Some? ==> Times(log, arch)[|Times(log, arch)| - 1] == Latest(log, arch).value.end
  {
    if log != [] {
      LastTime(log[..|log| - 1], arch);
    }
  }

  lemma OneMoreTime(log: seq<Call>, c: Call, arch: string)
    ensures Times(log + [c], arch) == Times(log, arch) + (if c.arch == arch then [c.end] else [])
  {
    assert (log + [c])[..|log|] == log;
  }

  lemma ApartMore(ts: seq<int>, t: int, ttl: int)
    requires Apart(ts, ttl) && (ts != [] ==> t - ts[|ts| - 1] >= ttl)
    ensures Apart(ts + [t], ttl)
  {}

  /** Stored refreshes of an architecture are at least the time to live apart. */
  lemma {:induction false} RefreshesApart(calls: seq<Call>, ttl: int, arch: string)
    requires ttl > 0 && Monotone(calls)
    ensures Apart(Times(FetchLog(calls, ttl), arch), ttl)
  {
    if calls != [] {
      var before, c := calls[..|calls| - 1], calls[|calls| - 1];
      var log := FetchLog(before, ttl);
      RefreshesApart(before, ttl, arch);
      if Refreshes(CacheAfter(before, ttl), ttl, c) {
        OneMoreTime(log, c, arch);
        if c.arch == arch {
          CacheIsLatest(before, ttl, arch);
          LastTime(log, arch);
          ApartMore(Times(log, arch), c.end, ttl);
        }
      } else {
        assert log + [] == log;
      }
    }
  }

  lemma {:induction false} SpanGrows(ts: seq<int>, ttl: int, i: nat, j: nat)
    requires Apart(ts, ttl) && i <= j < |ts|
    ensures ts[j] - ts[i] >= (j - i) * ttl
  {
    if i < j {
      SpanGrows(ts, ttl, i, j - 1);
      assert (j - i) * ttl == (j - 1 - i) * ttl + ttl;
    }
  }

  lemma Product(a: int, b: int, d: int)
    requires d > 0
    ensures a >= b ==> a * d >= b * d
  {}

  lemma Quotient(n: int, d: int, w: int)
    requires d > 0 && n * d <= w
    ensures n <= w / d
  {
    assert w < (w / d + 1) * d;
    Product(n, w / d + 1, d);
  }

  /** Any window of length w holds at most w / ttl + 1 stored refreshes of an architecture. */
  lemma RefreshRate(calls: seq<Call>, ttl: int, arch: string, w: nat, i: nat, j: nat)
    requires ttl > 0 && Monotone(calls)
    requires var ts := Times(FetchLog(calls, ttl), arch); i <= j < |ts| && ts[j] - ts[i] <= w
    ensures j - i + 1 <= w / ttl + 1
  {
    RefreshesApart(calls, ttl, arch);
    SpanGrows(Times(FetchLog(calls, ttl), arch), ttl, i, j);
    Quotient(j - i, ttl, w);
  }
}
