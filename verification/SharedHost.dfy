/** All classes keep their instances in one Incus project. Calls name an instance and nothing else; tags and
    names together keep the classes apart, so that each sees a host of its own. */
module SharedHost {
  import opened Tracking
  import opened Lifecycle
  import opened LifecycleInvariant
  import opened LifecycleAccounts
  import opened Obligations
  import opened Guarantees
  import opened Fleet
  import opened RunnerNames
  import opened ClassConfig
  import opened Orchestration

  /** The classes of the configuration, and the ID that GitHub gave the scale set of each. */
  datatype Site = Site(classes: seq<RunnerClass>, prefix: string, baked: bool, ids: seq<int>)

  ghost predicate SiteOk(site: Site) {
    && Acceptable(site.classes, site.prefix, site.baked) && |site.ids| == |site.classes|
    && forall k, l :: 0 <= k < l < |site.ids| ==> site.ids[k] != site.ids[l]
  }

  /** n is a name that makeRunnerName can give a runner of class k. */
  ghost predicate Belongs(site: Site, k: nat, n: Name)
    requires k < |site.classes|
  {
    exists x :: HexSuffix(x) && MakeRunnerName(ScaleSetName(site.classes[k], site.prefix), x) == Some(n)
  }

  lemma BelongsToOne(site: Site, k: nat, l: nat, n: Name)
    requires SiteOk(site) && k < |site.classes| && l < |site.classes| && Belongs(site, k, n) && Belongs(site, l, n)
    ensures k == l
  {
    var x :| HexSuffix(x) && MakeRunnerName(ScaleSetName(site.classes[k], site.prefix), x) == Some(n);
    var y :| HexSuffix(y) && MakeRunnerName(ScaleSetName(site.classes[l], site.prefix), y) == Some(n);
    RunnerNamesApart(site.classes, site.prefix, site.baked, k, l, x, y);
  }

  // ----- one host for all classes -----

  type Host = map<Name, Tags>

  /** The instances that the tags assign to a scale set. */
  function Slice(host: Host, id: int): set<Name> {
    set n | n in host && OwnedBy(host[n], id)
  }

  /** What event e of class k does to the host. Launch and Delete go by the name alone: they replace, or remove,
      whatever has that name. An instance that vanishes on its own is one of class k. */
  ghost predicate HostMoves(site: Site, host: Host, host': Host, k: nat, s: State, e: Event)
    requires k < |site.ids|
  {
    match e
    case Appear(n) => n in host' && TaggedFor(host'[n], site.ids[k]) && host' == host[n := host'[n]]
    case Vanish(n) => host' == if n in Slice(host, site.ids[k]) then host - {n} else host
    case Act(i, c) =>
      host' == if i < |s.actors| && s.actors[i].pc == Term(Deleting) && c.ok then host - {s.actors[i].name} else host
    case _ => host' == host
  }

  /** Spawn tasks of class k name their runners with makeRunnerName. */
  ghost predicate NamesFit(site: Site, k: nat, s: State, e: Event)
    requires k < |site.classes|
  {
    e.Act? && e.actor < |s.actors| && s.actors[e.actor].pc == Prep(Naming) ==> Belongs(site, k, e.choice.name)
  }

  // ----- names that a class has to do with -----

  predicate Ours(s: State, n: Name) {
    n in s.hist.prior || n in s.hist.owner
  }

  lemma TeardownIsOurs(s: State, j: nat)
    requires Safe(s) && j < |s.actors| && s.actors[j].pc.Term?
    ensures Ours(s, s.actors[j].name)
  {
    assert ActorOk(j, s.actors[j], s.hist, s.clock) && NameOk(s, s.actors[j].name);
  }

  lemma RemoteIsOurs(s: State, n: Name)
    requires Safe(s) && (n in s.remote || n in s.hist.launched)
    ensures Ours(s, n)
  {
    assert NameOk(s, n);
  }

  lemma OnlyNamingOwns(s: State, i: nat, c: Choice)
    requires CanAct(s, i, c)
    ensures ActStep(s, i, c).hist.prior == s.hist.prior
    ensures forall n :: n in ActStep(s, i, c).hist.owner ==>
      n in s.hist.owner || (s.actors[i].pc == Prep(Naming) && n == c.name)
  {
    if s.actors[i].pc != Prep(Naming) {
      BooksStep(s, i, c);
    }
  }

  lemma OursGrow(s: State, e: Event, n: Name)
    requires Enabled(s, e) && Ours(Apply(s, e), n)
    ensures Ours(s, n) || (e.Act? && e.actor < |s.actors| && s.actors[e.actor].pc == Prep(Naming) && n == e.choice.name)
  {
    if e.Act? { OnlyNamingOwns(s, e.actor, e.choice); }
    else if Arrival(e) { Arrived(s, e); }
    else if e.SweepDispatch? { DispatchShape(s); }
  }

  // ----- the classes stay apart -----

  ghost predicate NamesItsOwn(site: Site, k: nat, s: State)
    requires k < |site.classes|
  {
    forall n :: Ours(s, n) ==> Belongs(site, k, n)
  }

  /** Every class has its own names, and what it takes for its host is its slice of the shared one. */
  ghost predicate Apart(site: Site, f: FleetState, host: Host) {
    && FleetOk(f) && SiteOk(site) && |f.classes| == |site.classes|
    && forall k :: 0 <= k < |f.classes| ==>
      NamesItsOwn(site, k, f.classes[k]) && f.classes[k].remote == Slice(host, site.ids[k])
  }

  /** No name that class k has to do with is among the instances of another class. */
  lemma NotTheirs(site: Site, f: FleetState, host: Host, k: nat, l: nat, n: Name)
    requires Apart(site, f, host) && k < |f.classes| && l < |f.classes| && k != l && Ours(f.classes[k], n)
    ensures n !in Slice(host, site.ids[l]) && n !in f.classes[l].hist.launched
  {
    if n in f.classes[l].remote || n in f.classes[l].hist.launched {
      RemoteIsOurs(f.classes[l], n);
      assert NamesItsOwn(site, k, f.classes[k]) && NamesItsOwn(site, l, f.classes[l]);
      BelongsToOne(site, k, l, n);
    }
  }

  /** The name that the event touches on the host, if it touches one. */
  predicate Touches(s: State, e: Event, n: Name) {
    (e.Appear? && n == e.name) || (e.Vanish? && n == e.name)
    || (e.Act? && e.actor < |s.actors| && s.actors[e.actor].pc == Term(Deleting) && n == s.actors[e.actor].name)
  }

  lemma TouchesOurs(s: State, e: Event, n: Name)
    requires Safe(s) && Enabled(s, e) && Touches(s, e, n) && !e.Vanish?
    ensures Ours(s, n)
  {
    if e.Appear? { RemoteIsOurs(s, n); } else { TeardownIsOurs(s, e.actor); }
  }

  /** The class that steps keeps seeing its slice. */
  lemma OwnSlice(site: Site, host: Host, host': Host, k: nat, s: State, e: Event)
    requires k < |site.ids| && Enabled(s, e) && HostMoves(site, host, host', k, s, e)
      && s.remote == Slice(host, site.ids[k])
    ensures Apply(s, e).remote == Slice(host', site.ids[k])
  {
    if e.Act? { RemoteOfAct(s, e.actor, e.choice); }
    else if Arrival(e) { Arrived(s, e); }
    else if e.SweepDispatch? { DispatchShape(s); }
  }

  lemma HostElsewhere(site: Site, host: Host, host': Host, k: nat, s: State, e: Event, n: Name)
    requires k < |site.ids| && HostMoves(site, host, host', k, s, e) && !Touches(s, e, n)
    ensures n in host' <==> n in host
    ensures n in host ==> host'[n] == host[n]
  {}

  /** The one name that is touched is not in the slice of another class. */
  lemma TouchedIsNotTheirs(site: Site, f: FleetState, host: Host, k: nat, e: Event, l: nat, n: Name)
    requires Apart(site, f, host) && FleetEnabled(f, k, e) && l < |f.classes| && l != k && Touches(f.classes[k], e, n)
    requires e.Vanish? ==> n in Slice(host, site.ids[k])
    ensures n !in Slice(host, site.ids[l])
  {
    if e.Vanish? { RemoteIsOurs(f.classes[k], n); } else { TouchesOurs(f.classes[k], e, n); }
    NotTheirs(site, f, host, k, l, n);
  }

  lemma TouchedNames(site: Site, host: Host, host': Host, k: nat, l: nat, s: State, e: Event, n: Name)
    requires k < |site.ids| && l < |site.ids| && site.ids[k] != site.ids[l]
    requires HostMoves(site, host, host', k, s, e) && Touches(s, e, n)
    requires n !in Slice(host, site.ids[l])
    ensures n !in Slice(host', site.ids[l])
  {}

  lemma OtherSliceAt(site: Site, f: FleetState, host: Host, host': Host, k: nat, e: Event, l: nat, n: Name)
    requires Apart(site, f, host) && FleetEnabled(f, k, e) && HostMoves(site, host, host', k, f.classes[k], e)
    requires l < |f.classes| && l != k
    ensures n in Slice(host', site.ids[l]) <==> n in Slice(host, site.ids[l])
  {
    var s := f.classes[k];
    if !Touches(s, e, n) {
      HostElsewhere(site, host, host', k, s, e, n);
    } else if e.Vanish? && n !in Slice(host, site.ids[k]) {
      assert host' == host;
    } else {
      TouchedIsNotTheirs(site, f, host, k, e, l, n);
      TouchedNames(site, host, host', k, l, s, e, n);
    }
  }

  /** So do the others. */
  lemma OtherSlice(site: Site, f: FleetState, host: Host, host': Host, k: nat, e: Event, l: nat)
    requires Apart(site, f, host) && FleetEnabled(f, k, e) && HostMoves(site, host, host', k, f.classes[k], e)
    requires l < |f.classes| && l != k
    ensures Slice(host', site.ids[l]) == Slice(host, site.ids[l])
  {
    forall n ensures n in Slice(host', site.ids[l]) <==> n in Slice(host, site.ids[l]) {
      OtherSliceAt(site, f, host, host', k, e, l, n);
    }
  }

  lemma ApartStep(site: Site, f: FleetState, host: Host, host': Host, k: nat, e: Event)
    requires Apart(site, f, host) && FleetEnabled(f, k, e)
    requires NamesFit(site, k, f.classes[k], e) && HostMoves(site, host, host', k, f.classes[k], e)
    ensures Apart(site, FleetApply(f, k, e), host')
  {
    var f' := FleetApply(f, k, e);
    FleetApplyKeeps(f, k, e);
    forall l | 0 <= l < |f'.classes|
      ensures NamesItsOwn(site, l, f'.classes[l]) && f'.classes[l].remote == Slice(host', site.ids[l])
    {
      assert NamesItsOwn(site, l, f.classes[l]);
      if l == k {
        OwnSlice(site, host, host', k, f.classes[k], e);
        forall n | Ours(f'.classes[k], n) ensures Belongs(site, k, n) { OursGrow(f.classes[k], e, n); }
      } else {
        OtherSlice(site, f, host, host', k, e, l);
      }
    }
  }

  // ----- whole runs -----

  /** Class k takes step e, which leaves the host as it is given. */
  datatype Move = Move(k: nat, e: Event, host: Host)

  ghost predicate SiteLegal(site: Site, f: FleetState, host: Host, ms: seq<Move>)
    decreases |ms|
  {
    ms == []
    || (var m := ms[0];
        && m.k < |site.classes| && m.k < |site.ids| && FleetEnabled(f, m.k, m.e)
        && NamesFit(site, m.k, f.classes[m.k], m.e) && HostMoves(site, host, m.host, m.k, f.classes[m.k], m.e)
        && SiteLegal(site, FleetApply(f, m.k, m.e), m.host, ms[1..]))
  }

  ghost function SiteExec(site: Site, f: FleetState, host: Host, ms: seq<Move>): (FleetState, Host)
    requires SiteLegal(site, f, host, ms)
    decreases |ms|
  {
    if ms == [] then (f, host) else SiteExec(site, FleetApply(f, ms[0].k, ms[0].e), ms[0].host, ms[1..])
  }

  lemma {:induction false} ApartRun(site: Site, f: FleetState, host: Host, ms: seq<Move>)
    requires Apart(site, f, host) && SiteLegal(site, f, host, ms)
    ensures var (f', host') := SiteExec(site, f, host, ms); Apart(site, f', host')
    decreases |ms|
  {
    if ms != [] {
      ApartStep(site, f, host, ms[0].host, ms[0].k, ms[0].e);
      ApartRun(site, FleetApply(f, ms[0].k, ms[0].e), ms[0].host, ms[1..]);
    }
  }

  /** All classes of a process start on a shared host. Leftovers of a scale set carry names that an earlier
      process made for it. */
  ghost predicate SiteStarts(site: Site, f: FleetState, host: Host) {
    && FleetInit(f) && SiteOk(site) && |f.classes| == |site.classes|
    && forall k :: 0 <= k < |f.classes| ==>
      f.classes[k].remote == Slice(host, site.ids[k]) && forall n :: n in f.classes[k].remote ==> Belongs(site, k, n)
  }

  /** Actor j of class k is stopping or deleting n. */
  predicate InTeardown(f: FleetState, k: nat, j: nat, n: Name) {
    k < |f.classes| && j < |f.classes[k].actors| && TearsDown(f.classes[k].actors[j], n)
  }

  /** Over every run of all classes on one host: each class sees exactly the instances that carry its tags, and
      none of its actors stops or deletes an instance of another class, or one that another class launched. */
  lemma ClassesIsolated(site: Site, f0: FleetState, host0: Host, ms: seq<Move>, k: nat, l: nat, j: nat, n: Name)
    requires SiteStarts(site, f0, host0) && SiteLegal(site, f0, host0, ms)
    ensures var (f, host) := SiteExec(site, f0, host0, ms);
      && |f.classes| == |site.classes| == |site.ids|
      && (forall c :: 0 <= c < |f.classes| ==> f.classes[c].remote == Slice(host, site.ids[c]))
      && (InTeardown(f, k, j, n) && l < |f.classes| && k != l ==>
            n !in Slice(host, site.ids[l]) && n !in f.classes[l].hist.launched)
  {
    FleetStarts(f0);
    ApartRun(site, f0, host0, ms);
    var (f, host) := SiteExec(site, f0, host0, ms);
    if InTeardown(f, k, j, n) && l < |f.classes| && k != l {
      TeardownIsOurs(f.classes[k], j);
      NotTheirs(site, f, host, k, l, n);
    }
  }
}
