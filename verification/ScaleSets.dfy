/** Bootstrap of a scale set: reconciling its labels and opening the message session. */
module ScaleSets {
  import opened Tracking
  import opened Labels

  // ----- reconciliation -----

  datatype ScaleSet = ScaleSet(id: int, name: string, groupId: int, labels: seq<string>)

  datatype Result<+T> = Ok(value: T) | Failed

  /** The service: it stores what it is sent under an ID that an update keeps, and counts its mutations. */
  datatype Api = Api(sets: map<int, ScaleSet>, nextId: int, mutations: nat)

  function Store(api: Api, s: ScaleSet): Api {
    Api(api.sets[s.id := s], if s.id == api.nextId then api.nextId + 1 else api.nextId, api.mutations + 1)
  }

  /** reconcileScaleSet: create what is missing, update what has drifted, leave the rest alone. `accepts`
      says whether the service carries a mutation out. */
  function Reconcile(api: Api, accepts: bool, name: string, groupId: int, existing: Option<ScaleSet>,
                     want: seq<string>, lower: string -> string): (Api, Result<ScaleSet>)
  {
    match existing
    case None =>
      var s := ScaleSet(api.nextId, name, groupId, want);
      if accepts then (Store(api, s), Ok(s)) else (api, Failed)
    case Some(e) =>
      if SameLabels(e.labels, want, lower) then (api, Ok(e))
      else
        var s := ScaleSet(e.id, e.name, groupId, want);
        if accepts then (Store(api, s), Ok(s)) else (api, Failed)
  }

  method ReconcileScaleSet(api: Api, accepts: bool, name: string, groupId: int, existing: Option<ScaleSet>,
                           want: seq<string>, lower: string -> string) returns (api': Api, r: Result<ScaleSet>)
    ensures (api', r) == Reconcile(api, accepts, name, groupId, existing, want, lower)
    ensures var due := existing.None? || !SameLabels(existing.value.labels, want, lower);
            && (r.Failed? <==> due && !accepts)
            && (r.Failed? || !due ==> api' == api)
            && (r.Ok? && !due ==> r.value == existing.value)
            && (r.Ok? && due ==> r.value.groupId == groupId && r.value.labels == want
                                 && api'.sets == api.sets[r.value.id := r.value] && api'.mutations == api.mutations + 1)
    ensures r.Ok? && existing.None? ==>
      r.value.id == api.nextId && r.value.name == name && api'.nextId == api.nextId + 1
    ensures r.Ok? && existing.Some? ==> r.value.id == existing.value.id && r.value.name == existing.value.name
  {
    match existing
    case None =>
      var s := ScaleSet(api.nextId, name, groupId, want);
      if accepts {
        return Store(api, s), Ok(s);
      }
      return api, Failed;
    case Some(e) =>
      var same := LabelNamesMatch(e.labels, want, lower);
      if same {
        return api, Ok(e);
      }
      var s := ScaleSet(e.id, e.name, groupId, want);
      if accepts {
        return Store(api, s), Ok(s);
      }
      return api, Failed;
  }

  /** One reconcile reaches a fixpoint: the result carries the wanted labels and the old identity, it is what
      the service now holds, and reconciling again - whatever the service would say - mutates nothing. */
  lemma ReconcileFixpoint(api: Api, accepts: bool, accepts': bool, name: string, groupId: int,
                          existing: Option<ScaleSet>, want: seq<string>, lower: string -> string)
    requires existing.Some? ==> existing.value.id in api.sets && api.sets[existing.value.id] == existing.value
    requires Reconcile(api, accepts, name, groupId, existing, want, lower).1.Ok?
    ensures var (api', r) := Reconcile(api, accepts, name, groupId, existing, want, lower);
            && SameLabels(r.value.labels, want, lower)
            && (existing.Some? ==> r.value.id == existing.value.id && r.value.name == existing.value.name)
            && r.value.id in api'.sets && api'.sets[r.value.id] == r.value
            && api'.mutations <= api.mutations + 1
            && (api'.mutations == api.mutations <==> existing.Some? && SameLabels(existing.value.labels, want, lower))
            && Reconcile(api', accepts', name, groupId, Some(r.value), want, lower) == (api', r)
  {}

  /** A scale set reconciled with one configuration is updated under another one exactly if the two do not
      mention the same labels. */
  lemma UpdatedIffRelabelled(api: Api, accepts: bool, name: string, groupId: int, existing: Option<ScaleSet>,
                             before: seq<string>, after: seq<string>, lower: string -> string)
    requires Reconcile(api, accepts, name, groupId, existing, Deduplicated(before, lower), lower).1.Ok?
    ensures var (api', r) := Reconcile(api, accepts, name, groupId, existing, Deduplicated(before, lower), lower);
            var api'' := Reconcile(api', true, name, groupId, Some(r.value), Deduplicated(after, lower), lower).0;
            api''.mutations > api'.mutations
            <==> exists key :: Mentions(before, key, lower) != Mentions(after, key, lower)
  {
    SameLabelsMeans(before, after, lower);
  }

  // ----- the message session -----

  /** What one attempt to open a session brings; a conflict is an error that mentions 409. */
  datatype Attempt = Opened(session: int) | Conflict | Refused

  datatype SessionResult = Session(session: int) | OpenError | Cancelled

  const MAX_ATTEMPTS := 20
  const MAX_WAIT := 300

  /** Seconds between attempt a and the next. */
  function Backoff(a: nat): nat {
    if a * 30 > MAX_WAIT then MAX_WAIT else a * 30
  }

  function TotalWait(n: nat): nat {
    if n == 0 then 0 else TotalWait(n - 1) + Backoff(n)
  }

  /** Half a minute more each time, and five minutes from the tenth on. */
  lemma {:induction false} TotalWaitClosed(n: nat)
    ensures n > 0 ==> TotalWait(n) - TotalWait(n - 1) == if n < 10 then 30 * n else 300
    ensures TotalWait(n) == if n <= 10 then 15 * n * (n + 1) else 1650 + 300 * (n - 10)
  {
    if n > 0 {
      TotalWaitClosed(n - 1);
    }
  }

  lemma Square(n: nat)
    requires n <= 10
    ensures n * (n + 1) <= 110
  {}

  lemma WaitBound(n: nat)
    requires n < MAX_ATTEMPTS
    ensures TotalWait(n) <= 4350 && (TotalWait(n) == 4350 <==> n == 19)
  {
    TotalWaitClosed(n);
    if n <= 10 {
      assert n * (n + 1) <= 110 by { Square(n); }
    }
  }

  /** Attempts are numbered from 1; `cancelled(a)` says that the context ends during the wait after a. The
      last attempt is the first that does not ask for another one, its outcome is the result, and the waits
      scheduled up to it add up to at most 4350 seconds. */
  method OpenSessionWithRetry(open: nat -> Attempt, cancelled: nat -> bool)
      returns (r: SessionResult, attempts: nat, scheduled: nat)
    ensures 1 <= attempts <= 20
    ensures forall a :: 1 <= a < attempts ==> open(a).Conflict? && !cancelled(a)
    ensures r.OpenError? <==> open(attempts).Refused? || (open(attempts).Conflict? && attempts == 20)
    ensures r.Cancelled? ==> cancelled(attempts)
    ensures r.Session? <==> open(attempts).Opened?
    ensures r.Session? ==> r.session == open(attempts).session
    ensures r.Cancelled? <==> open(attempts).Conflict? && attempts < 20
    ensures scheduled == TotalWait(if r.Cancelled? then attempts else attempts - 1) && scheduled <= 4350
  {
    attempts, scheduled := 1, 0;
    while true
      invariant 1 <= attempts <= MAX_ATTEMPTS
      invariant forall a :: 1 <= a < attempts ==> open(a).Conflict? && !cancelled(a)
      invariant scheduled == TotalWait(attempts - 1)
      decreases MAX_ATTEMPTS - attempts
    {
      var outcome := open(attempts);
      WaitBound(attempts - 1);
      if outcome.Opened? {
        return Session(outcome.session), attempts, scheduled;
      }
      if !outcome.Conflict? || attempts >= MAX_ATTEMPTS {
        return OpenError, attempts, scheduled;
      }
      WaitBound(attempts);
      scheduled := scheduled + Backoff(attempts);
      if cancelled(attempts) {
        return Cancelled, attempts, scheduled;
      }
      attempts := attempts + 1;
    }
  }
}
