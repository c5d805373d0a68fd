/** The policy controller: reservation before the backend is called, completion after it, and
    repair of stale ledger snapshots from the authorization store. */
module Controllers {
  import opened JsonValues
  import opened Policies
  import opened Claims
  import opened AuthorizationStore
  import opened Ledgers
  import opened GateEngine
  import opened EngineSafety
  import opened EndToEnd
  import E = GateEngine
  import S = AuthorizationStore
  import P = ConsumptionProtocol
  import G = Gateway

  // ---- Read-repair ----------------------------------------------------------------------------

  ghost function Latest(db: Db, id: RequestId): Option<string> {
    if exists a :: IsLatest(db, id, a) then
      var a :| IsLatest(db, id, a);
      Some(a)
    else None
  }

  /** The authorization the store knows for a snapshot. */
  ghost function RecordFor(db: Db, s: Snapshot): Option<string> {
    if s.authorization.Some? then (if s.authorization.value.id in db.rows then Some(s.authorization.value.id) else None)
    else Latest(db, s.requestId)
  }

  /** Whether `_sync_authorization` takes the snapshot for current. */
  predicate Agrees(s: Snapshot, a: string, state: RowState) {
    S.Names(s, a) && s.state == Public(state) && s.authorization.value.status == state
  }

  /** The snapshot tells a reader what row `a` is. */
  predicate Tells(s: Snapshot, a: string, state: RowState) {
    && s.authorization.Some? && s.authorization.value.id == a && s.authorization.value.status == state
    && ReadsAs(s.state, state)
  }

  function Repaired(s: Snapshot, row: Row): Snapshot {
    if s.authorization.None? then row.snapshot else Show(s, row.state, row.receipt, row.updatedAt)
  }

  /** What a repair of `s` would write, going by the store as read; `None` when it is current. */
  ghost function RepairOf(read: Db, s: Snapshot): Option<Snapshot> {
    var a := RecordFor(read, s);
    if a.None? || a.value !in read.rows || Agrees(s, a.value, read.rows[a.value].state) then None
    else Some(Repaired(s, read.rows[a.value]))
  }

  /** `_sync_authorization` of the snapshot `s` as its statements meet the database: the store
      record is read from `read`, the swap is tried on `later`, and after a lost swap the
      ledger is read once more, from `last`. The result: `later` after the swap, and what is
      shown. */
  ghost function SyncedOver(read: Db, later: Db, last: Db, s: Snapshot): (Db, Snapshot) {
    var repaired := RepairOf(read, s);
    if repaired.None? then (later, s)
    else if Swappable(later.requests, s, repaired.value) then
      (later.(requests := later.requests[s.requestId := repaired.value]), repaired.value)
    else (later, if s.requestId in last.requests then last.requests[s.requestId] else s)
  }

  /** With nobody writing meanwhile. */
  ghost function Synced(db: Db, s: Snapshot): (Db, Snapshot) {
    SyncedOver(db, db, db, s)
  }

  lemma RecordIsThere(db: Db, s: Snapshot)
    ensures RecordFor(db, s).Some? ==> RecordFor(db, s).value in db.rows
  {
  }

  /** With nobody writing meanwhile, after a repair the ledger shows the store's state, and is
      what was returned, exactly when the snapshot already carried its authorization or the
      retained one is current. */
  lemma RepairShowsTheStoreIff(db: Db, s: Snapshot, a: string)
    requires RecordFor(db, s) == Some(a)
    requires s.requestId in db.requests && db.requests[s.requestId] == s
    requires s.authorization.None? ==> db.rows[a].snapshot.requestId == s.requestId
    ensures var (db', shown) := Synced(db, s);
            && db'.rows == db.rows && db'.requests == db.requests[s.requestId := shown]
            && (Tells(shown, a, db.rows[a].state) <==>
                   s.authorization.Some? || Tells(db.rows[a].snapshot, a, db.rows[a].state))
  {
    hide IsLatest;
    RecordIsThere(db, s);
    if s.authorization.None? {
      assert !S.Names(s, a);
    }
  }

  /** A second repair changes nothing. */
  lemma RepairIsIdempotent(db: Db, s: Snapshot, a: string)
    requires RecordFor(db, s) == Some(a)
    requires s.requestId in db.requests && db.requests[s.requestId] == s
    requires s.authorization.None? ==>
               db.rows[a].snapshot.requestId == s.requestId && Tells(db.rows[a].snapshot, a, db.rows[a].state)
    ensures var (db', shown) := Synced(db, s); Synced(db', shown) == (db', shown)
  {
    hide IsLatest;
    RecordIsThere(db, s);
    RepairShowsTheStoreIff(db, s, a);
  }

  /** Whatever is written between the reads and the swap: a repair touches no row of the store
      and at most the one snapshot it read, only if that is still exactly what was read; a
      newer snapshot is kept, and the one then present is shown. */
  lemma RepairReplacesOnlyWhatItRead(read: Db, later: Db, last: Db, s: Snapshot)
    ensures var (after, shown) := SyncedOver(read, later, last, s);
            && after.rows == later.rows
            && (after != later ==>
                  && s.requestId in later.requests && later.requests[s.requestId] == s
                  && RepairOf(read, s) == Some(shown) && after.requests == later.requests[s.requestId := shown])
            && (s.requestId in later.requests && later.requests[s.requestId] != s ==> after == later)
            && (after == later && shown != s && RepairOf(read, s) != Some(shown) ==>
                  s.requestId in last.requests && shown == last.requests[s.requestId])
  {
    hide IsLatest, RepairOf;
  }

  /** Along the run no ledger row is handed to a second authorization. */
  ghost predicate FirstAlong(db: Db, calls: seq<StoreCall>)
    decreases |calls|
  {
    calls != [] ==> FirstForRequest(db, calls[0]) && FirstAlong(S.Perform(db, calls[0]).db, calls[1..])
  }

  lemma {:induction false} StoreRunsStayCurrent(db: Db, calls: seq<StoreCall>)
    requires CurrentWhereNamed(db) && LedgerNames(db) && FirstAlong(db, calls)
    ensures SnapshotsCurrent(AfterStoreCalls(db, calls)) && LedgerNames(AfterStoreCalls(db, calls))
    decreases |calls|
  {
    hide CurrentWhereNamed, SnapshotsCurrent, LedgerNames, S.Perform, FirstForRequest;
    if calls == [] {
      NamedThenCurrent(db);
    } else {
      OneConnectionKeepsSnapshotsCurrent(db, calls[0]);
      LedgerNamesStay(db, calls[0]);
      StoreRunsStayCurrent(S.Perform(db, calls[0]).db, calls[1..]);
    }
  }

  /** After any run of store calls on one connection, whatever else was written to a ledger row
      that still names its authorization: one repair makes the row show the store's state, and
      another changes nothing. */
  lemma RepairAfterStoreRuns(start: Db, calls: seq<StoreCall>, s: Snapshot, a: string)
    requires CurrentWhereNamed(start) && LedgerNames(start) && FirstAlong(start, calls)
    requires var run := AfterStoreCalls(start, calls);
             RowOf(run, s.requestId, a) && s.requestId in run.requests
             && (s.authorization.None? || S.Names(s, a))
             && (s.authorization.None? ==>
                    Latest(run, s.requestId) == Some(a) && run.rows[a].snapshot.requestId == s.requestId)
    ensures var run := AfterStoreCalls(start, calls);
            var written := run.(requests := run.requests[s.requestId := s]);
            var (repaired, shown) := Synced(written, s);
            && Tells(shown, a, run.rows[a].state) && repaired.requests[s.requestId] == shown
            && repaired.rows == run.rows && Synced(repaired, shown) == (repaired, shown)
  {
    hide IsLatest, AfterStoreCalls, FirstAlong;
    StoreRunsStayCurrent(start, calls);
    var run := AfterStoreCalls(start, calls);
    var written := run.(requests := run.requests[s.requestId := s]);
    assert Shows(run.rows[a].snapshot, a, run.rows[a].state);
    LatestSeesRows(run, written, s.requestId);
    RepairShowsTheStoreIff(written, s, a);
    RepairIsIdempotent(written, s, a);
  }

  lemma LatestSeesRows(db: Db, db': Db, id: RequestId)
    requires db.rows == db'.rows
    ensures Latest(db, id) == Latest(db', id)
  {
    forall a ensures IsLatest(db, id, a) <==> IsLatest(db', id, a) {
      assert forall b :: RowOf(db, id, b) <==> RowOf(db', id, b);
      assert forall b | RowOf(db, id, b) && RowOf(db, id, a) :: Earlier(db, b, a) <==> Earlier(db', b, a);
    }
    if exists a :: IsLatest(db, id, a) {
      var a :| IsLatest(db, id, a) && Latest(db, id) == Some(a);
      var b :| IsLatest(db', id, b) && Latest(db', id) == Some(b);
      OneLatest(db, id, a, b);
    }
  }

  // ---- The controller --------------------------------------------------------------------------

  datatype Controls = Controls(pauseAll: bool, revokedPrincipals: set<string>, pausedDomains: set<string>)

  /** `_allowed`. */
  predicate Allowed(controls: Controls, principal: string, action: string) {
    !controls.pauseAll && principal !in controls.revokedPrincipals && SplitDots(action)[0] !in controls.pausedDomains
  }

  datatype Reply =
    | Shown(snapshot: Snapshot)
    | NotAllowed | ReservationRefused(reason: Reservation) | MissingRequest | BackendRaised(error: Error) | NotCompleted
    | UnknownRequest | NotYours

  /** A controller call that is allowed: bindings, engine over the shared database, reply. */
  ghost function Requested(c: Config, bindings: Bindings, before: State, args: RequestArgs, script: Env,
      now: int): (Bindings, State, Reply) {
    var key, fingerprint := KeyFor(args), FingerprintOf(args);
    match Reservable(bindings, key, fingerprint)
    case Existing(id) =>
      (bindings, before, if id in before.world.db.requests then Shown(before.world.db.requests[id]) else MissingRequest)
    case Fresh =>
      var res := E.RequestAction(c, before, args, script);
      var reserved := bindings[key := Reserved(fingerprint)];
      if res.response.Raised? then (reserved, res.state, BackendRaised(res.response.error))
      else if res.response.id !in res.state.requests then (reserved, res.state, NotCompleted)
      else Recorded(reserved, res.state, key, fingerprint,
        SnapshotOf(res.response.id, res.state.requests[res.response.id]).(updatedAt := now))
    case refused => (bindings, before, ReservationRefused(refused))
  }

  function Recorded(bindings: Bindings, s: State, key: Key, fingerprint: Fingerprint, shown: Snapshot): (Bindings,
      State, Reply) {
    var (bindings', requests) := WithCompletion(bindings, s.world.db.requests, key, fingerprint, shown);
    (bindings', s.(world := WithRequests(s.world, requests)),
     if Completable(bindings, s.world.db.requests, key, fingerprint, shown) then Shown(shown) else NotCompleted)
  }

  class GateControl {
    const backend: G.GatewayEngine
    const ledger: Ledger
    const hasStore: bool

    constructor (backend: G.GatewayEngine, ledger: Ledger, hasStore: bool)
      ensures this.backend == backend && this.ledger == ledger && this.hasStore == hasStore
    {
      this.backend, this.ledger, this.hasStore := backend, ledger, hasStore;
    }

    /** The engine's state over the shared database. */
    function BackendView(): State
      reads backend, ledger.file
    {
      backend.View().(world := backend.world.(db := ledger.file.db))
    }

    ghost predicate Valid()
      reads backend, ledger.file
    {
      backend.active == {} && Ok(backend.config, BackendView(), backend.own, {})
    }

    method SyncAuthorization(s: Snapshot) returns (shown: Snapshot)
      modifies ledger.file
      ensures hasStore ==> (ledger.file.db, shown) == Synced(old(ledger.file.db), s)
      ensures !hasStore ==> (ledger.file.db, shown) == (old(ledger.file.db), s)
    {
      hide IsLatest;
      if !hasStore {
        return s;
      }
      var found: Option<string>;
      if s.authorization.Some? {
        var row := ledger.file.Get(s.authorization.value.id);
        found := if row.Some? then Some(s.authorization.value.id) else None;
      } else {
        found := ledger.file.GetForRequest(s.requestId);
        FoundIsLatest(ledger.file.db, s.requestId, found);
      }
      if found.None? {
        return s;
      }
      var row := ledger.file.db.rows[found.value];
      var repaired: Snapshot;
      if s.authorization.None? {
        repaired := row.snapshot;
      } else {
        var told :=
          match row.state
          case Issued => PublicState.Authorized
          case Executing => PublicState.Consuming
          case Unknown => PublicState.OutcomeUnknown
          case Executed => PublicState.Executed
          case Failed => PublicState.Failed
          case Simulated => PublicState.Simulated
          case Cancelled => PublicState.Cancelled
          case Expired => PublicState.Expired;
        var authorization := s.authorization.value.(status := row.state);
        if s.state == told && authorization == s.authorization.value {
          return s;
        }
        if row.receipt.Some? {
          authorization := authorization.(receipt := row.receipt);
        }
        repaired := s.(authorization := Some(authorization), state := told, consumptionPossible := row.state == Issued,
                       updatedAt := row.updatedAt);
      }
      var changed := ledger.CompareAndSwapRequest(s, repaired);
      if changed {
        return repaired;
      }
      var present := ledger.GetRequest(s.requestId);
      shown := if present.Some? then present.value else s;
    }

    method CheckAllowed(controls: Controls, principal: string, action: string) returns (allowed: bool)
      ensures allowed <==> Allowed(controls, principal, action)
    {
      if controls.pauseAll || principal in controls.revokedPrincipals {
        return false;
      }
      var k := 0;
      while k < |action| && action[k] != '.'
        invariant k <= |action| && '.' !in action[..k]
      {
        k := k + 1;
      }
      FirstPart(action, k);
      allowed := action[..k] !in controls.pausedDomains;
    }

    /** `controls` and `now` are the ledger's control table and the clock; `script` is what the
        engine's callbacks do. The key is reserved before the backend is called, and completed
        together with the request's row, or stays reserved. */
    method RequestAction(controls: Controls, args: RequestArgs, script: Env, now: int) returns (reply: Reply)
      requires Valid()
      requires Allowed(controls, args.requester, args.action)
               && Reservable(ledger.bindings, KeyFor(args), FingerprintOf(args)).Fresh? ==>
                 KeyFor(args) in backend.own && EnvWithin(script, backend.own)
      modifies backend, ledger, ledger.file
      ensures Valid()
      ensures !Allowed(controls, args.requester, args.action) ==>
                reply.NotAllowed? && ledger.bindings == old(ledger.bindings) && ledger.file.db == old(ledger.file.db)
      ensures Allowed(controls, args.requester, args.action) ==>
                (ledger.bindings, BackendView(), reply)
                  == Requested(backend.config, old(ledger.bindings), old(BackendView()), args, script, now)
    {
      hide Ok, E.RequestAction;
      var allowed := CheckAllowed(controls, args.requester, args.action);
      if !allowed {
        return NotAllowed;
      }
      var key := Key(args.requester, args.key);
      var fingerprint :=
        Fingerprint(args.action, args.parameters, args.context, args.key, args.floor, args.trustedContext);
      var r := ledger.ReserveIdempotency(key, fingerprint);
      if r.Existing? {
        var existing := ledger.GetRequest(r.id);
        return if existing.Some? then Shown(existing.value) else MissingRequest;
      }
      if !r.Fresh? {
        return ReservationRefused(r);
      }
      backend.world := backend.world.(db := ledger.file.db);
      RequestOkay(backend.config, backend.View(), backend.own, args, script);
      var response := backend.RequestAction(args, script);
      ledger.file.db := backend.world.db;
      assert BackendView() == backend.View();
      if response.Raised? || response.id !in backend.requests {
        return if response.Raised? then BackendRaised(response.error) else NotCompleted;
      }
      var s := SnapshotOf(response.id, backend.requests[response.id]).(updatedAt := now);
      var ok := ledger.CompleteReservedRequest(s, key, fingerprint);
      LedgerWriteOk(backend.config, backend.View(), backend.own, ledger.file.db.requests);
      return if ok then Shown(s) else NotCompleted;
    }

    method GetRequest(id: RequestId, principal: string, admin: bool) returns (reply: Reply)
      modifies ledger.file
      ensures ledger.file.db.rows == old(ledger.file.db.rows)
      ensures id !in old(ledger.file.db.requests) ==> reply.UnknownRequest?
      ensures id in old(ledger.file.db.requests) && !admin && id.hash.requester != principal ==> reply.NotYours?
      ensures reply.NotYours? ==> id.hash.requester != principal
      ensures id in old(ledger.file.db.requests) && (admin || id.hash.requester == principal) ==>
                var was := old(ledger.file.db);
                var seen := if hasStore then Synced(was, was.requests[id]) else (was, was.requests[id]);
                && ledger.file.db == seen.0
                && (Resolved(seen.1.state) ==> reply == Shown(seen.1))
                && (!Resolved(seen.1.state) && id in backend.requests ==>
                      reply == Shown(SnapshotOf(id, backend.requests[id]).(updatedAt := seen.1.updatedAt)))
                && (!Resolved(seen.1.state) && id !in backend.requests ==> reply == BackendRaised(NotFound))
    {
      var found := ledger.GetRequest(id);
      if found.None? {
        return UnknownRequest;
      }
      if !admin && id.hash.requester != principal {
        return NotYours;
      }
      RepairReplacesOnlyWhatItRead(ledger.file.db, ledger.file.db, ledger.file.db, found.value);
      var s := SyncAuthorization(found.value);
      if Settled(s.state) {
        return Shown(s);
      }
      if id !in backend.requests {
        return BackendRaised(NotFound);
      }
      return Shown(SnapshotOf(id, backend.requests[id]).(updatedAt := s.updatedAt));
    }
  }

  lemma FoundIsLatest(db: Db, id: RequestId, found: Option<string>)
    requires found.Some? ==> IsLatest(db, id, found.value)
    requires found.None? ==> forall a :: !RowOf(db, id, a)
    ensures found == Latest(db, id)
    ensures found.Some? ==> found.value in db.rows
  {
    if found.Some? {
      var a :| IsLatest(db, id, a) && Latest(db, id) == Some(a);
      OneLatest(db, id, a, found.value);
    }
  }

  lemma LedgerWriteOk(c: Config, s: State, own: iset<Key>, requests: map<RequestId, Snapshot>)
    requires Ok(c, s, own, {})
    ensures Ok(c, s.(world := s.world.(db := s.world.db.(requests := requests))), own, {})
  {
    hide RequestsOk, IndexOk, RowsOk, CallsOk, P.RunOk, P.OneHolder, P.DispatchOk, AcceptedPolicy;
    WriteIsHarmless(s.world.db, requests);
    P.DatabaseStep(s.world, WithRequests(s.world, requests));
  }

  /** Uninterrupted, a controller call is the three steps of the system one after another: its
      result holds in any system where this engine has the key's turn. */
  lemma ControllerCallIsThreeSteps(sys: System, n: nat, i: nat, args: RequestArgs, script: Env, now: int)
    requires i in sys.engines && n !in sys.submissions
    requires Reservable(sys.bindings, KeyFor(args), FingerprintOf(args)).Fresh?
    requires EnvWithin(script, Own(sys.engines[i]) + iset{KeyFor(args)})
    ensures var after := Execute(sys, [ReserveFor(n, i, args), CallBackend(n, script, now), CompleteRequest(n)]);
            var before := With(sys.engines[i], sys.world);
            var (bindings, view, _) := Requested(sys.engines[i].config, sys.bindings, before, args, script, now);
            i in after.engines && after.bindings == bindings && With(after.engines[i], after.world) == view
  {
    hide E.RequestAction, E.CancelRequest, E.IngestApproval, P.Apply, Entered, Returned, NestedAnswer, Abandoned,
      Swapped;
    var steps := [ReserveFor(n, i, args), CallBackend(n, script, now), CompleteRequest(n)];
    var first := Apply(sys, steps[0]);
    assert first == WithSubmission(sys, n, i, args);
    var second := Apply(first, steps[1]);
    assert second == Submitted(first, n, script, now);
    assert With(first.engines[i], first.world) == With(sys.engines[i], sys.world);
    var third := Apply(second, steps[2]);
    assert steps[1..][0] == steps[1] && steps[1..][1..] == steps[2..] && steps[2..][0] == steps[2]
      && steps[2..][1..] == [];
    assert Execute(sys, steps) == Execute(first, steps[1..]) == Execute(second, steps[2..]) == Execute(third, []);
  }

  /** The fingerprint and the key of a submission tell it from every other. */
  lemma FingerprintTellsSubmissions(a: RequestArgs, b: RequestArgs)
    ensures KeyFor(a) == KeyFor(b) && FingerprintOf(a) == FingerprintOf(b) <==> a == b
  {
  }

  /** After any run of the system, submitting a completed key again calls no backend: the same
      payload is answered with the ledger's snapshot of the request first bound to the key, any
      other payload is refused, and the answer for a missing request is never given. */
  lemma RepeatIsAnsweredFromTheLedger(steps: seq<Step>, i: nat, args: RequestArgs, script: Env, now: int)
    requires var sys := Execute(Empty(), steps);
             i in sys.engines && KeyFor(args) in sys.bindings && sys.bindings[KeyFor(args)].Bound?
               && args.requester != "" && args.key != ""
    ensures var sys := Execute(Empty(), steps);
            var before := With(sys.engines[i], sys.world);
            var bound := sys.bindings[KeyFor(args)];
            && bound.id in sys.world.db.requests && KeyOf(bound.id) == KeyFor(args)
            && Requested(sys.engines[i].config, sys.bindings, before, args, script, now)
               == (sys.bindings, before,
                   if bound.fingerprint == FingerprintOf(args) then Shown(sys.world.db.requests[bound.id])
                   else ReservationRefused(Conflict))
  {
    hide Execute;
    SubmittedOncePerKey(steps);
  }
}
