/** The controller's ledger: idempotency bindings and request snapshots. */
module Ledgers {
  import opened JsonValues
  import opened Policies
  import opened Claims
  import opened AuthorizationStore

  /** Hash of the validated payload and the host context, taken to be injective. */
  datatype Fingerprint = Fingerprint(
    action: string, parameters: map<string, Json>, context: Json, key: string, floor: Floor, hostContext: Json)

  datatype Binding = Reserved(fingerprint: Fingerprint) | Bound(fingerprint: Fingerprint, id: RequestId)

  type Bindings = map<Key, Binding>

  type Snapshots = map<RequestId, Snapshot>

  datatype Reservation = Fresh | Existing(id: RequestId) | Conflict | InProgress | Invalid

  function Reservable(bindings: Bindings, key: Key, fingerprint: Fingerprint): Reservation {
    if key.principal == "" || key.name == "" then Invalid
    else if key !in bindings then Fresh
    else if bindings[key].fingerprint != fingerprint then Conflict
    else if bindings[key].Reserved? then InProgress
    else Existing(bindings[key].id)
  }

  function WithReservation(bindings: Bindings, key: Key, fingerprint: Fingerprint): Bindings {
    if Reservable(bindings, key, fingerprint).Fresh? then bindings[key := Reserved(fingerprint)] else bindings
  }

  /** `complete_reserved_request` commits both rows or neither; a request id already in the
      table is a primary-key violation. */
  predicate Completable(bindings: Bindings, requests: Snapshots, key: Key, fingerprint: Fingerprint, s: Snapshot) {
    key in bindings && bindings[key] == Reserved(fingerprint) && s.requestId !in requests
  }

  function WithCompletion(bindings: Bindings, requests: Snapshots, key: Key, fingerprint: Fingerprint,
      s: Snapshot): (Bindings, Snapshots) {
    if Completable(bindings, requests, key, fingerprint, s)
    then (bindings[key := Bound(fingerprint, s.requestId)], requests[s.requestId := s])
    else (bindings, requests)
  }

  predicate Swappable(requests: Snapshots, expected: Snapshot, replacement: Snapshot) {
    && expected.requestId == replacement.requestId
    && expected.requestId in requests && requests[expected.requestId] == expected
  }

  function Swapped(requests: Snapshots, expected: Snapshot, replacement: Snapshot): Snapshots {
    if Swappable(requests, expected, replacement) then requests[expected.requestId := replacement] else requests
  }

  /** States `expire_unresolved` leaves alone. */
  predicate Resolved(state: PublicState) { !state.Processing? && !state.WaitingForApproval? }

  /** The same states by name. */
  predicate Settled(state: PublicState) {
    || state.Blocked? || state.Cancelled? || state.Simulated? || state.Executed? || state.Failed? || state.Expired?
    || state.Denied? || state.Authorized? || state.Consuming? || state.OutcomeUnknown?
  }

  lemma SettledIffResolved(state: PublicState)
    ensures Settled(state) <==> Resolved(state)
  {
  }

  function ExpireRow(s: Snapshot, now: int): Snapshot {
    if Resolved(s.state) then s else s.(state := PublicState.Expired, updatedAt := now)
  }

  // ---- What every call keeps -----------------------------------------------------------

  datatype LedgerCall =
    | ReserveKey(key: Key, fingerprint: Fingerprint)
    | CompleteKey(key: Key, fingerprint: Fingerprint, snapshot: Snapshot)
    | SwapRow(expected: Snapshot, replacement: Snapshot)
    | WriteRow(snapshot: Snapshot)

  datatype Tables = Tables(bindings: Bindings, requests: Snapshots)

  function Enact(t: Tables, call: LedgerCall): Tables {
    match call
    case ReserveKey(key, fingerprint) => t.(bindings := WithReservation(t.bindings, key, fingerprint))
    case CompleteKey(key, fingerprint, s) =>
      var (bindings, requests) := WithCompletion(t.bindings, t.requests, key, fingerprint, s);
      Tables(bindings, requests)
    case SwapRow(expected, replacement) => t.(requests := Swapped(t.requests, expected, replacement))
    case WriteRow(s) => t.(requests := t.requests[s.requestId := s])
  }

  function EnactAll(t: Tables, calls: seq<LedgerCall>): Tables
    decreases |calls|
  {
    if calls == [] then t else EnactAll(Enact(t, calls[0]), calls[1..])
  }

  /** absent, reserved, complete: a binding only moves forward, on one fingerprint, and once
      complete keeps its request. */
  ghost predicate BindingsAdvance(before: Bindings, after: Bindings) {
    forall k | k in before ::
      && k in after && after[k].fingerprint == before[k].fingerprint
      && (before[k].Bound? ==> after[k] == before[k])
  }

  /** A complete binding has its request's row. */
  ghost predicate BoundRowsExist(t: Tables) {
    forall k | k in t.bindings && t.bindings[k].Bound? :: t.bindings[k].id in t.requests
  }

  lemma {:induction false} LedgerRuns(t: Tables, calls: seq<LedgerCall>)
    requires BoundRowsExist(t)
    ensures var u := EnactAll(t, calls);
            && BoundRowsExist(u) && BindingsAdvance(t.bindings, u.bindings)
            && (forall id | id in t.requests :: id in u.requests)
    decreases |calls|
  {
    if calls != [] {
      LedgerRuns(Enact(t, calls[0]), calls[1..]);
    }
  }

  /** Whatever any controllers did with the ledger, a repeated request is answered with the
      request first bound to its key, and that row is there: the branch for a binding to a
      missing request cannot be reached, and a key never becomes free again. */
  lemma RepeatFindsTheFirstRequest(calls: seq<LedgerCall>, key: Key, fingerprint: Fingerprint, s: Snapshot,
      more: seq<LedgerCall>)
    requires var t := EnactAll(Tables(map[], map[]), calls); Completable(t.bindings, t.requests, key, fingerprint, s)
    requires key.principal != "" && key.name != ""
    ensures var t := EnactAll(Tables(map[], map[]), calls);
            var u := EnactAll(Enact(t, CompleteKey(key, fingerprint, s)), more);
            && Reservable(u.bindings, key, fingerprint) == Existing(s.requestId)
            && s.requestId in u.requests
            && forall other | other != fingerprint :: Reservable(u.bindings, key, other) == Conflict
  {
    var empty := Tables(map[], map[]);
    LedgerRuns(empty, calls);
    var t := EnactAll(empty, calls);
    LedgerRuns(t, [CompleteKey(key, fingerprint, s)]);
    assert EnactAll(t, [CompleteKey(key, fingerprint, s)]) == Enact(t, CompleteKey(key, fingerprint, s)) by {
      assert [CompleteKey(key, fingerprint, s)][1..] == [];
    }
    LedgerRuns(Enact(t, CompleteKey(key, fingerprint, s)), more);
  }

  // ---- The ledger itself -----------------------------------------------------------------

  /** Its request table lives in the file the authorization store also opens. */
  class Ledger {
    const file: SQLiteAuthorizationStore
    var bindings: Bindings

    constructor (file: SQLiteAuthorizationStore)
      ensures this.file == file && bindings == map[]
    {
      this.file, bindings := file, map[];
    }

    method ReserveIdempotency(key: Key, fingerprint: Fingerprint) returns (r: Reservation)
      modifies this
      ensures r == Reservable(old(bindings), key, fingerprint)
      ensures Tables(bindings, file.db.requests)
              == Enact(Tables(old(bindings), old(file.db.requests)), ReserveKey(key, fingerprint))
    {
      if key.principal == "" || key.name == "" {
        return Invalid;
      }
      if key in bindings {
        if bindings[key].fingerprint != fingerprint {
          return Conflict;
        }
        if bindings[key].Reserved? {
          return InProgress;
        }
        return Existing(bindings[key].id);
      }
      bindings := bindings[key := Reserved(fingerprint)];
      r := Fresh;
    }

    method CompleteReservedRequest(s: Snapshot, key: Key, fingerprint: Fingerprint) returns (ok: bool)
      modifies this, file
      ensures ok == Completable(old(bindings), old(file.db.requests), key, fingerprint, s)
      ensures Tables(bindings, file.db.requests)
              == Enact(Tables(old(bindings), old(file.db.requests)), CompleteKey(key, fingerprint, s))
      ensures file.db.rows == old(file.db.rows)
    {
      if key !in bindings || bindings[key].fingerprint != fingerprint || !bindings[key].Reserved?
         || s.requestId in file.db.requests {
        return false;
      }
      file.db := file.db.(requests := file.db.requests[s.requestId := s]);
      bindings := bindings[key := Bound(fingerprint, s.requestId)];
      ok := true;
    }

    method GetRequest(id: RequestId) returns (s: Option<Snapshot>)
      ensures s == if id in file.db.requests then Some(file.db.requests[id]) else None
    {
      s := if id in file.db.requests then Some(file.db.requests[id]) else None;
    }

    method RecordRequest(s: Snapshot)
      modifies file
      ensures var tables := Enact(Tables(bindings, old(file.db.requests)), WriteRow(s));
              file.db == old(file.db).(requests := tables.requests) && tables.bindings == bindings
    {
      file.db := file.db.(requests := file.db.requests[s.requestId := s]);
    }

    method CompareAndSwapRequest(expected: Snapshot, replacement: Snapshot) returns (changed: bool)
      modifies file
      ensures changed == Swappable(old(file.db.requests), expected, replacement)
      ensures var tables := Enact(Tables(bindings, old(file.db.requests)), SwapRow(expected, replacement));
              file.db == old(file.db).(requests := tables.requests) && tables.bindings == bindings
    {
      changed := expected.requestId == replacement.requestId && expected.requestId in file.db.requests
                 && file.db.requests[expected.requestId] == expected;
      if changed {
        file.db := file.db.(requests := file.db.requests[expected.requestId := replacement]);
      }
    }

    /** On restart: every unresolved request becomes expired, nothing else changes, and the
        count is the number of requests changed. */
    method ExpireUnresolved(now: int) returns (count: nat)
      requires forall id | id in file.db.requests :: file.db.requests[id].requestId == id
      modifies file
      ensures file.db.rows == old(file.db.rows) && file.db.requests.Keys == old(file.db.requests).Keys
      ensures forall id | id in old(file.db.requests) ::
                file.db.requests[id] == ExpireRow(old(file.db.requests)[id], now)
      ensures count == |set id | id in old(file.db.requests) && !Resolved(old(file.db.requests)[id].state)|
    {
      hide Settled, Resolved;
      ghost var start := file.db.requests;
      ghost var expired: set<RequestId> := {};
      count := 0;
      var todo := file.db.requests.Keys;
      while todo != {}
        invariant todo <= start.Keys && file.db.rows == old(file.db.rows) && file.db.requests.Keys == start.Keys
        invariant forall id | id in start ::
                    file.db.requests[id] == if id in todo then start[id] else ExpireRow(start[id], now)
        invariant expired == set id | id in start && id !in todo && !Resolved(start[id].state)
        invariant count == |expired|
        decreases todo
      {
        var id :| id in todo;
        var request := file.db.requests[id];
        todo := todo - {id};
        SettledIffResolved(request.state);
        if !Settled(request.state) {
          RecordRequest(request.(state := PublicState.Expired, updatedAt := now));
          expired := expired + {id};
          count := count + 1;
        }
      }
      assert expired == set id | id in start && !Resolved(start[id].state);
    }
  }
}
