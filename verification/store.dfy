/** The durable authorization table and its lifecycle.

    Functions give the effect of one store call on the database; the class below performs
    the calls. `requests` is the ledger's request table when both share a file, and empty
    otherwise. */
module AuthorizationStore {
  import opened JsonValues
  import opened Claims

  datatype RowState = Issued | Executing | Executed | Failed | Simulated | Unknown | Cancelled | Expired

  function Public(state: RowState): PublicState {
    match state
    case Issued => PublicState.Authorized
    case Executing => PublicState.Consuming
    case Executed => PublicState.Executed
    case Failed => PublicState.Failed
    case Simulated => PublicState.Simulated
    case Unknown => PublicState.OutcomeUnknown
    case Cancelled => PublicState.Cancelled
    case Expired => PublicState.Expired
  }

  datatype Receipt =
    | Completion(info: Json)
    | Interrupted(actor: string)
    | Revocation(actor: string)
    | Reconciliation(actor: string, outcome: RowState, info: Json)

  /** The `authorization` member of a request snapshot. */
  datatype AuthorizationView = AuthorizationView(id: string, status: RowState, receipt: Option<Receipt>)

  /** A request snapshot; `detail` is everything the store copies without reading. */
  datatype Snapshot = Snapshot(
    requestId: RequestId,
    state: PublicState,
    authorization: Option<AuthorizationView>,
    consumptionPossible: bool,
    updatedAt: int,
    detail: Json)

  datatype Row = Row(
    requestId: RequestId,
    state: RowState,
    updatedAt: int,
    token: Token,
    consumer: Option<string>,
    receipt: Option<Receipt>,
    snapshot: Snapshot)

  datatype Db = Db(rows: map<string, Row>, requests: map<RequestId, Snapshot>)

  /** What one store call leaves behind; a refused call may have committed an expiry. */
  datatype Outcome = Stored(db: Db) | Refused(db: Db)

  predicate Names(s: Snapshot, id: string) {
    s.authorization.Some? && s.authorization.value.id == id
  }

  /** The snapshot a projection starts from. */
  function Base(db: Db, id: string): Snapshot
    requires id in db.rows
  {
    var row := db.rows[id];
    if row.requestId in db.requests then db.requests[row.requestId] else row.snapshot
  }

  function Show(s: Snapshot, state: RowState, receipt: Option<Receipt>, now: int): Snapshot
    requires s.authorization.Some?
  {
    var view := s.authorization.value;
    s.(authorization := Some(view.(status := state, receipt := if receipt.Some? then receipt else view.receipt)),
       state := Public(state),
       consumptionPossible := state.Issued?,
       updatedAt := now)
  }

  /** `_project_request_locked`. */
  function Projected(db: Db, id: string, state: RowState, receipt: Option<Receipt>, now: int): Db
    requires id in db.rows
  {
    var base := Base(db, id);
    if !Names(base, id) then db
    else
      var shown := Show(base, state, receipt, now);
      var row := db.rows[id];
      Db(db.rows[id := row.(snapshot := shown)],
         if row.requestId in db.requests then db.requests[row.requestId := shown] else db.requests)
  }

  /** `UPDATE ... SET state=to WHERE authorization_id=id AND state=from`; a receipt of `None`
      leaves the column alone. */
  function Move(db: Db, id: string, from: RowState, to: RowState, receipt: Option<Receipt>, now: int): Option<Db> {
    if id in db.rows && db.rows[id].state == from then
      var row := db.rows[id];
      Some(db.(rows := db.rows[id := row.(state := to, updatedAt := now,
                                          receipt := if receipt.Some? then receipt else row.receipt)]))
    else None
  }

  function MoveAndProject(db: Db, id: string, from: RowState, to: RowState, receipt: Option<Receipt>,
      now: int): Outcome {
    match Move(db, id, from, to, receipt, now)
    case None => Refused(db)
    case Some(moved) => Stored(Projected(moved, id, to, receipt, now))
  }

  predicate SnapshotFits(token: Token, s: Snapshot) {
    s.requestId == token.claims.requestId && s.state.Authorized? && Names(s, token.claims.authorizationId)
  }

  function SnapshotOfToken(token: Token): Snapshot {
    var c := token.claims;
    Snapshot(c.requestId, Authorized, Some(AuthorizationView(c.authorizationId, Issued, None)), true, c.issuedAt,
      Obj(c.parameters))
  }

  function Recorded(db: Db, token: Token, s: Snapshot): Outcome {
    var c := token.claims;
    var id := c.authorizationId;
    if !SnapshotFits(token, s) then Refused(db)
    else if id in db.rows then
      var row := db.rows[id];
      if row.token != token then Refused(db)
      else Stored(Projected(db, id, row.state, row.receipt, row.updatedAt))
    else
      var row := Row(c.requestId, Issued, c.issuedAt, token, None, None, s);
      var requests := if c.requestId in db.requests then db.requests[c.requestId := s] else db.requests;
      Stored(Projected(Db(db.rows[id := row], requests), id, Issued, None, c.issuedAt))
  }

  function Begun(db: Db, id: string, consumer: string, now: int): Outcome {
    if consumer == "" || id !in db.rows || !db.rows[id].state.Issued? then Refused(db)
    else if now >= db.rows[id].token.claims.expiresAt then
      Refused(MoveAndProject(db, id, Issued, RowState.Expired, None, now).db)
    else
      var row := db.rows[id];
      var begun := db.(rows := db.rows[id := row.(state := Executing, consumer := Some(consumer), updatedAt := now)]);
      Stored(Projected(begun, id, Executing, None, now))
  }

  function Completed(db: Db, id: string, outcome: RowState, info: Json, now: int): Outcome {
    if !(outcome.Executed? || outcome.Failed? || outcome.Simulated?) then Refused(db)
    else MoveAndProject(db, id, Executing, outcome, Some(Completion(info)), now)
  }

  function Withdrawn(db: Db, id: string, now: int): Outcome {
    if id in db.rows && db.rows[id].state.Cancelled? then Stored(Projected(db, id, RowState.Cancelled, None, now))
    else MoveAndProject(db, id, Issued, RowState.Cancelled, None, now)
  }

  function Recovered(db: Db, id: string, actor: string, now: int): Outcome {
    if actor == "" then Refused(db)
    else MoveAndProject(db, id, Executing, Unknown, Some(Interrupted(actor)), now)
  }

  function MarkedUnknown(db: Db, id: string, info: Json, now: int): Outcome {
    MoveAndProject(db, id, Executing, Unknown, Some(Completion(info)), now)
  }

  function Reconciled(db: Db, id: string, outcome: RowState, actor: string, info: Json, now: int): Outcome {
    if !(outcome.Executed? || outcome.Failed?) || actor == "" then Refused(db)
    else MoveAndProject(db, id, Unknown, outcome, Some(Reconciliation(actor, outcome, info)), now)
  }

  // ---- Lifecycle ---------------------------------------------------------------------

  predicate Edge(from: RowState, to: RowState) {
    match from
    case Issued => to.Executing? || to.Cancelled? || to.Expired?
    case Executing => to.Executed? || to.Failed? || to.Simulated? || to.Unknown?
    case Unknown => to.Executed? || to.Failed?
    case _ => false
  }

  /** One row across one call: at most one edge, what is signed fixed, the consumer written once. */
  predicate RowStep(before: Row, after: Row) {
    && after.requestId == before.requestId && after.token == before.token
    && (after.state == before.state || Edge(before.state, after.state))
    && (after.state == before.state ==> after.receipt == before.receipt)
    && (before.consumer.Some? ==> after.consumer == before.consumer)
    && (after.consumer != before.consumer ==> before.state.Issued? && after.state.Executing?)
  }

  ghost predicate Lifecycle(before: Db, after: Db) {
    && (forall id | id in before.rows :: id in after.rows && RowStep(before.rows[id], after.rows[id]))
    && (forall id | id in after.rows && id !in before.rows ::
          after.rows[id].state.Issued? && after.rows[id].consumer.None?)
  }

  /** A row is claimed only by leaving `issued`. */
  ghost predicate IssuedUnclaimed(db: Db) {
    forall id | id in db.rows && db.rows[id].state.Issued? :: db.rows[id].consumer.None?
  }

  datatype StoreCall =
    | DoRecord(token: Token, snapshot: Snapshot)
    | DoBegin(id: string, consumer: string, now: int)
    | DoComplete(id: string, outcome: RowState, info: Json, now: int)
    | DoCancel(id: string, now: int)
    | DoRecover(id: string, actor: string, now: int)
    | DoMarkUnknown(id: string, info: Json, now: int)
    | DoReconcile(id: string, outcome: RowState, actor: string, info: Json, now: int)
    | DoRevokeAll(ids: seq<string>, actor: string, now: int)

  function Perform(db: Db, call: StoreCall): Outcome {
    match call
    case DoRecord(token, s) => Recorded(db, token, s)
    case DoBegin(id, consumer, now) => Begun(db, id, consumer, now)
    case DoComplete(id, outcome, info, now) => Completed(db, id, outcome, info, now)
    case DoCancel(id, now) => Withdrawn(db, id, now)
    case DoRecover(id, actor, now) => Recovered(db, id, actor, now)
    case DoMarkUnknown(id, info, now) => MarkedUnknown(db, id, info, now)
    case DoReconcile(id, outcome, actor, info, now) => Reconciled(db, id, outcome, actor, info, now)
    case DoRevokeAll(ids, actor, now) =>
      if actor == "" then Refused(db) else Stored(RevokedFirst(db, ids, |ids|, actor, now))
  }

  function AfterStoreCalls(db: Db, calls: seq<StoreCall>): Db
    decreases |calls|
  {
    if calls == [] then db else AfterStoreCalls(Perform(db, calls[0]).db, calls[1..])
  }

  /** Every store call moves every row along the lifecycle only. */
  lemma CallsFollowLifecycle(db: Db, call: StoreCall)
    requires IssuedUnclaimed(db)
    ensures Lifecycle(db, Perform(db, call).db) && IssuedUnclaimed(Perform(db, call).db)
  {
    hide Lifecycle, IssuedUnclaimed, Recorded, MoveAndProject;
    NothingFollowsLifecycle(db);
    match call
    case DoComplete(id, outcome, info, now) =>
      if outcome.Executed? || outcome.Failed? || outcome.Simulated? {
        MoveFollowsLifecycle(db, id, Executing, outcome, Some(Completion(info)), now);
      }
    case DoCancel(id, now) => MoveFollowsLifecycle(db, id, Issued, RowState.Cancelled, None, now);
    case DoRecover(id, actor, now) => MoveFollowsLifecycle(db, id, Executing, Unknown, Some(Interrupted(actor)), now);
    case DoMarkUnknown(id, info, now) => MoveFollowsLifecycle(db, id, Executing, Unknown, Some(Completion(info)), now);
    case DoReconcile(id, outcome, actor, info, now) =>
      if outcome.Executed? || outcome.Failed? {
        MoveFollowsLifecycle(db, id, Unknown, outcome, Some(Reconciliation(actor, outcome, info)), now);
      }
    case DoBegin(id, consumer, now) =>
      MoveFollowsLifecycle(db, id, Issued, RowState.Expired, None, now);
      if Begun(db, id, consumer, now).Stored? {
        BeginFollowsLifecycle(db, id, consumer, now);
      }
    case DoRecord(token, snapshot) => RecordFollowsLifecycle(db, token, snapshot);
    case DoRevokeAll(ids, actor, now) => RevocationFollowsLifecycle(db, ids, actor, now);
  }

  lemma {:induction false} RevocationTouches(db: Db, ids: seq<string>, k: nat, actor: string, now: int, id: string)
    requires k <= |ids|
    ensures var after := RevokedFirst(db, ids, k, actor, now);
            && after.rows.Keys == db.rows.Keys && after.requests.Keys == db.requests.Keys
            && (id in db.rows ==>
                  var before, row := db.rows[id], after.rows[id];
                  && row.requestId == before.requestId && row.token == before.token && row.consumer == before.consumer
                  && ((row.state == before.state && row.receipt == before.receipt)
                       || (before.state.Issued? && row.state.Cancelled?)))
  {
    hide MoveAndProject;
    if k > 0 {
      RevocationTouches(db, ids, k - 1, actor, now, id);
      CancellationTouches(RevokedFirst(db, ids, k - 1, actor, now), ids[k - 1], actor, now);
    }
  }

  lemma CancellationTouches(db: Db, x: string, actor: string, now: int)
    ensures var after := MoveAndProject(db, x, Issued, RowState.Cancelled, Some(Revocation(actor)), now).db;
            && after.rows.Keys == db.rows.Keys && after.requests.Keys == db.requests.Keys
            && (forall id | id in db.rows && id != x :: after.rows[id] == db.rows[id])
            && (x in db.rows ==>
                  && after.rows[x].requestId == db.rows[x].requestId && after.rows[x].token == db.rows[x].token
                  && after.rows[x].consumer == db.rows[x].consumer
                  && (after.rows[x] == db.rows[x] || (db.rows[x].state.Issued? && after.rows[x].state.Cancelled?)))
  {
  }

  lemma RevocationFollowsLifecycle(db: Db, ids: seq<string>, actor: string, now: int)
    requires IssuedUnclaimed(db)
    ensures var after := RevokedFirst(db, ids, |ids|, actor, now); Lifecycle(db, after) && IssuedUnclaimed(after)
  {
    var after := RevokedFirst(db, ids, |ids|, actor, now);
    RevocationTouches(db, ids, |ids|, actor, now, "");
    forall id | id in db.rows
      ensures RowStep(db.rows[id], after.rows[id]) && (after.rows[id].state.Issued? ==> after.rows[id].consumer.None?)
    {
      RevocationTouches(db, ids, |ids|, actor, now, id);
    }
  }

  lemma NothingFollowsLifecycle(db: Db)
    ensures Lifecycle(db, db)
    ensures forall id, state, receipt, now :: id in db.rows ==> Lifecycle(db, Projected(db, id, state, receipt, now))
    ensures IssuedUnclaimed(db) ==>
              forall id, state, receipt, now ::
                id in db.rows ==> IssuedUnclaimed(Projected(db, id, state, receipt, now))
  {
  }

  lemma RecordFollowsLifecycle(db: Db, token: Token, snapshot: Snapshot)
    requires IssuedUnclaimed(db)
    ensures Lifecycle(db, Recorded(db, token, snapshot).db) && IssuedUnclaimed(Recorded(db, token, snapshot).db)
  {
  }

  lemma BeginFollowsLifecycle(db: Db, id: string, consumer: string, now: int)
    requires IssuedUnclaimed(db) && Begun(db, id, consumer, now).Stored?
    ensures Lifecycle(db, Begun(db, id, consumer, now).db) && IssuedUnclaimed(Begun(db, id, consumer, now).db)
  {
  }

  lemma MoveFollowsLifecycle(db: Db, id: string, from: RowState, to: RowState, receipt: Option<Receipt>, now: int)
    requires Edge(from, to) && IssuedUnclaimed(db)
    ensures var after := MoveAndProject(db, id, from, to, receipt, now).db;
            Lifecycle(db, after) && IssuedUnclaimed(after)
  {
    hide Edge, RowStep;
    var after := MoveAndProject(db, id, from, to, receipt, now).db;
    forall x | x in db.rows
      ensures RowStep(db.rows[x], after.rows[x]) && (after.rows[x].state.Issued? ==> after.rows[x].consumer.None?)
    {
      MovedRow(db, id, from, to, receipt, now, x);
    }
  }

  lemma MovedRow(db: Db, id: string, from: RowState, to: RowState, receipt: Option<Receipt>, now: int, x: string)
    requires Edge(from, to) && IssuedUnclaimed(db) && x in db.rows
    ensures var after := MoveAndProject(db, id, from, to, receipt, now).db;
            && x in after.rows && RowStep(db.rows[x], after.rows[x])
            && (after.rows[x].state.Issued? ==> after.rows[x].consumer.None?)
  {
    hide Show, Names, Base;
  }

  // ---- What a snapshot shows ----------------------------------------------------------

  /** What a reader of the request is told, row state by row state. */
  predicate ReadsAs(told: PublicState, state: RowState) {
    && (told.Authorized? <==> state.Issued?)
    && (told.Consuming? <==> state.Executing?)
    && (told.Executed? <==> state.Executed?)
    && (told.Failed? <==> state.Failed?)
    && (told.Simulated? <==> state.Simulated?)
    && (told.OutcomeUnknown? <==> state.Unknown?)
    && (told.Cancelled? <==> state.Cancelled?)
    && (told.Expired? <==> state.Expired?)
  }

  predicate Shows(s: Snapshot, id: string, state: RowState) {
    && Names(s, id) && s.authorization.value.status == state
    && ReadsAs(s.state, state) && s.consumptionPossible == state.Issued?
  }

  /** The table of public states is the only one of that meaning. */
  lemma PublicReadsAs(state: RowState)
    ensures ReadsAs(Public(state), state)
    ensures forall told | ReadsAs(told, state) :: told == Public(state)
  {
  }

  /** The snapshot a projection would rewrite, the ledger's or the retained one, names `id`. */
  predicate Named(db: Db, id: string)
    requires id in db.rows
  {
    Names(Base(db, id), id)
  }

  /** The retained snapshot names its row and, while projections reach it, shows the row's
      state; or the state is what the last projection still to come will show. */
  predicate Kept(db: Db, id: string, pending: Option<RowState>)
    requires id in db.rows
  {
    var row := db.rows[id];
    && Names(row.snapshot, id)
    && (Named(db, id) ==> if pending.Some? then pending.value == row.state else Shows(row.snapshot, id, row.state))
  }

  /** Every retained snapshot that projections reach shows its row's state. */
  ghost predicate CurrentWhereNamed(db: Db) {
    forall id | id in db.rows :: Kept(db, id, None)
  }

  /** Wherever the shared ledger holds the request, it names this authorization. */
  ghost predicate LedgerNames(db: Db) {
    forall id | id in db.rows && db.rows[id].requestId in db.requests :: Names(db.requests[db.rows[id].requestId], id)
  }

  /** Every retained snapshot shows its row's state. */
  ghost predicate SnapshotsCurrent(db: Db) {
    forall id | id in db.rows :: Shows(db.rows[id].snapshot, id, db.rows[id].state)
  }

  /** The other rows are as they were, and no projection reaches one that none reached before. */
  ghost predicate OthersKept(before: Db, after: Db, id: string) {
    forall x | x in before.rows && x != id ::
      x in after.rows && after.rows[x] == before.rows[x] && (Named(after, x) ==> Named(before, x))
  }

  lemma ProjectionShows(db: Db, id: string, state: RowState, receipt: Option<Receipt>, now: int)
    requires id in db.rows
    ensures var after := Projected(db, id, state, receipt, now);
            && after.rows.Keys == db.rows.Keys && after.requests.Keys == db.requests.Keys && OthersKept(db, after, id)
            && after.rows[id] == db.rows[id].(snapshot := after.rows[id].snapshot)
            && (Named(after, id) <==> Named(db, id))
            && (Named(db, id) ==> Shows(after.rows[id].snapshot, id, state))
            && (!Named(db, id) ==> after == db)
  {
    hide ReadsAs, Public;
    PublicReadsAs(state);
  }

  /** Rewriting one row's columns and then projecting its state: that row is current, unless no
      projection reaches it. */
  lemma ChangeThenProject(db: Db, id: string, row: Row, receipt: Option<Receipt>, now: int)
    requires id in db.rows && Names(db.rows[id].snapshot, id)
    requires row.requestId == db.rows[id].requestId && row.snapshot == db.rows[id].snapshot
    ensures var after := Projected(db.(rows := db.rows[id := row]), id, row.state, receipt, now);
            && after.rows.Keys == db.rows.Keys && OthersKept(db, after, id)
            && after.rows[id].state == row.state && Kept(after, id, None)
            && (Named(after, id) ==> Named(db, id))
  {
    var changed := db.(rows := db.rows[id := row]);
    assert Base(changed, id) == Base(db, id);
    ProjectionShows(changed, id, row.state, receipt, now);
  }

  lemma MoveThenProject(db: Db, id: string, from: RowState, to: RowState, receipt: Option<Receipt>, now: int)
    requires id in db.rows ==> Names(db.rows[id].snapshot, id)
    ensures var after := MoveAndProject(db, id, from, to, receipt, now).db;
            && after.rows.Keys == db.rows.Keys
            && (after != db ==>
                  && id in db.rows && db.rows[id].state == from && OthersKept(db, after, id)
                  && after.rows[id].state == to && Kept(after, id, None) && (Named(after, id) ==> Named(db, id)))
  {
    hide Projected, Kept, OthersKept, Named, Names;
    if id in db.rows && db.rows[id].state == from {
      var row := db.rows[id];
      var changed := row.(state := to, updatedAt := now, receipt := if receipt.Some? then receipt else row.receipt);
      ChangeThenProject(db, id, changed, receipt, now);
    }
  }

  /** A row appears whose snapshot names it, and takes over a shared ledger row. */
  lemma RecordThenProject(db: Db, token: Token, s: Snapshot)
    requires SnapshotFits(token, s) && token.claims.authorizationId !in db.rows
    ensures var id := token.claims.authorizationId;
            var after := Recorded(db, token, s).db;
            && after.rows.Keys == db.rows.Keys + {id} && OthersKept(db, after, id)
            && after.rows[id].state.Issued? && Kept(after, id, None) && Named(after, id)
  {
    hide Projected;
    var c := token.claims;
    var id := c.authorizationId;
    var requests := if c.requestId in db.requests then db.requests[c.requestId := s] else db.requests;
    var inserted := Db(db.rows[id := Row(c.requestId, Issued, c.issuedAt, token, None, None, s)], requests);
    ProjectionShows(inserted, id, Issued, None, c.issuedAt);
    assert OthersKept(db, inserted, id);
  }

  /** One connection, one call, bulk revocation and a replayed `record_issued` included: every
      retained snapshot that projections reach still shows its row. */
  lemma OneConnectionKeepsSnapshotsCurrent(db: Db, call: StoreCall)
    requires CurrentWhereNamed(db)
    ensures CurrentWhereNamed(Perform(db, call).db)
  {
    hide MoveAndProject, Projected, Kept, OthersKept;
    NamesKept(db);
    match call
    case DoRecord(token, s) => RecordKeepsCurrent(db, token, s);
    case DoBegin(id, consumer, now) => BeginKeepsCurrent(db, id, consumer, now);
    case DoComplete(id, outcome, info, now) =>
      MoveKeepsCurrent(db, id, Executing, outcome, Some(Completion(info)), now);
    case DoCancel(id, now) =>
      if id in db.rows && db.rows[id].state.Cancelled? {
        ReplayKeepsCurrent(db, id, None, now);
      } else {
        MoveKeepsCurrent(db, id, Issued, RowState.Cancelled, None, now);
      }
    case DoRecover(id, actor, now) => MoveKeepsCurrent(db, id, Executing, Unknown, Some(Interrupted(actor)), now);
    case DoMarkUnknown(id, info, now) => MoveKeepsCurrent(db, id, Executing, Unknown, Some(Completion(info)), now);
    case DoReconcile(id, outcome, actor, info, now) =>
      MoveKeepsCurrent(db, id, Unknown, outcome, Some(Reconciliation(actor, outcome, info)), now);
    case DoRevokeAll(ids, actor, now) => RevocationKeepsCurrent(db, ids, |ids|, actor, now);
  }

  lemma NamesKept(db: Db)
    requires CurrentWhereNamed(db)
    ensures forall id | id in db.rows :: Names(db.rows[id].snapshot, id)
  {
    forall id | id in db.rows ensures Names(db.rows[id].snapshot, id) { assert Kept(db, id, None); }
  }

  /** One row changed and is current; the others are as they were. */
  lemma OneRowKeepsCurrent(db: Db, after: Db, id: string)
    requires CurrentWhereNamed(db) && OthersKept(db, after, id) && after.rows.Keys <= db.rows.Keys + {id}
    requires id in after.rows ==> Kept(after, id, None)
    ensures CurrentWhereNamed(after)
  {
    forall x | x in after.rows ensures Kept(after, x, None) {
      if x != id { assert Kept(db, x, None); }
    }
  }

  lemma MoveKeepsCurrent(db: Db, id: string, from: RowState, to: RowState, receipt: Option<Receipt>, now: int)
    requires CurrentWhereNamed(db)
    ensures CurrentWhereNamed(MoveAndProject(db, id, from, to, receipt, now).db)
  {
    hide MoveAndProject, Kept, OthersKept;
    NamesKept(db);
    MoveThenProject(db, id, from, to, receipt, now);
    var after := MoveAndProject(db, id, from, to, receipt, now).db;
    if after != db {
      OneRowKeepsCurrent(db, after, id);
    }
  }

  lemma ReplayKeepsCurrent(db: Db, id: string, receipt: Option<Receipt>, now: int)
    requires CurrentWhereNamed(db) && id in db.rows
    ensures CurrentWhereNamed(Projected(db, id, db.rows[id].state, receipt, now))
  {
    hide Projected, Kept, OthersKept;
    NamesKept(db);
    ChangeThenProject(db, id, db.rows[id], receipt, now);
    assert db.(rows := db.rows[id := db.rows[id]]) == db;
    OneRowKeepsCurrent(db, Projected(db, id, db.rows[id].state, receipt, now), id);
  }

  lemma BeginKeepsCurrent(db: Db, id: string, consumer: string, now: int)
    requires CurrentWhereNamed(db)
    ensures CurrentWhereNamed(Begun(db, id, consumer, now).db)
  {
    hide Projected, MoveAndProject, Kept, OthersKept;
    NamesKept(db);
    var after := Begun(db, id, consumer, now).db;
    if Begun(db, id, consumer, now).Stored? {
      var row := db.rows[id].(state := Executing, consumer := Some(consumer), updatedAt := now);
      ChangeThenProject(db, id, row, None, now);
      OneRowKeepsCurrent(db, after, id);
    } else {
      MoveKeepsCurrent(db, id, Issued, RowState.Expired, None, now);
    }
  }

  lemma RecordKeepsCurrent(db: Db, token: Token, s: Snapshot)
    requires CurrentWhereNamed(db)
    ensures CurrentWhereNamed(Recorded(db, token, s).db)
  {
    hide Projected, Kept, OthersKept;
    var id := token.claims.authorizationId;
    if SnapshotFits(token, s) {
      if id !in db.rows {
        RecordThenProject(db, token, s);
        OneRowKeepsCurrent(db, Recorded(db, token, s).db, id);
      } else {
        ReplayKeepsCurrent(db, id, db.rows[id].receipt, db.rows[id].updatedAt);
      }
    }
  }

  lemma {:induction false} RevocationKeepsCurrent(db: Db, ids: seq<string>, k: nat, actor: string, now: int)
    requires k <= |ids| && CurrentWhereNamed(db)
    ensures CurrentWhereNamed(RevokedFirst(db, ids, k, actor, now))
  {
    hide CurrentWhereNamed, MoveAndProject;
    if k > 0 {
      RevocationKeepsCurrent(db, ids, k - 1, actor, now);
      MoveKeepsCurrent(RevokedFirst(db, ids, k - 1, actor, now), ids[k - 1], Issued, RowState.Cancelled,
        Some(Revocation(actor)), now);
    }
  }

  // ---- When the ledger names every authorization ---------------------------------------

  /** A shared ledger row is handed to a new authorization only if it is the request's first. */
  predicate FirstForRequest(db: Db, call: StoreCall) {
    call.DoRecord? && call.token.claims.requestId in db.requests ==>
      forall id | id in db.rows ::
        db.rows[id].requestId == call.token.claims.requestId ==> id == call.token.claims.authorizationId
  }

  /** Then projections reach every row. */
  lemma NamedThenCurrent(db: Db)
    requires CurrentWhereNamed(db) && LedgerNames(db)
    ensures SnapshotsCurrent(db)
  {
    forall id | id in db.rows ensures Shows(db.rows[id].snapshot, id, db.rows[id].state) {
      assert Kept(db, id, None);
    }
  }

  /** The call wrote the row: created it, changed its state, or repeated what had been done. */
  predicate Wrote(db: Db, call: StoreCall, id: string) {
    && id in Perform(db, call).db.rows
    && (|| id !in db.rows
        || Perform(db, call).db.rows[id].state != db.rows[id].state
        || (call.DoRecord? && call.token.claims.authorizationId == id && Perform(db, call).Stored?)
        || (call.DoCancel? && call.id == id && Perform(db, call).Stored?))
  }

  /** Both the retained snapshot and a shared request row tell the row's state. */
  predicate ToldEverywhere(db: Db, id: string)
    requires id in db.rows
  {
    && ReadsAs(db.rows[id].snapshot.state, db.rows[id].state)
    && (db.rows[id].requestId in db.requests ==> ReadsAs(db.requests[db.rows[id].requestId].state, db.rows[id].state))
  }

  /** After every store call, a row it wrote and that projections reach is told everywhere as
      what it is. */
  lemma WrittenRowsAreTold(db: Db, call: StoreCall, id: string)
    requires Wrote(db, call, id) && Named(Perform(db, call).db, id)
    ensures ToldEverywhere(Perform(db, call).db, id)
  {
    hide MoveAndProject, Projected, ToldEverywhere, Named;
    match call
    case DoRecord(token, s) => RecordTells(db, token, s, id);
    case DoBegin(x, consumer, now) => BeginTells(db, x, consumer, now, id);
    case DoComplete(x, outcome, info, now) => MoveTells(db, x, Executing, outcome, Some(Completion(info)), now, id);
    case DoCancel(x, now) =>
      if x in db.rows && db.rows[x].state.Cancelled? {
        ProjectionShows(db, x, RowState.Cancelled, None, now);
        ProjectionTells(db, x, RowState.Cancelled, None, now);
      } else {
        MoveShifts(db, x, Issued, RowState.Cancelled, None, now, id);
        MoveTells(db, x, Issued, RowState.Cancelled, None, now, id);
      }
    case DoRecover(x, actor, now) => MoveTells(db, x, Executing, Unknown, Some(Interrupted(actor)), now, id);
    case DoMarkUnknown(x, info, now) => MoveTells(db, x, Executing, Unknown, Some(Completion(info)), now, id);
    case DoReconcile(x, outcome, actor, info, now) =>
      MoveTells(db, x, Unknown, outcome, Some(Reconciliation(actor, outcome, info)), now, id);
    case DoRevokeAll(ids, actor, now) => RevocationTells(db, ids, |ids|, actor, now, id);
  }

  lemma ProjectionTells(db: Db, id: string, state: RowState, receipt: Option<Receipt>, now: int)
    requires id in db.rows && db.rows[id].state == state && Named(Projected(db, id, state, receipt, now), id)
    ensures ToldEverywhere(Projected(db, id, state, receipt, now), id)
  {
    hide ReadsAs, Public;
    PublicReadsAs(state);
  }

  lemma RecordTells(db: Db, token: Token, s: Snapshot, id: string)
    requires Wrote(db, DoRecord(token, s), id) && Named(Recorded(db, token, s).db, id)
    ensures ToldEverywhere(Recorded(db, token, s).db, id)
  {
    hide Projected, ToldEverywhere, Named;
    var c := token.claims;
    var x := c.authorizationId;
    if x in db.rows {
      var row := db.rows[x];
      ProjectionShows(db, x, row.state, row.receipt, row.updatedAt);
      assert id == x && row.token == token;
      ProjectionTells(db, x, row.state, row.receipt, row.updatedAt);
    } else {
      assert SnapshotFits(token, s);
      var requests := if c.requestId in db.requests then db.requests[c.requestId := s] else db.requests;
      var inserted := Db(db.rows[x := Row(c.requestId, Issued, c.issuedAt, token, None, None, s)], requests);
      ProjectionShows(inserted, x, Issued, None, c.issuedAt);
      assert id == x;
      ProjectionTells(inserted, x, Issued, None, c.issuedAt);
    }
  }

  lemma BeginTells(db: Db, x: string, consumer: string, now: int, id: string)
    requires Wrote(db, DoBegin(x, consumer, now), id) && Named(Begun(db, x, consumer, now).db, id)
    ensures ToldEverywhere(Begun(db, x, consumer, now).db, id)
  {
    hide MoveAndProject, Projected, ToldEverywhere, Named;
    if Begun(db, x, consumer, now).Stored? {
      var row := db.rows[x].(state := Executing, consumer := Some(consumer), updatedAt := now);
      var begun := db.(rows := db.rows[x := row]);
      ProjectionShows(begun, x, Executing, None, now);
      ProjectionTells(begun, x, Executing, None, now);
    } else {
      MoveTells(db, x, Issued, RowState.Expired, None, now, id);
    }
  }

  /** A move that stores anything changes its row's state, and no other's. */
  lemma MoveShifts(db: Db, x: string, from: RowState, to: RowState, receipt: Option<Receipt>, now: int, id: string)
    requires from != to
    ensures var o := MoveAndProject(db, x, from, to, receipt, now);
            && o.db.rows.Keys == db.rows.Keys
            && (o.Stored? ==> x in db.rows && o.db.rows[x].state != db.rows[x].state)
            && (id in db.rows && id != x ==> o.db.rows[id].state == db.rows[id].state)
  {
  }

  lemma MoveTells(db: Db, x: string, from: RowState, to: RowState, receipt: Option<Receipt>, now: int, id: string)
    requires id in MoveAndProject(db, x, from, to, receipt, now).db.rows
    requires Named(MoveAndProject(db, x, from, to, receipt, now).db, id)
    requires id in db.rows ==> MoveAndProject(db, x, from, to, receipt, now).db.rows[id].state != db.rows[id].state
    ensures ToldEverywhere(MoveAndProject(db, x, from, to, receipt, now).db, id)
  {
    hide Projected, Named, ToldEverywhere;
    if x in db.rows && db.rows[x].state == from {
      var moved := Move(db, x, from, to, receipt, now).value;
      ProjectionShows(moved, x, to, receipt, now);
      assert id == x;
      ProjectionTells(moved, x, to, receipt, now);
    }
  }

  lemma {:induction false} RevocationTells(db: Db, ids: seq<string>, k: nat, actor: string, now: int, id: string)
    requires k <= |ids| && id in RevokedFirst(db, ids, k, actor, now).rows
    requires Named(RevokedFirst(db, ids, k, actor, now), id)
    requires id in db.rows ==> RevokedFirst(db, ids, k, actor, now).rows[id].state != db.rows[id].state
    ensures ToldEverywhere(RevokedFirst(db, ids, k, actor, now), id)
  {
    hide MoveAndProject, Named, ToldEverywhere, Projected;
    if k > 0 {
      var before := RevokedFirst(db, ids, k - 1, actor, now);
      RevocationTouches(db, ids, k, actor, now, id);
      RevocationTouches(db, ids, k - 1, actor, now, id);
      if RevokedFirst(db, ids, k, actor, now).rows[id].state != before.rows[id].state {
        MoveTells(before, ids[k - 1], Issued, RowState.Cancelled, Some(Revocation(actor)), now, id);
      } else {
        OtherMoveKeepsTold(before, ids[k - 1], Issued, RowState.Cancelled, Some(Revocation(actor)), now, id);
        RevocationTells(db, ids, k - 1, actor, now, id);
        OtherMoveIsTold(before, ids[k - 1], Issued, RowState.Cancelled, Some(Revocation(actor)), now, id);
      }
    } else {
      assert false;
    }
  }

  /** A move of another row reaches no row that was out of reach. */
  lemma OtherMoveKeepsTold(db: Db, x: string, from: RowState, to: RowState, receipt: Option<Receipt>, now: int,
      id: string)
    requires from != to && id in db.rows && id in MoveAndProject(db, x, from, to, receipt, now).db.rows
    requires MoveAndProject(db, x, from, to, receipt, now).db.rows[id].state == db.rows[id].state
    requires Named(MoveAndProject(db, x, from, to, receipt, now).db, id)
    ensures Named(db, id)
  {
    hide Projected, Names, Base;
    if x in db.rows && db.rows[x].state == from {
      var moved := Move(db, x, from, to, receipt, now).value;
      ProjectionShows(moved, x, to, receipt, now);
      assert x != id;
      MovedBase(db, x, from, to, receipt, now, id);
    }
  }

  lemma MovedBase(db: Db, x: string, from: RowState, to: RowState, receipt: Option<Receipt>, now: int, id: string)
    requires id in db.rows && Move(db, x, from, to, receipt, now).Some?
    ensures Base(Move(db, x, from, to, receipt, now).value, id) == Base(db, id)
  {
  }

  lemma OtherMoveIsTold(db: Db, x: string, from: RowState, to: RowState, receipt: Option<Receipt>, now: int, id: string)
    requires from != to && id in db.rows && id in MoveAndProject(db, x, from, to, receipt, now).db.rows
    requires MoveAndProject(db, x, from, to, receipt, now).db.rows[id].state == db.rows[id].state
    requires Named(MoveAndProject(db, x, from, to, receipt, now).db, id) && ToldEverywhere(db, id)
    ensures ToldEverywhere(MoveAndProject(db, x, from, to, receipt, now).db, id)
  {
    hide ReadsAs, Public;
  }

  lemma LedgerNamesStay(db: Db, call: StoreCall)
    requires LedgerNames(db) && FirstForRequest(db, call)
    ensures LedgerNames(Perform(db, call).db)
  {
    hide MoveAndProject, Projected;
    match call
    case DoRecord(token, s) => RecordKeepsNames(db, token, s);
    case DoBegin(id, consumer, now) =>
      MoveKeepsNames(db, id, Issued, RowState.Expired, None, now);
      if Begun(db, id, consumer, now).Stored? {
        var row := db.rows[id].(state := Executing, consumer := Some(consumer), updatedAt := now);
        ProjectionKeepsNames(db.(rows := db.rows[id := row]), id, Executing, None, now);
      }
    case DoComplete(id, outcome, info, now) => MoveKeepsNames(db, id, Executing, outcome, Some(Completion(info)), now);
    case DoCancel(id, now) =>
      MoveKeepsNames(db, id, Issued, RowState.Cancelled, None, now);
      if id in db.rows { ProjectionKeepsNames(db, id, RowState.Cancelled, None, now); }
    case DoRecover(id, actor, now) => MoveKeepsNames(db, id, Executing, Unknown, Some(Interrupted(actor)), now);
    case DoMarkUnknown(id, info, now) => MoveKeepsNames(db, id, Executing, Unknown, Some(Completion(info)), now);
    case DoReconcile(id, outcome, actor, info, now) =>
      MoveKeepsNames(db, id, Unknown, outcome, Some(Reconciliation(actor, outcome, info)), now);
    case DoRevokeAll(ids, actor, now) => RevocationKeepsNames(db, ids, |ids|, actor, now);
  }

  lemma ProjectionKeepsNames(db: Db, id: string, state: RowState, receipt: Option<Receipt>, now: int)
    requires LedgerNames(db) && id in db.rows
    ensures LedgerNames(Projected(db, id, state, receipt, now))
  {
  }

  lemma MoveKeepsNames(db: Db, id: string, from: RowState, to: RowState, receipt: Option<Receipt>, now: int)
    requires LedgerNames(db)
    ensures LedgerNames(MoveAndProject(db, id, from, to, receipt, now).db)
  {
    hide Projected;
    if id in db.rows && db.rows[id].state == from {
      ProjectionKeepsNames(Move(db, id, from, to, receipt, now).value, id, to, receipt, now);
    }
  }

  lemma RecordKeepsNames(db: Db, token: Token, s: Snapshot)
    requires LedgerNames(db) && FirstForRequest(db, DoRecord(token, s))
    ensures LedgerNames(Recorded(db, token, s).db)
  {
    hide Projected;
    var c := token.claims;
    var id := c.authorizationId;
    if SnapshotFits(token, s) && id in db.rows && db.rows[id].token == token {
      ProjectionKeepsNames(db, id, db.rows[id].state, db.rows[id].receipt, db.rows[id].updatedAt);
    } else if SnapshotFits(token, s) && id !in db.rows {
      var requests := if c.requestId in db.requests then db.requests[c.requestId := s] else db.requests;
      var inserted := Db(db.rows[id := Row(c.requestId, Issued, c.issuedAt, token, None, None, s)], requests);
      ProjectionKeepsNames(inserted, id, Issued, None, c.issuedAt);
    }
  }

  lemma {:induction false} RevocationKeepsNames(db: Db, ids: seq<string>, k: nat, actor: string, now: int)
    requires k <= |ids| && LedgerNames(db)
    ensures LedgerNames(RevokedFirst(db, ids, k, actor, now))
  {
    hide LedgerNames, MoveAndProject;
    if k > 0 {
      RevocationKeepsNames(db, ids, k - 1, actor, now);
      MoveKeepsNames(RevokedFirst(db, ids, k - 1, actor, now), ids[k - 1], Issued, RowState.Cancelled,
        Some(Revocation(actor)), now);
    }
  }

  /** Without the assumption on the ledger: after a move a current snapshot stays current
      exactly when the row the projection reads names the authorization. */
  lemma SnapshotStaysCurrentIff(db: Db, id: string, from: RowState, to: RowState, receipt: Option<Receipt>, now: int)
    requires id in db.rows && db.rows[id].state == from && from != to
    requires Shows(db.rows[id].snapshot, id, from)
    ensures var after := MoveAndProject(db, id, from, to, receipt, now).db;
            Shows(after.rows[id].snapshot, id, to) <==> Names(Base(db, id), id)
  {
    hide Public, ReadsAs;
    PublicReadsAs(to);
    PublicTellsApart(from, to);
  }

  lemma PublicTellsApart(a: RowState, b: RowState)
    ensures a != b ==> forall told | ReadsAs(told, a) :: !ReadsAs(told, b)
  {
  }

  // ---- The store object ---------------------------------------------------------------

  /** The store after cancelling the first `k` of `ids`, one after the other. */
  function RevokedFirst(db: Db, ids: seq<string>, k: nat, actor: string, now: int): Db
    requires k <= |ids|
  {
    if k == 0 then db
    else MoveAndProject(RevokedFirst(db, ids, k - 1, actor, now), ids[k - 1], Issued, RowState.Cancelled,
      Some(Revocation(actor)), now).db
  }

  /** `row` as bulk revocation leaves it, its snapshot aside. */
  predicate RevokedFrom(before: Row, after: Row, actor: string, now: int) {
    after == before.(state := RowState.Cancelled, receipt := Some(Revocation(actor)), updatedAt := now,
      snapshot := after.snapshot)
  }

  /** The ids are exactly the issued rows, each listed once. */
  ghost predicate ListsIssued(db: Db, ids: seq<string>) {
    && (forall i, j | 0 <= i < j < |ids| :: ids[i] != ids[j])
    && (forall id :: id in ids <==> id in db.rows && db.rows[id].state.Issued?)
  }

  lemma {:induction false} RevocationOfRow(db: Db, ids: seq<string>, k: nat, actor: string, now: int, id: string)
    requires k <= |ids| && ListsIssued(db, ids)
    ensures var after := RevokedFirst(db, ids, k, actor, now);
            && after.rows.Keys == db.rows.Keys
            && (id in db.rows && id in ids[..k] ==> RevokedFrom(db.rows[id], after.rows[id], actor, now))
            && (id in db.rows && id !in ids[..k] ==> after.rows[id] == db.rows[id])
  {
    hide MoveAndProject, RevokedFrom, ListsIssued;
    if k > 0 {
      var x, before := ids[k - 1], RevokedFirst(db, ids, k - 1, actor, now);
      RevocationOfRow(db, ids, k - 1, actor, now, id);
      NextListed(db, ids, k, id);
      CancellationTouches(before, x, actor, now);
      if x == id {
        CancellationIs(before, x, actor, now);
      }
    }
  }

  lemma NextListed(db: Db, ids: seq<string>, k: nat, id: string)
    requires 0 < k <= |ids| && ListsIssued(db, ids)
    ensures id in ids[..k] <==> id in ids[..k - 1] || id == ids[k - 1]
    ensures id == ids[k - 1] ==> id !in ids[..k - 1] && id in db.rows && db.rows[id].state.Issued?
  {
    assert ids[..k] == ids[..k - 1] + [ids[k - 1]];
  }

  lemma CancellationIs(db: Db, x: string, actor: string, now: int)
    requires x in db.rows && db.rows[x].state.Issued?
    ensures var after := MoveAndProject(db, x, Issued, RowState.Cancelled, Some(Revocation(actor)), now).db;
            x in after.rows && RevokedFrom(db.rows[x], after.rows[x], actor, now)
  {
  }

  lemma {:induction false} DistinctCount(ids: seq<string>, s: set<string>)
    requires forall i, j | 0 <= i < j < |ids| :: ids[i] != ids[j]
    requires forall id :: id in ids <==> id in s
    ensures |ids| == |s|
    decreases |ids|
  {
    if ids != [] {
      var last := ids[|ids| - 1];
      assert last in ids;
      forall id ensures id in ids[..|ids| - 1] <==> id in s - {last} {
        if id in ids && id != last { var i :| 0 <= i < |ids| && ids[i] == id; }
      }
      DistinctCount(ids[..|ids| - 1], s - {last});
    } else {
      assert s == {};
    }
  }

  /** Bulk revocation leaves no issued row, touches no other, and its list is as long as the
      set of rows it cancels. */
  lemma RevocationIsExact(db: Db, ids: seq<string>, actor: string, now: int)
    requires ListsIssued(db, ids)
    ensures var after := RevokedFirst(db, ids, |ids|, actor, now);
            && after.rows.Keys == db.rows.Keys && |ids| == |IssuedIds(db)|
            && (forall id | id in after.rows :: !after.rows[id].state.Issued?)
            && (forall id | id in db.rows ::
                  if db.rows[id].state.Issued? then RevokedFrom(db.rows[id], after.rows[id], actor, now)
                  else after.rows[id] == db.rows[id])
  {
    RevocationOfRow(db, ids, |ids|, actor, now, "");
    DistinctCount(ids, IssuedIds(db));
    assert ids[..|ids|] == ids;
    forall id | id in db.rows
      ensures var after := RevokedFirst(db, ids, |ids|, actor, now).rows[id];
              if db.rows[id].state.Issued? then RevokedFrom(db.rows[id], after, actor, now) else after == db.rows[id]
    {
      RevocationOfRow(db, ids, |ids|, actor, now, id);
    }
  }

  // ---- The latest authorization of a request ------------------------------------------

  /** SQLite's order of text columns. */
  predicate TextLess(a: string, b: string) {
    if b == "" then false
    else if a == "" then true
    else if a[0] != b[0] then a[0] < b[0]
    else TextLess(a[1..], b[1..])
  }

  lemma {:induction false} TextOrder(a: string, b: string, c: string)
    ensures TextLess(a, b) ==> !TextLess(b, a)
    ensures a == b || TextLess(a, b) || TextLess(b, a)
    ensures TextLess(a, b) && TextLess(b, c) ==> TextLess(a, c)
    decreases |a| + |b| + |c|
  {
    if a != "" && b != "" && a[0] == b[0] {
      assert a[1..] == b[1..] ==> a == b;
      TextOrder(a[1..], b[1..], if c == "" then "" else c[1..]);
    }
  }

  lemma SameHead(a: string, b: string)
    ensures forall k: nat | 0 < k <= |a| && k <= |b| && a[..k] == b[..k] :: a[0] == b[0]
  {
    forall k: nat | 0 < k <= |a| && k <= |b| && a[..k] == b[..k] ensures a[0] == b[0] {
      assert a[..k][0] == b[..k][0];
    }
  }

  /** `a` comes first when it is a proper beginning of `b`, or smaller where they first differ. */
  lemma {:induction false} TextLessMeans(a: string, b: string)
    ensures TextLess(a, b) <==>
              exists k: nat ::
                && k <= |a| && k < |b| && a[..k] == b[..k]
                && (k == |a| || a[k] < b[k])
  {
    SameHead(a, b);
    if b == "" {
    } else if a == "" || a[0] != b[0] {
      assert a[..0] == b[..0];
    } else {
      TextLessMeans(a[1..], b[1..]);
      if TextLess(a, b) {
        var j: nat :| && j <= |a[1..]| && j < |b[1..]| && a[1..][..j] == b[1..][..j]
                      && (j == |a[1..]| || a[1..][j] < b[1..][j]);
        assert a[..j + 1] == [a[0]] + a[1..][..j] && b[..j + 1] == [b[0]] + b[1..][..j];
      }
      if k: nat :| k <= |a| && k < |b| && a[..k] == b[..k] && (k == |a| || a[k] < b[k]) {
        assert k > 0;
        assert a[1..][..k - 1] == a[..k][1..] && b[1..][..k - 1] == b[..k][1..];
      }
    }
  }

  predicate Earlier(db: Db, a: string, b: string)
    requires a in db.rows && b in db.rows
  {
    var x, y := db.rows[a].token.claims.issuedAt, db.rows[b].token.claims.issuedAt;
    x < y || (x == y && TextLess(a, b))
  }

  predicate RowOf(db: Db, id: RequestId, a: string) { a in db.rows && db.rows[a].requestId == id }

  ghost predicate IsLatest(db: Db, id: RequestId, a: string) {
    RowOf(db, id, a) && forall b | RowOf(db, id, b) && b != a :: Earlier(db, b, a)
  }

  lemma OneLatest(db: Db, id: RequestId, a: string, b: string)
    requires IsLatest(db, id, a) && IsLatest(db, id, b)
    ensures a == b
    ensures forall x | x in db.rows && db.rows[x].requestId == id ::
              && db.rows[x].token.claims.issuedAt <= db.rows[a].token.claims.issuedAt
              && (x != a && db.rows[x].token.claims.issuedAt == db.rows[a].token.claims.issuedAt ==> TextLess(x, a))
  {
    TextOrder(a, b, "");
    forall x | x in db.rows && db.rows[x].requestId == id
      ensures db.rows[x].token.claims.issuedAt <= db.rows[a].token.claims.issuedAt
      ensures x != a && db.rows[x].token.claims.issuedAt == db.rows[a].token.claims.issuedAt ==> TextLess(x, a)
    {
      assert RowOf(db, id, x);
    }
  }

  function IssuedIds(db: Db): set<string> {
    set id | id in db.rows && db.rows[id].state.Issued?
  }

  class SQLiteAuthorizationStore {
    var db: Db

    constructor ()
      ensures db == Db(map[], map[])
    {
      db := Db(map[], map[]);
    }

    method Project(id: string, state: RowState, receipt: Option<Receipt>, now: int)
      requires id in db.rows
      modifies this
      ensures db == Projected(old(db), id, state, receipt, now)
    {
      var row := db.rows[id];
      var request := if row.requestId in db.requests then db.requests[row.requestId] else row.snapshot;
      if request.authorization.None? || request.authorization.value.id != id {
        return;
      }
      var told :=
        match state
        case Issued => PublicState.Authorized
        case Executing => PublicState.Consuming
        case Unknown => PublicState.OutcomeUnknown
        case Executed => PublicState.Executed
        case Failed => PublicState.Failed
        case Simulated => PublicState.Simulated
        case Cancelled => PublicState.Cancelled
        case Expired => PublicState.Expired;
      var authorization := request.authorization.value.(status := state);
      if receipt.Some? {
        authorization := authorization.(receipt := receipt);
      }
      var shown := request.(authorization := Some(authorization), state := told, consumptionPossible := state == Issued,
                            updatedAt := now);
      db := db.(rows := db.rows[id := row.(snapshot := shown)]);
      if row.requestId in db.requests {
        db := db.(requests := db.requests[row.requestId := shown]);
      }
    }

    method Get(id: string) returns (row: Option<Row>)
      ensures row == if id in db.rows then Some(db.rows[id]) else None
    {
      row := if id in db.rows then Some(db.rows[id]) else None;
    }

    /** Without a snapshot of the request, one is made from the token. */
    method RecordIssued(token: Token, supplied: Option<Snapshot>) returns (ok: bool)
      modifies this
      ensures var snapshot := if supplied.Some? then supplied.value else SnapshotOfToken(token);
              var done := Perform(old(db), DoRecord(token, snapshot));
              db == done.db && (ok <==> done.Stored?)
    {
      var id, requestId := token.claims.authorizationId, token.claims.requestId;
      var snapshot: Snapshot;
      if supplied.Some? {
        snapshot := supplied.value;
      } else {
        var view := AuthorizationView(id, Issued, None);
        snapshot := Snapshot(requestId, Authorized, Some(view), true, token.claims.issuedAt,
                             Obj(token.claims.parameters));
      }
      if snapshot.requestId != requestId || snapshot.state != Authorized
         || snapshot.authorization.None? || snapshot.authorization.value.id != id {
        return false;
      }
      if id in db.rows {
        var row := db.rows[id];
        if row.token != token {
          return false;
        }
        Project(id, row.state, row.receipt, row.updatedAt);
        return true;
      }
      var at := token.claims.issuedAt;
      db := db.(rows := db.rows[id := Row(requestId, Issued, at, token, None, None, snapshot)]);
      if requestId in db.requests {
        db := db.(requests := db.requests[requestId := snapshot]);
      }
      Project(id, Issued, None, at);
      ok := true;
    }

    /** The conditional UPDATE; true when it changed a row. */
    method Update(id: string, from: RowState, to: RowState, receipt: Option<Receipt>, now: int) returns (changed: bool)
      modifies this
      ensures var moved := Move(old(db), id, from, to, receipt, now);
              changed == moved.Some? && db == if changed then moved.value else old(db)
    {
      changed := id in db.rows && db.rows[id].state == from;
      if changed {
        var row := db.rows[id].(state := to, updatedAt := now);
        if receipt.Some? {
          row := row.(receipt := receipt);
        }
        db := db.(rows := db.rows[id := row]);
      }
    }

    method BeginConsumption(id: string, consumer: string, now: int) returns (ok: bool)
      modifies this
      ensures var done := Perform(old(db), DoBegin(id, consumer, now));
              db == done.db && (ok <==> done.Stored?)
    {
      if consumer == "" || id !in db.rows || !db.rows[id].state.Issued? {
        return false;
      }
      if now >= db.rows[id].token.claims.expiresAt {
        var expired := Update(id, Issued, RowState.Expired, None, now);
        Project(id, RowState.Expired, None, now);
        return false;
      }
      db := db.(rows := db.rows[id := db.rows[id].(state := Executing, consumer := Some(consumer), updatedAt := now)]);
      Project(id, Executing, None, now);
      ok := true;
    }

    /** Shared by `complete`, `recover_interrupted`, `mark_unknown` and `reconcile`. */
    method UpdateAndProject(id: string, from: RowState, to: RowState, receipt: Option<Receipt>,
        now: int) returns (ok: bool)
      modifies this
      ensures db == MoveAndProject(old(db), id, from, to, receipt, now).db
      ensures ok <==> MoveAndProject(old(db), id, from, to, receipt, now).Stored?
    {
      ok := Update(id, from, to, receipt, now);
      if ok {
        Project(id, to, receipt, now);
      }
    }

    method Complete(id: string, outcome: RowState, info: Json, now: int) returns (ok: bool)
      modifies this
      ensures var done := Perform(old(db), DoComplete(id, outcome, info, now));
              db == done.db && (ok <==> done.Stored?)
    {
      if !(outcome.Executed? || outcome.Failed? || outcome.Simulated?) {
        return false;
      }
      ok := UpdateAndProject(id, Executing, outcome, Some(Completion(info)), now);
    }

    method Cancel(id: string, now: int) returns (ok: bool)
      modifies this
      ensures var done := Perform(old(db), DoCancel(id, now));
              db == done.db && (ok <==> done.Stored?)
    {
      if id in db.rows && db.rows[id].state.Cancelled? {
        Project(id, RowState.Cancelled, None, now);
        return true;
      }
      ok := UpdateAndProject(id, Issued, RowState.Cancelled, None, now);
    }

    method RecoverInterrupted(id: string, actor: string, now: int) returns (ok: bool)
      modifies this
      ensures var done := Perform(old(db), DoRecover(id, actor, now));
              db == done.db && (ok <==> done.Stored?)
    {
      if actor == "" {
        return false;
      }
      ok := UpdateAndProject(id, Executing, Unknown, Some(Interrupted(actor)), now);
    }

    method MarkUnknown(id: string, info: Json, now: int) returns (ok: bool)
      modifies this
      ensures var done := Perform(old(db), DoMarkUnknown(id, info, now));
              db == done.db && (ok <==> done.Stored?)
    {
      ok := UpdateAndProject(id, Executing, Unknown, Some(Completion(info)), now);
    }

    method Reconcile(id: string, outcome: RowState, actor: string, info: Json, now: int) returns (ok: bool)
      modifies this
      ensures var done := Perform(old(db), DoReconcile(id, outcome, actor, info, now));
              db == done.db && (ok <==> done.Stored?)
    {
      if !(outcome.Executed? || outcome.Failed?) || actor == "" {
        return false;
      }
      ok := UpdateAndProject(id, Unknown, outcome, Some(Reconciliation(actor, outcome, info)), now);
    }

    /** `ORDER BY issued_at DESC, authorization_id DESC LIMIT 1`. */
    method GetForRequest(id: RequestId) returns (latest: Option<string>)
      ensures latest.Some? ==> IsLatest(db, id, latest.value)
      ensures latest.None? ==> forall a :: !RowOf(db, id, a)
    {
      latest := None;
      var todo := db.rows.Keys;
      while todo != {}
        invariant todo <= db.rows.Keys
        invariant latest.None? ==> forall b :: RowOf(db, id, b) ==> b in todo
        invariant latest.Some? ==> RowOf(db, id, latest.value) && latest.value !in todo
        invariant latest.Some? ==> forall b | RowOf(db, id, b) && b !in todo && b != latest.value ::
                    Earlier(db, b, latest.value)
        decreases todo
      {
        var a :| a in todo;
        todo := todo - {a};
        if db.rows[a].requestId == id {
          if latest.None? {
            latest := Some(a);
          } else {
            TextOrder(latest.value, a, "");
            var best, at := db.rows[latest.value].token.claims.issuedAt, db.rows[a].token.claims.issuedAt;
            if best < at || (best == at && TextLess(latest.value, a)) {
              forall b | RowOf(db, id, b) && b !in todo && b != a ensures Earlier(db, b, a) {
                TextOrder(b, latest.value, a);
              }
              latest := Some(a);
            }
          }
        }
      }
    }

    /** `SELECT ... WHERE state='issued'`. */
    method SelectIssued() returns (ids: seq<string>)
      ensures ListsIssued(db, ids)
    {
      ids := [];
      var todo := IssuedIds(db);
      while todo != {}
        invariant todo <= IssuedIds(db)
        invariant forall i, j | 0 <= i < j < |ids| :: ids[i] != ids[j]
        invariant forall id :: id in ids <==> id in IssuedIds(db) && id !in todo
        decreases |todo|
      {
        var id :| id in todo;
        ids := ids + [id];
        todo := todo - {id};
      }
    }

    /** Cancels every issued row in one transaction and counts them; -1 is the error return.
        `RevocationIsExact` says what the new database is. */
    method RevokeAllIssued(actor: string, now: int) returns (revoked: int, ghost ids: seq<string>)
      modifies this
      ensures actor == "" ==> db == old(db) && revoked == -1
      ensures actor != "" ==> ListsIssued(old(db), ids) && revoked == |ids|
      ensures actor != "" ==> db == Perform(old(db), DoRevokeAll(ids, actor, now)).db
    {
      if actor == "" {
        return -1, [];
      }
      var rows := SelectIssued();
      ids := rows;
      revoked := 0;
      var i := 0;
      while i < |rows|
        invariant 0 <= i <= |rows| && revoked == i
        invariant db == RevokedFirst(old(db), rows, i, actor, now)
      {
        RevocationOfRow(old(db), rows, i, actor, now, rows[i]);
        var changed := UpdateAndProject(rows[i], Issued, RowState.Cancelled, Some(Revocation(actor)), now);
        if changed {
          revoked := revoked + 1;
        }
        i := i + 1;
      }
    }
  }
}
