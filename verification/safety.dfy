/** The engine's invariant over every run, nested callbacks and store steps included. */
module EngineSafety {
  import opened JsonValues
  import opened GateGraph
  import opened Policies
  import opened Claims
  import opened GateEngine
  import opened RequestLifecycle
  import S = AuthorizationStore
  import P = ConsumptionProtocol

  type Requests = map<RequestId, Request>

  /** Every request keeps its own invariant; `own` are the keys this engine answers for. */
  ghost predicate RequestsOk(c: Config, requests: Requests, own: iset<Key>) {
    forall id | id in requests :: RequestOk(c, id, requests[id]) && KeyOf(id) in own
  }

  /** One request per idempotency key, and a workflow kept for exactly the requests still open,
      those of `busy` aside: they are inside an operation. */
  ghost predicate IndexOk(requests: Requests, workflows: map<RequestId, Workflow>, idempotency: map<Key, RequestId>,
      busy: set<RequestId>) {
    && (forall id | id in requests :: KeyOf(id) in idempotency && idempotency[KeyOf(id)] == id)
    && (forall k | k in idempotency :: idempotency[k] in requests && KeyOf(idempotency[k]) == k)
    && (forall id | id in workflows ::
           id in requests && workflows[id] == id.hash.workflow && (!Terminal(requests[id].state) || id in busy))
    && (forall id | id in requests && !Terminal(requests[id].state) :: id in workflows)
    && busy <= requests.Keys
    && (forall id | id in requests && requests[id].state.Processing? :: id in busy)
  }

  /** An authorization row exists only once its request's execute gate has fired, and a
      cancelled request's row is cancelled. */
  predicate RowMatches(c: Config, r: Request, a: string, row: S.Row) {
    && c.policy.version == 2
    && (r.state.Authorized? || r.state.Cancelled? || r.state.Failed?)
    && (!r.state.Failed? ==> r.authorization.Some? && r.authorization.value.id == a)
    && (r.state.Cancelled? ==> row.state.Cancelled?)
  }

  /** A row's token names the row and its request. */
  predicate RowNamed(a: string, row: S.Row) {
    row.token.claims.requestId == row.requestId && row.token.claims.authorizationId == a
  }

  ghost predicate RowsOk(c: Config, requests: Requests, rows: map<string, S.Row>, own: iset<Key>) {
    && (forall a | a in rows :: RowNamed(a, rows[a]))
    && (forall a | a in rows && KeyOf(rows[a].requestId) in own ::
          && rows[a].requestId in requests
          && RowMatches(c, requests[rows[a].requestId], a, rows[a])
          && TokenBinds(c, rows[a].requestId, requests[rows[a].requestId], rows[a].token.claims))
    && (forall a, b | a in rows && b in rows && KeyOf(rows[a].requestId) in own
         && rows[a].requestId == rows[b].requestId :: a == b)
    && (forall id | id in requests && requests[id].state.Authorized? :: Recorded(requests[id], id, rows))
  }

  /** An authorized request's token is in the store, under its authorization id. */
  predicate Recorded(r: Request, id: RequestId, rows: map<string, S.Row>) {
    && r.authorization.Some? && r.token.Some?
    && r.authorization.value.id in rows
    && rows[r.authorization.value.id].requestId == id && rows[r.authorization.value.id].token == r.token.value
  }

  /** A direct call is allowed: the policy is live and the request's execute gate is not for
      simulation only. */
  ghost predicate Live(c: Config, id: RequestId) {
    && c.policy.executionEnabled
    && forall e | e in Defs(id) && Defs(id)[e].body.ExecuteGate? :: !Defs(id)[e].body.simulationOnly
  }

  /** Version 1: the target is called at most once per request, and only where that is allowed. */
  ghost predicate CallsOk(c: Config, requests: Requests, calls: seq<RequestId>) {
    && (forall i | 0 <= i < |calls| :: Live(c, calls[i]))
    && (forall i | 0 <= i < |calls| ::
           calls[i] in requests && (requests[calls[i]].state.Executed? || requests[calls[i]].state.Failed?))
    && (forall i, j | 0 <= i < j < |calls| :: calls[i] != calls[j])
    && (calls != [] ==> c.policy.version != 2)
  }

  predicate HoldsNotice(r: Request, g: string) {
    g in r.gates && r.gates[g].evidence.Notified? && r.gates[g].evidence.notice.noticeId.Some?
  }

  function NoticeOf(r: Request, g: string): string
    requires HoldsNotice(r, g)
  {
    r.gates[g].evidence.notice.noticeId.value
  }

  predicate SameNotice(r: Request, g: string, r2: Request, g2: string) {
    HoldsNotice(r, g) && HoldsNotice(r2, g2) && NoticeOf(r, g) == NoticeOf(r2, g2)
  }

  /** Every notification id held by a gate is consumed, and is held by no other gate. */
  ghost predicate NoticesOk(requests: Requests, consumed: set<string>) {
    && (forall id, g | id in requests && HoldsNotice(requests[id], g) :: NoticeOf(requests[id], g) in consumed)
    && (forall id, g, id2, g2 | id in requests && id2 in requests
         && SameNotice(requests[id], g, requests[id2], g2) :: id == id2 && g == g2)
  }

  /** `r` holds no notification that the request did not hold before. */
  ghost predicate NoNewNotice(requests: Requests, id: RequestId, r: Request) {
    forall g | HoldsNotice(r, g) ::
      id in requests && HoldsNotice(requests[id], g) && NoticeOf(requests[id], g) == NoticeOf(r, g)
  }

  lemma ReplaceNotices(requests: Requests, consumed: set<string>, id: RequestId, r: Request)
    requires NoticesOk(requests, consumed) && NoNewNotice(requests, id, r)
    ensures NoticesOk(requests[id := r], consumed)
  {
    var later := requests[id := r];
    forall x, g, y, h | x in later && y in later && SameNotice(later[x], g, later[y], h) ensures x == y && g == h {
      assert x in requests && y in requests && SameNotice(requests[x], g, requests[y], h);
    }
  }

  lemma AddNotice(requests: Requests, consumed: set<string>, id: RequestId, r: Request, g: string)
    requires NoticesOk(requests, consumed) && id in requests && GateFired(requests[id], r, g)
    requires HoldsNotice(r, g) && NoticeOf(r, g) !in consumed
    ensures NoticesOk(requests[id := r], consumed + {NoticeOf(r, g)})
  {
    var later := requests[id := r];
    forall x, h | x in later && HoldsNotice(later[x], h) && !(x == id && h == g)
      ensures x in requests && HoldsNotice(requests[x], h) && NoticeOf(requests[x], h) == NoticeOf(later[x], h)
    {
    }
    forall x, h, y, k | x in later && y in later && SameNotice(later[x], h, later[y], k) ensures x == y && h == k {
      if !(x == id && h == g) && !(y == id && k == g) {
        assert SameNotice(requests[x], h, requests[y], k);
      }
    }
  }

  /** A gate that fires without a notice adds none. */
  lemma FiredWithoutNotice(requests: Requests, id: RequestId, r: Request, g: string)
    requires id in requests && GateFired(requests[id], r, g) && !r.gates[g].evidence.Notified?
    ensures NoNewNotice(requests, id, r)
  {
  }

  ghost predicate Ok(c: Config, s: State, own: iset<Key>, busy: set<RequestId>) {
    && AcceptedPolicy(c.policy)
    && RequestsOk(c, s.requests, own)
    && IndexOk(s.requests, s.workflows, s.idempotency, busy)
    && P.Consistent(s.world)
    && RowsOk(c, s.requests, s.world.db.rows, own)
    && CallsOk(c, s.requests, s.targetCalls)
    && NoticesOk(s.requests, s.consumedNotices)
  }

  /** A store an engine can start on: it holds nothing for the engine's own keys. */
  ghost predicate Joins(world: P.World, own: iset<Key>) {
    && P.Consistent(world)
    && forall a | a in world.db.rows :: RowNamed(a, world.db.rows[a]) && KeyOf(world.db.rows[a].requestId) !in own
  }

  lemma StartsOk(c: Config, world: P.World, own: iset<Key>)
    requires AcceptedPolicy(c.policy) && Joins(world, own)
    ensures Ok(c, Initial(world), own, {})
  {
    hide AcceptedPolicy, P.Consistent, TokenBinds, RequestOk;
  }

  /** The store across an operation: no row vanishes or changes hands, a cancelled one stays so,
      new rows are for requests of this engine, and no ledger row appears or vanishes. */
  ghost predicate StoreCarried(before: S.Db, after: S.Db, requests: Requests) {
    && (forall a | a in before.rows :: a in after.rows && RowCarried(before.rows[a], after.rows[a]))
    && (forall a | a in after.rows && a !in before.rows :: after.rows[a].requestId in requests)
    && after.requests.Keys == before.requests.Keys
  }

  predicate RowCarried(before: S.Row, after: S.Row) {
    && after.requestId == before.requestId && after.token == before.token
    && (before.state.Cancelled? ==> after.state.Cancelled?)
  }

  lemma StoreCarriedTransitive(a: S.Db, b: S.Db, c: S.Db, early: Requests, late: Requests)
    requires StoreCarried(a, b, early) && StoreCarried(b, c, late) && early.Keys <= late.Keys
    ensures StoreCarried(a, c, late)
  {
    forall x | x in c.rows && x !in a.rows ensures c.rows[x].requestId in late {
      if x in b.rows { assert b.rows[x].requestId in early.Keys && RowCarried(b.rows[x], c.rows[x]); }
    }
    forall x | x in a.rows ensures x in c.rows && RowCarried(a.rows[x], c.rows[x]) {
      assert RowCarried(a.rows[x], b.rows[x]) && RowCarried(b.rows[x], c.rows[x]);
    }
  }

  /** What an operation leaves alone: requests inside a callback, closed requests, the store's
      rows as `StoreCarried` says. */
  ghost predicate Frame(s: State, t: State) {
    && t.active == s.active
    && StoreCarried(s.world.db, t.world.db, t.requests)
    && (forall id | id in s.requests :: id in t.requests)
    && (forall id | id in s.requests && (id in s.active || Terminal(s.requests[id].state)) ::
           t.requests[id] == s.requests[id])
    && s.tick <= t.tick
  }

  lemma FrameTransitive(s: State, t: State, u: State)
    requires Frame(s, t) && Frame(t, u)
    ensures Frame(s, u)
  {
    hide StoreCarried;
    StoreCarriedTransitive(s.world.db, t.world.db, u.world.db, t.requests, u.requests);
  }

  // ---- Replacing one request ------------------------------------------------------------

  lemma NoRowsYet(c: Config, requests: Requests, rows: map<string, S.Row>, own: iset<Key>, id: RequestId)
    requires RowsOk(c, requests, rows, own) && KeyOf(id) in own
    requires id in requests ==> requests[id].state.Processing? || requests[id].state.WaitingForApproval?
    ensures forall a | a in rows :: rows[a].requestId != id
  {
    hide TokenBinds;
  }

  lemma NoCallYet(c: Config, requests: Requests, calls: seq<RequestId>, id: RequestId)
    requires CallsOk(c, requests, calls)
    requires id in requests ==> requests[id].state.Processing? || requests[id].state.WaitingForApproval?
    ensures id !in calls
  {
  }

  predicate Open(r: Request) { r.state.Processing? || r.state.WaitingForApproval? }

  lemma ReplaceIndex(requests: Requests, workflows: map<RequestId, Workflow>, idempotency: map<Key, RequestId>,
      busy: set<RequestId>, id: RequestId, r: Request)
    requires IndexOk(requests, workflows, idempotency, busy) && id in requests && id in busy
             && !Terminal(requests[id].state)
    ensures IndexOk(requests[id := r], workflows, idempotency, busy)
  {
  }

  lemma ReplaceRows(c: Config, requests: Requests, rows: map<string, S.Row>, own: iset<Key>, id: RequestId, r: Request)
    requires RowsOk(c, requests, rows, own) && KeyOf(id) in own && !r.state.Authorized?
    requires id in requests ==> Open(requests[id])
    ensures RowsOk(c, requests[id := r], rows, own)
  {
    hide TokenBinds;
    NoRowsYet(c, requests, rows, own, id);
  }

  lemma ReplaceCalls(c: Config, requests: Requests, calls: seq<RequestId>, id: RequestId, r: Request)
    requires CallsOk(c, requests, calls)
    requires id in requests ==> Open(requests[id])
    ensures CallsOk(c, requests[id := r], calls)
  {
    NoCallYet(c, requests, calls, id);
  }

  /** An open request inside its operation moves on, short of being authorized. */
  lemma ReplaceOk(c: Config, s: State, t: State, own: iset<Key>, busy: set<RequestId>, id: RequestId, r: Request)
    requires Ok(c, s, own, busy) && id in s.requests && id in busy && Open(s.requests[id])
    requires RequestOk(c, id, r) && !r.state.Authorized?
    requires t.requests == s.requests[id := r] && t.workflows == s.workflows && t.idempotency == s.idempotency
    requires t.world == s.world && t.targetCalls == s.targetCalls && NoticesOk(t.requests, t.consumedNotices)
    ensures Ok(c, t, own, busy)
  {
    hide IndexOk, RowsOk, CallsOk, RequestOk, P.Consistent, AcceptedPolicy, NoticesOk;
    ReplaceIndex(s.requests, s.workflows, s.idempotency, busy, id, r);
    ReplaceRows(c, s.requests, s.world.db.rows, own, id, r);
    ReplaceCalls(c, s.requests, s.targetCalls, id, r);
  }

  lemma CallTargetOk(c: Config, s: State, t: State, own: iset<Key>, busy: set<RequestId>, id: RequestId, r: Request)
    requires Ok(c, s, own, busy) && id in s.requests && id in busy && Open(s.requests[id]) && c.policy.version != 2
    requires RequestOk(c, id, r) && (r.state.Executed? || r.state.Failed?) && Live(c, id)
    requires t.requests == s.requests[id := r] && t.workflows == s.workflows && t.idempotency == s.idempotency
    requires t.world == s.world && t.targetCalls == s.targetCalls + [id] && NoticesOk(t.requests, t.consumedNotices)
    ensures Ok(c, t, own, busy)
  {
    hide IndexOk, RowsOk, CallsOk, RequestOk, P.Consistent, AcceptedPolicy, NoticesOk, Live;
    ReplaceIndex(s.requests, s.workflows, s.idempotency, busy, id, r);
    ReplaceRows(c, s.requests, s.world.db.rows, own, id, r);
    ExtendCalls(c, s.requests, s.targetCalls, id, r);
  }

  lemma ExtendCalls(c: Config, requests: Requests, calls: seq<RequestId>, id: RequestId, r: Request)
    requires CallsOk(c, requests, calls) && c.policy.version != 2 && Live(c, id)
    requires id in requests && Open(requests[id]) && (r.state.Executed? || r.state.Failed?)
    ensures CallsOk(c, requests[id := r], calls + [id])
  {
    hide Live;
    NoCallYet(c, requests, calls, id);
  }

  // ---- Firing a gate ----------------------------------------------------------------------

  /** `g` is the definition of a gate about to fire in the busy request `id`. */
  ghost predicate AboutToFire(c: Config, s: State, own: iset<Key>, busy: set<RequestId>, id: RequestId, g: Gate) {
    && Ok(c, s, own, busy) && id in s.requests && id in busy
    && g.id in Defs(id) && Defs(id)[g.id] == g
    && Firable(c, id, s.requests[id], g.id)
  }

  lemma NoticesIn(c: Config, s: State, own: iset<Key>, busy: set<RequestId>)
    requires Ok(c, s, own, busy)
    ensures NoticesOk(s.requests, s.consumedNotices)
  {
    hide NoticesOk, RequestsOk, IndexOk, RowsOk, CallsOk, P.Consistent, AcceptedPolicy;
  }

  lemma FinishedOk(c: Config, s: State, t: State, own: iset<Key>, busy: set<RequestId>, id: RequestId, g: Gate)
    requires AboutToFire(c, s, own, busy, id, g)
    requires t.requests.Keys == s.requests.Keys && t.requests == s.requests[id := t.requests[id]]
    requires t == s.(requests := t.requests, tick := t.tick, signed := t.signed)
    requires RequestOk(c, id, t.requests[id]) && !t.requests[id].state.Authorized?
    requires GateFired(s.requests[id], t.requests[id], g.id) && !t.requests[id].gates[g.id].evidence.Notified?
    ensures Ok(c, t, own, busy)
  {
    hide Ok, RequestOk, NoticesOk, NoNewNotice;
    FiredWithoutNotice(s.requests, id, t.requests[id], g.id);
    NoticesIn(c, s, own, busy);
    ReplaceNotices(s.requests, s.consumedNotices, id, t.requests[id]);
    ReplaceOk(c, s, t, own, busy, id, t.requests[id]);
  }

  lemma ConditionKeeps(c: Config, id: RequestId, r: Request, g: Gate)
    requires g.id in Defs(id) && Defs(id)[g.id] == g && g.body.ConditionGate? && Firable(c, id, r, g.id)
    ensures RequestOk(c, id, FireCondition(r, id, g)) && !FireCondition(r, id, g).state.Authorized?
    ensures !FireCondition(r, id, g).gates[g.id].evidence.Notified?
  {
    var actual := ResolvePath(Document(id), g.body.path);
    if actual.Some? && Compare(actual.value, g.body.test) {
      PassKeeps(c, id, r, g.id, Passed, Observed(actual.value));
    } else {
      StopKeeps(c, id, r, g.id);
    }
  }

  /** The execute gate is about to call its target itself. */
  predicate DirectFiring(c: Config, g: Gate)
    requires g.body.ExecuteGate?
  {
    c.policy.version != 2 && c.policy.executionEnabled && !g.body.simulationOnly
  }

  lemma DirectIsLive(c: Config, id: RequestId, r: Request, g: Gate)
    requires RequestOk(c, id, r) && g.id in Defs(id) && Defs(id)[g.id] == g && g.body.ExecuteGate? && DirectFiring(c, g)
    ensures Live(c, id)
  {
    hide ShapeOk, FlagsOk, HistoryOk, ApprovalsOk, ChecksOk, TokenOk, AcceptedWorkflow;
    forall e | e in Defs(id) && Defs(id)[e].body.ExecuteGate? ensures e == g.id {
      OneExecute(id, c.policy.executionEnabled, e, g.id);
    }
  }

  /** Before a callback: the request has moved on soundly, or nothing but the clock has. */
  lemma PrepareOk(c: Config, s: State, own: iset<Key>, busy: set<RequestId>, id: RequestId, g: Gate)
    requires AboutToFire(c, s, own, busy, id, g)
    ensures var m := Prepare(c, s, id, id.hash.workflow, g);
            && Ok(c, m.state, own, busy)
            && m.state.active == s.active && s.tick <= m.state.tick
            && m.state.requests == s.requests[id := m.state.requests[id]]
            && (!m.Finished? ==> m.state == s.(tick := m.state.tick))
            && m.state.world == s.world
  {
    hide Ok, RequestOk;
    var r := s.requests[id];
    var w := id.hash.workflow;
    match g.body
    case SchemaGate =>
      PassKeeps(c, id, r, g.id, Passed, Normalized);
      FinishedOk(c, s, Prepare(c, s, id, w, g).state, own, busy, id, g);
    case ConditionGate(_, _) =>
      ConditionKeeps(c, id, r, g);
      FinishedOk(c, s, Prepare(c, s, id, w, g).state, own, busy, id, g);
    case ToolGate(_, _, _, _, _) =>
      BreakKeeps(c, id, r, g.id, true);
      PrepareReadOk(c, s, own, busy, id, g);
    case NotifyGate(_, _) =>
      BreakKeeps(c, id, r, g.id, true);
      PrepareReadOk(c, s, own, busy, id, g);
    case ApprovalGate(level, ttl) =>
      WaitKeeps(c, id, r, g.id, level, ttl);
      FinishedOk(c, s, Prepare(c, s, id, w, g).state, own, busy, id, g);
    case ExecuteGate(_, _) => PrepareExecuteOk(c, s, own, busy, id, g);
  }

  lemma PrepareReadOk(c: Config, s: State, own: iset<Key>, busy: set<RequestId>, id: RequestId, g: Gate)
    requires AboutToFire(c, s, own, busy, id, g) && (g.body.ToolGate? || g.body.NotifyGate?)
    requires RequestOk(c, id, Break(s.requests[id], g.id, true))
    ensures var m := Prepare(c, s, id, id.hash.workflow, g);
            && Ok(c, m.state, own, busy) && m.state.active == s.active && s.tick <= m.state.tick
            && m.state.requests == s.requests[id := m.state.requests[id]]
            && (!m.Finished? ==> m.state == s.(tick := m.state.tick))
            && m.state.world == s.world
  {
    hide Ok, RequestOk;
    var m := Prepare(c, s, id, id.hash.workflow, g);
    if m.Finished? {
      FinishedOk(c, s, m.state, own, busy, id, g);
    } else {
      assert s.requests == s.requests[id := s.requests[id]];
    }
  }

  lemma TickOk(c: Config, s: State, own: iset<Key>, busy: set<RequestId>, tick: nat)
    requires Ok(c, s, own, busy)
    ensures Ok(c, s.(tick := tick), own, busy)
  {
  }

  /** What the execute gate may come to before a callback. */
  predicate ExecuteFired(r: Request, g: Gate, r': Request)
    requires g.body.ExecuteGate?
  {
    || r' == Stop(r, g.id) || r' == BreakExecute(r, g.id)
    || r' == Pass(r, g.id, Rehearsed, WouldCall(g.body.target)).(state := Simulated, executionPossible := false)
  }

  lemma PrepareExecuteCases(c: Config, s: State, id: RequestId, w: Workflow, g: Gate)
    requires id in s.requests && g.body.ExecuteGate?
    ensures var m := PrepareExecute(c, s, id, w, g);
            && s.tick <= m.state.tick
            && (m.Finished? ==> id in m.state.requests && ExecuteFired(s.requests[id], g, m.state.requests[id])
                                && m.state == s.(requests := s.requests[id := m.state.requests[id]],
                                     tick := m.state.tick))
            && (!m.Finished? ==> m.state == s.(tick := m.state.tick))
  {
    hide Stop, BreakExecute, Pass, AnyExpired, ApprovalAncestors;
  }

  lemma ExecuteFiredKeeps(c: Config, id: RequestId, r: Request, g: Gate, r': Request)
    requires g.body.ExecuteGate? && g.id in Defs(id) && Defs(id)[g.id] == g && Firable(c, id, r, g.id)
             && ExecuteFired(r, g, r')
    ensures RequestOk(c, id, r') && !r'.state.Authorized? && GateFired(r, r', g.id)
            && !r'.gates[g.id].evidence.Notified?
  {
    hide RequestOk, Firable;
    StopKeeps(c, id, r, g.id);
    BreakKeeps(c, id, r, g.id, true);
    ExecuteKeeps(c, id, r, g.id, WouldCall(g.body.target));
  }

  lemma PrepareExecuteOk(c: Config, s: State, own: iset<Key>, busy: set<RequestId>, id: RequestId, g: Gate)
    requires AboutToFire(c, s, own, busy, id, g) && g.body.ExecuteGate?
    ensures var m := PrepareExecute(c, s, id, id.hash.workflow, g);
            && Ok(c, m.state, own, busy) && m.state.active == s.active && s.tick <= m.state.tick
            && m.state.requests == s.requests[id := m.state.requests[id]]
            && (!m.Finished? ==> m.state == s.(tick := m.state.tick))
            && m.state.world == s.world
  {
    hide Ok, RequestOk, PrepareExecute, ExecuteFired, GateFired;
    var m := PrepareExecute(c, s, id, id.hash.workflow, g);
    PrepareExecuteCases(c, s, id, id.hash.workflow, g);
    if m.Finished? {
      ExecuteFiredKeeps(c, id, s.requests[id], g, m.state.requests[id]);
      FinishedOk(c, s, m.state, own, busy, id, g);
    } else {
      TickOk(c, s, own, busy, m.state.tick);
      assert s.requests == s.requests[id := s.requests[id]];
    }
  }

  lemma ConcludeOk(c: Config, s: State, own: iset<Key>, busy: set<RequestId>, id: RequestId, g: Gate, reply: Reply)
    requires AboutToFire(c, s, own, busy, id, g)
    requires g.body.ToolGate? || g.body.NotifyGate? || (g.body.ExecuteGate? && DirectFiring(c, g))
    ensures var t := Conclude(c, s, id, g, reply);
            && Ok(c, t, own, busy) && t.active == s.active && s.tick <= t.tick
            && t.requests == s.requests[id := t.requests[id]]
            && t.world == s.world
  {
    hide Ok, RequestOk;
    match g.body
    case ToolGate(_, _, _, _, _) => ConcludeReadOk(c, s, own, busy, id, g, reply);
    case NotifyGate(_, _) => ConcludeNotifyOk(c, s, own, busy, id, g, reply);
    case _ => ConcludeTargetOk(c, s, own, busy, id, g, reply);
  }

  lemma ConcludeReadOk(c: Config, s: State, own: iset<Key>, busy: set<RequestId>, id: RequestId, g: Gate, reply: Reply)
    requires AboutToFire(c, s, own, busy, id, g) && g.body.ToolGate?
    ensures var t := ConcludeRead(c, s, id, g, reply);
            && Ok(c, t, own, busy) && t.active == s.active && s.tick <= t.tick
            && t.requests == s.requests[id := t.requests[id]]
            && t.world == s.world
  {
    hide Ok, RequestOk;
    var r := s.requests[id];
    var t := ConcludeRead(c, s, id, g, reply);
    BreakKeeps(c, id, r, g.id, true);
    StopKeeps(c, id, r, g.id);
    if t.tick != s.tick {
      PassKeeps(c, id, r, g.id, Passed, ReadResult(reply.value, Now(c, s)));
    }
    FinishedOk(c, s, t, own, busy, id, g);
  }

  lemma ConcludeNotifyOk(c: Config, s: State, own: iset<Key>, busy: set<RequestId>, id: RequestId, g: Gate,
      reply: Reply)
    requires AboutToFire(c, s, own, busy, id, g) && g.body.NotifyGate?
    ensures var t := ConcludeNotify(c, s, id, g, reply);
            && Ok(c, t, own, busy) && t.active == s.active && s.tick <= t.tick
            && t.requests == s.requests[id := t.requests[id]]
            && t.world == s.world
  {
    hide Ok, RequestOk, ConcludeNotify, Notify, Stop, Break, NoticeNames, NoticesOk, NoNewNotice;
    var r := s.requests[id];
    var t := ConcludeNotify(c, s, id, g, reply);
    NotifyKeeps(c, id, r, g, reply);
    NotifyCases(c, s, id, g, reply);
    NoticesIn(c, s, own, busy);
    if t.requests[id].gates[g.id].evidence.Notified? {
      AddNotice(s.requests, s.consumedNotices, id, t.requests[id], g.id);
    } else {
      FiredWithoutNotice(s.requests, id, t.requests[id], g.id);
      ReplaceNotices(s.requests, s.consumedNotices, id, t.requests[id]);
    }
    ReplaceOk(c, s, t, own, busy, id, t.requests[id]);
  }

  /** The three ways a notification can end. */
  lemma NotifyCases(c: Config, s: State, id: RequestId, g: Gate, reply: Reply)
    requires id in s.requests && g.body.NotifyGate?
    ensures var t := ConcludeNotify(c, s, id, g, reply);
            && t == s.(requests := t.requests, tick := t.tick, consumedNotices := t.consumedNotices) && s.tick <= t.tick
            && id in t.requests && t.requests == s.requests[id := t.requests[id]]
            && GateFired(s.requests[id], t.requests[id], g.id)
            && (|| (!reply.Sends? && NotNotified(s, t, id, g, Break(s.requests[id], g.id, true)))
                || (reply.Sends? && NotNotified(s, t, id, g,
                     Stop(s.requests[id].(notificationDelivered := reply.notice.delivered), g.id)))
                || (reply.Sends? && NewlyNotified(c, s, t, id, g, reply.notice)))
  {
  }

  predicate NotNotified(s: State, t: State, id: RequestId, g: Gate, r: Request) {
    id in t.requests && t.requests[id] == r && t.consumedNotices == s.consumedNotices
    && g.id in r.gates && !r.gates[g.id].evidence.Notified?
  }

  predicate NewlyNotified(c: Config, s: State, t: State, id: RequestId, g: Gate, n: Notice)
    requires g.body.NotifyGate?
  {
    && id in s.requests && id in t.requests && t.requests[id] == Notify(s.requests[id], g.id, n)
    && NoticeNames(id, g, n) && (c.policy.enforcing ==> n.delivered)
    && n.noticeId.Some? && n.noticeId.value !in s.consumedNotices
    && t.consumedNotices == s.consumedNotices + {n.noticeId.value}
  }

  lemma NotifyKeeps(c: Config, id: RequestId, r: Request, g: Gate, reply: Reply)
    requires g.id in Defs(id) && Defs(id)[g.id] == g && g.body.NotifyGate? && Firable(c, id, r, g.id)
    ensures RequestOk(c, id, Break(r, g.id, true)) && !Break(r, g.id, true).state.Authorized?
    ensures reply.Sends? ==>
              var r' := r.(notificationDelivered := reply.notice.delivered);
              && !Stop(r', g.id).state.Authorized? && RequestOk(c, id, Stop(r', g.id))
              && !Notify(r, g.id, reply.notice).state.Authorized?
              && (NoticeNames(id, g, reply.notice) && (c.policy.enforcing ==> reply.notice.delivered) ==>
                    RequestOk(c, id, Notify(r, g.id, reply.notice)))
  {
    hide RequestOk, CheckHolds, NoticeNames;
    BreakKeeps(c, id, r, g.id, true);
    if reply.Sends? {
      AdvancingHasNoToken(c, id, r);
      NotifyChecks(c, id, g, reply.notice);
      var r' := r.(notificationDelivered := reply.notice.delivered);
      DeliveryKeeps(c, id, r, reply.notice.delivered);
      assert Ready(r', g);
      StopKeeps(c, id, r', g.id);
      if NoticeNames(id, g, reply.notice) && (c.policy.enforcing ==> reply.notice.delivered) {
        PassKeeps(c, id, r', g.id, if reply.notice.delivered then Passed else Rehearsed, Notified(reply.notice));
      }
    }
  }

  lemma AdvancingHasNoToken(c: Config, id: RequestId, r: Request)
    requires RequestOk(c, id, r) && r.state.Processing?
    ensures r.token.None?
  {
    hide Lawful, ShapeOk, HistoryOk, ApprovalsOk, ChecksOk;
  }

  lemma NotifyChecks(c: Config, id: RequestId, g: Gate, n: Notice)
    requires g.body.NotifyGate?
    ensures CheckHolds(c, id, g, GateRecord(Stopped, Problem))
    ensures NoticeNames(id, g, n) && (c.policy.enforcing ==> n.delivered) ==>
              CheckHolds(c, id, g, GateRecord(if n.delivered then Passed else Rehearsed, Notified(n)))
  {
  }

  /** The request after a notice it accepts. */
  function Notify(r: Request, g: string, n: Notice): (r': Request)
    ensures GateFired(r, r', g) && r'.gates[g].evidence == Notified(n)
  {
    Pass(r.(notificationDelivered := n.delivered), g, if n.delivered then Passed else Rehearsed, Notified(n))
  }

  lemma ConcludeTargetOk(c: Config, s: State, own: iset<Key>, busy: set<RequestId>, id: RequestId, g: Gate,
      reply: Reply)
    requires AboutToFire(c, s, own, busy, id, g) && g.body.ExecuteGate? && DirectFiring(c, g)
    ensures var t := ConcludeTarget(s, id, g, reply);
            && Ok(c, t, own, busy) && t.active == s.active && s.tick <= t.tick
            && t.requests == s.requests[id := t.requests[id]]
            && t.world == s.world
  {
    hide Ok, RequestOk;
    var r := s.requests[id];
    var t := ConcludeTarget(s, id, g, reply);
    BreakKeeps(c, id, r, g.id, true);
    if reply.Returns? {
      ExecuteKeeps(c, id, r, g.id, CalledWith(reply.value));
    }
    FiredWithoutNotice(s.requests, id, t.requests[id], g.id);
    NoticesIn(c, s, own, busy);
    ReplaceNotices(s.requests, s.consumedNotices, id, t.requests[id]);
    DirectIsLive(c, id, r, g);
    CallTargetOk(c, s, t, own, busy, id, t.requests[id]);
  }

  // ---- Issuing -------------------------------------------------------------------------------

  /** A token for `id` reaches the store: nothing happens, or one issued row appears. */
  lemma RecordedRows(db: S.Db, token: Token, snapshot: S.Snapshot)
    ensures var o := S.Recorded(db, token, snapshot);
            var a := token.claims.authorizationId;
            && (forall b | b in db.rows :: b in o.db.rows && o.db.rows[b].token == db.rows[b].token
                  && o.db.rows[b].requestId == db.rows[b].requestId && o.db.rows[b].state == db.rows[b].state)
            && (forall b | b in o.db.rows && b !in db.rows :: b == a)
            && (a in o.db.rows && a !in db.rows ==>
                  && o.db.rows[a].token == token && o.db.rows[a].requestId == token.claims.requestId
                  && o.db.rows[a].state.Issued?)
            && (o.Stored? ==> a in o.db.rows && o.db.rows[a].token == token)
            && o.db.requests.Keys == db.requests.Keys
  {
  }

  lemma RecordedCarried(db: S.Db, token: Token, snapshot: S.Snapshot, requests: Requests)
    requires token.claims.requestId in requests
    ensures StoreCarried(db, S.Recorded(db, token, snapshot).db, requests)
  {
    hide S.Recorded;
    RecordedRows(db, token, snapshot);
  }

  lemma IssueRows(c: Config, requests: Requests, db: S.Db, own: iset<Key>, id: RequestId, r: Request, token: Token,
      snapshot: S.Snapshot)
    requires RowsOk(c, requests, db.rows, own) && KeyOf(id) in own && c.policy.version == 2
    requires id in requests && Open(requests[id])
    requires token.claims.requestId == id && TokenBinds(c, id, r, token.claims)
    requires r.state.Failed? || (r.state.Authorized? && r.authorization.Some?
               && r.authorization.value.id == token.claims.authorizationId
                                 && r.token == Some(token) && S.Recorded(db, token, snapshot).Stored?)
    ensures RowsOk(c, requests[id := r], S.Recorded(db, token, snapshot).db.rows, own)
  {
    hide S.Recorded, TokenBinds, Recorded, RowMatches, RowNamed;
    NoRowsYet(c, requests, db.rows, own, id);
    RecordedRows(db, token, snapshot);
    var a := token.claims.authorizationId;
    var rows' := S.Recorded(db, token, snapshot).db.rows;
    assert a in db.rows ==> db.rows[a].requestId != id;
    if a in db.rows { assert RowNamed(a, db.rows[a]); OtherToken(a, db.rows[a], token); }
    var requests' := requests[id := r];
    forall b | b in rows'
      ensures RowNamed(b, rows'[b])
      ensures KeyOf(rows'[b].requestId) in own ==>
                && rows'[b].requestId in requests' && RowMatches(c, requests'[rows'[b].requestId], b, rows'[b])
                && TokenBinds(c, rows'[b].requestId, requests'[rows'[b].requestId], rows'[b].token.claims)
    {
      if b in db.rows {
        SameRowMatches(c, b, db.rows[b], rows'[b]);
      } else {
        NewRowMatches(c, r, b, rows'[b]);
      }
    }
    IssueRecords(requests, db, id, r, token, snapshot);
  }

  lemma OtherToken(a: string, row: S.Row, token: Token)
    requires RowNamed(a, row) && row.requestId != token.claims.requestId
    ensures row.token != token
  {
  }

  /** A row counts by what it is named, its state and its token. */
  lemma SameRowMatches(c: Config, a: string, before: S.Row, after: S.Row)
    requires RowNamed(a, before) && after.token == before.token && after.requestId == before.requestId
             && after.state == before.state
    ensures RowNamed(a, after)
    ensures forall r :: RowMatches(c, r, a, before) <==> RowMatches(c, r, a, after)
  {
  }

  lemma NewRowMatches(c: Config, r: Request, a: string, row: S.Row)
    requires c.policy.version == 2 && row.token.claims.requestId == row.requestId
             && row.token.claims.authorizationId == a
    requires r.state.Failed? || (r.state.Authorized? && r.authorization.Some? && r.authorization.value.id == a)
    ensures RowNamed(a, row) && RowMatches(c, r, a, row)
  {
  }

  /** The authorized requests, this one perhaps among them, have their rows. */
  lemma IssueRecords(requests: Requests, db: S.Db, id: RequestId, r: Request, token: Token, snapshot: S.Snapshot)
    requires forall x | x in requests && requests[x].state.Authorized? :: Recorded(requests[x], x, db.rows)
    requires token.claims.requestId == id
    requires r.state.Failed? || (r.state.Authorized? && r.authorization.Some?
               && r.authorization.value.id == token.claims.authorizationId
                                 && r.token == Some(token) && S.Recorded(db, token, snapshot).Stored?)
    requires token.claims.authorizationId in db.rows ==> db.rows[token.claims.authorizationId].token != token
    ensures var requests', rows' := requests[id := r], S.Recorded(db, token, snapshot).db.rows;
            forall x | x in requests' && requests'[x].state.Authorized? :: Recorded(requests'[x], x, rows')
  {
    hide S.Recorded;
    RecordedRows(db, token, snapshot);
    var requests', rows' := requests[id := r], S.Recorded(db, token, snapshot).db.rows;
    forall x | x in requests' && requests'[x].state.Authorized? ensures Recorded(requests'[x], x, rows') {
      if x != id { assert Recorded(requests[x], x, db.rows); }
    }
  }

  lemma IssueWorld(w: P.World, token: Token, snapshot: S.Snapshot)
    requires P.Consistent(w)
    ensures P.Consistent(w.(db := S.Recorded(w.db, token, snapshot).db))
  {
    hide S.Recorded;
    P.ApplyKeepsConsistent(w, P.Record(token, snapshot));
  }

  lemma IssueOk(c: Config, s: State, t: State, own: iset<Key>, busy: set<RequestId>, id: RequestId, r: Request,
      token: Token, snapshot: S.Snapshot)
    requires Ok(c, s, own, busy) && id in s.requests && id in busy && Open(s.requests[id]) && c.policy.version == 2
    requires RequestOk(c, id, r) && token.claims.requestId == id && TokenBinds(c, id, r, token.claims)
    requires r.state.Failed? || (r.state.Authorized? && r.authorization.Some?
               && r.authorization.value.id == token.claims.authorizationId
                                 && r.token == Some(token) && S.Recorded(s.world.db, token, snapshot).Stored?)
    requires t.requests == s.requests[id := r] && t.workflows == s.workflows && t.idempotency == s.idempotency
    requires t.world == s.world.(db := S.Recorded(s.world.db, token, snapshot).db) && t.targetCalls == s.targetCalls
    requires NoNewNotice(s.requests, id, r) && t.consumedNotices == s.consumedNotices
    ensures Ok(c, t, own, busy)
  {
    hide IndexOk, RowsOk, CallsOk, RequestOk, P.Consistent, AcceptedPolicy, S.Recorded, TokenBinds, NoticesOk,
      NoNewNotice;
    ReplaceNotices(s.requests, s.consumedNotices, id, r);
    ReplaceIndex(s.requests, s.workflows, s.idempotency, busy, id, r);
    IssueRows(c, s.requests, s.world.db, own, id, r, token, snapshot);
    IssueWorld(s.world, token, snapshot);
    ReplaceCalls(c, s.requests, s.targetCalls, id, r);
  }

  /** The token was signed and reached the store, whether or not the call to it returned. */
  lemma SignedOk(c: Config, s: State, t: State, own: iset<Key>, busy: set<RequestId>, id: RequestId, g: Gate,
      now: int, a: string, nonce: string, token: Token)
    requires AboutToFire(c, s, own, busy, id, g) && g.body.ExecuteGate? && c.policy.version == 2
    requires AllHoldApproval(s.requests[id], Awaited(id, g.id)) && c.authority.Some?
    requires Issue(c.authority.value, ClaimsFor(c, id, s.requests[id], g, Awaited(id, g.id), now, a, nonce))
             == Some(token)
    requires var granted := Grant(s.requests[id], g.id, token);
             var recorded := S.Recorded(s.world.db, token, SnapshotOf(id, granted));
             && id in t.requests
             && (t.requests[id] == BreakExecute(s.requests[id], g.id)
                  || (t.requests[id] == granted && recorded.Stored?))
             && t == s.(requests := s.requests[id := t.requests[id]], tick := t.tick, signed := t.signed,
                        world := s.world.(db := recorded.db))
    ensures Ok(c, t, own, busy) && StoreCarried(s.world.db, t.world.db, t.requests)
  {
    hide Ok, RequestOk, S.Recorded, Issue, TokenBinds, ClaimsFor, SnapshotOf;
    var r := s.requests[id];
    GrantOk(c, id, r, g, now, a, nonce, token);
    BreakKeeps(c, id, r, g.id, true);
    FiredWithoutNotice(s.requests, id, t.requests[id], g.id);
    IssueOk(c, s, t, own, busy, id, t.requests[id], token, SnapshotOf(id, Grant(r, g.id, token)));
    RecordedCarried(s.world.db, token, SnapshotOf(id, Grant(r, g.id, token)), t.requests);
  }

  lemma ConcludeIssueOk(c: Config, s: State, own: iset<Key>, busy: set<RequestId>, id: RequestId, g: Gate, reply: Reply)
    requires AboutToFire(c, s, own, busy, id, g) && g.body.ExecuteGate? && c.policy.version == 2
    ensures var t := ConcludeIssue(c, s, id, id.hash.workflow, g, reply);
            && Ok(c, t, own, busy) && t.active == s.active && s.tick <= t.tick
            && t.requests == s.requests[id := t.requests[id]]
            && StoreCarried(s.world.db, t.world.db, t.requests)
  {
    hide Ok, RequestOk, S.Recorded, Issue, TokenBinds, ClaimsFor, SnapshotOf, Grant, AllHoldApproval;
    var r := s.requests[id];
    var t := ConcludeIssue(c, s, id, id.hash.workflow, g, reply);
    var ids := Awaited(id, g.id);
    BreakKeeps(c, id, r, g.id, true);
    if !reply.Names? || !AllHoldApproval(r, ids) || c.authority.None?
       || Issue(c.authority.value, ClaimsFor(c, id, r, g, ids, Now(c, s), reply.authorizationId, reply.nonce)).None? {
      FinishedOk(c, s, t, own, busy, id, g);
    } else {
      var token := Issue(c.authority.value,
        ClaimsFor(c, id, r, g, ids, Now(c, s), reply.authorizationId, reply.nonce)).value;
      if reply.fate.FailsFirst? {
        FinishedOk(c, s, t, own, busy, id, g);
      } else {
        SignedOk(c, s, t, own, busy, id, g, Now(c, s), reply.authorizationId, reply.nonce, token);
      }
    }
  }

  lemma GrantOk(c: Config, id: RequestId, r: Request, g: Gate, now: int, a: string, nonce: string, token: Token)
    requires g.id in Defs(id) && Defs(id)[g.id] == g && g.body.ExecuteGate? && Firable(c, id, r, g.id)
    requires AllHoldApproval(r, Awaited(id, g.id)) && c.authority.Some?
    requires Issue(c.authority.value, ClaimsFor(c, id, r, g, Awaited(id, g.id), now, a, nonce)) == Some(token)
    ensures RequestOk(c, id, Grant(r, g.id, token)) && token.claims.requestId == id
    ensures TokenBinds(c, id, Grant(r, g.id, token), token.claims)
            && TokenBinds(c, id, BreakExecute(r, g.id), token.claims)
  {
    hide ShapeOk, HistoryOk, ApprovalsOk, ChecksOk, TokenBinds, FlagsOk;
    SignedTokenBinds(c, id, r, Grant(r, g.id, token), g.id, now, c.authority.value, a, nonce, token);
    SignedTokenBinds(c, id, r, BreakExecute(r, g.id), g.id, now, c.authority.value, a, nonce, token);
    GrantKeeps(c, id, r, g.id, token);
  }

  // ---- Cancelling, store steps ----------------------------------------------------------------

  /** Rows across a store step: none appears or vanishes, none changes hands, a cancelled one
      stays cancelled. */
  ghost predicate RowsCarried(before: map<string, S.Row>, after: map<string, S.Row>) {
    && after.Keys == before.Keys
    && forall a | a in before :: RowCarried(before[a], after[a])
  }

  lemma CarriedRowsOk(c: Config, requests: Requests, before: map<string, S.Row>, after: map<string, S.Row>,
      own: iset<Key>)
    requires RowsOk(c, requests, before, own) && RowsCarried(before, after)
    ensures RowsOk(c, requests, after, own)
  {
    hide TokenBinds;
    forall a | a in after && KeyOf(after[a].requestId) in own
      ensures after[a].requestId in requests && RowMatches(c, requests[after[a].requestId], a, after[a])
              && TokenBinds(c, after[a].requestId, requests[after[a].requestId], after[a].token.claims)
    {
      assert RowMatches(c, requests[before[a].requestId], a, before[a]);
    }
    forall id | id in requests && requests[id].state.Authorized? ensures Recorded(requests[id], id, after) {
      assert Recorded(requests[id], id, before);
    }
  }

  lemma StepCarriesRows(w: P.World, step: P.Step)
    requires P.Consistent(w) && !step.Record?
    ensures RowsCarried(w.db.rows, P.Apply(w, step).db.rows)
    ensures P.Apply(w, step).db.requests.Keys == w.db.requests.Keys
  {
    hide P.Apply, P.RunOk, P.OneHolder, P.DispatchOk;
    P.StepsFollowLifecycle(w, step);
    StepKeepsKeys(w, step);
    forall a | a in w.db.rows
      ensures S.RowStep(w.db.rows[a], P.Apply(w, step).db.rows[a])
    {
    }
  }

  lemma StepKeepsKeys(w: P.World, step: P.Step)
    requires !step.Record?
    ensures P.Apply(w, step).db.rows.Keys == w.db.rows.Keys
    ensures P.Apply(w, step).db.requests.Keys == w.db.requests.Keys
  {
    hide S.Recorded, S.Show, S.Names, P.Current, P.Active, P.ClaimsFit, P.OnlySimulates, S.RevokedFirst;
    if P.RunOnly(step) {
      P.RunOnlyTouches(w, step);
    } else if step.RevokeAll? {
      S.RevocationTouches(w.db, step.ids, |step.ids|, step.actor, step.at, "");
    }
  }

  lemma WorldStepOk(c: Config, s: State, own: iset<Key>, busy: set<RequestId>, step: P.Step)
    requires Ok(c, s, own, busy) && !step.Record?
    ensures Ok(c, s.(world := P.Apply(s.world, step)), own, busy)
    ensures StoreCarried(s.world.db, P.Apply(s.world, step).db, s.requests)
  {
    hide RequestsOk, IndexOk, RowsOk, CallsOk, P.Consistent, AcceptedPolicy, P.Apply;
    P.ApplyKeepsConsistent(s.world, step);
    StepCarriesRows(s.world, step);
    CarriedRowsOk(c, s.requests, s.world.db.rows, P.Apply(s.world, step).db.rows, own);
  }

  /** A withdrawal that is accepted leaves its row cancelled. */
  lemma WithdrawnIsCancelled(w: P.World, a: string, now: int)
    requires Withdrawable(w.db, a)
    ensures var rows := P.Apply(w, P.Withdraw(a, now)).db.rows; a in rows && rows[a].state.Cancelled?
  {
    hide S.Recorded, S.Begun, S.Projected, S.RevokedFirst;
  }

  lemma CancelRows(c: Config, requests: Requests, rows: map<string, S.Row>, own: iset<Key>, id: RequestId, r: Request)
    requires RowsOk(c, requests, rows, own) && KeyOf(id) in own && id in requests
    requires r.state.Cancelled?
    requires requests[id].state.WaitingForApproval?
             || (requests[id].state.Authorized? && r.authorization.Some? && requests[id].authorization.Some?
                 && r.authorization.value.id == requests[id].authorization.value.id
                 && r.authorization.value.id in rows && rows[r.authorization.value.id].state.Cancelled?)
    requires r.gates == requests[id].gates && r.trace == requests[id].trace
    ensures RowsOk(c, requests[id := r], rows, own)
  {
    hide TokenBinds;
    var requests' := requests[id := r];
    forall a | a in rows && KeyOf(rows[a].requestId) in own
      ensures rows[a].requestId in requests' && RowMatches(c, requests'[rows[a].requestId], a, rows[a])
              && TokenBinds(c, rows[a].requestId, requests'[rows[a].requestId], rows[a].token.claims)
    {
      assert RowMatches(c, requests[rows[a].requestId], a, rows[a]);
      if rows[a].requestId == id {
        SameGatesSameToken(c, id, requests[id], r, rows[a].token.claims);
      }
    }
    forall x | x in requests' && requests'[x].state.Authorized? ensures Recorded(requests'[x], x, rows) {
      assert Recorded(requests[x], x, rows);
    }
  }

  lemma CancelCalls(c: Config, requests: Requests, calls: seq<RequestId>, id: RequestId, r: Request)
    requires CallsOk(c, requests, calls) && id in requests
    requires requests[id].state.WaitingForApproval? || requests[id].state.Authorized?
    ensures CallsOk(c, requests[id := r], calls)
  {
  }

  lemma CloseIndex(requests: Requests, workflows: map<RequestId, Workflow>, idempotency: map<Key, RequestId>,
      busy: set<RequestId>, id: RequestId, r: Request)
    requires IndexOk(requests, workflows, idempotency, busy) && id in requests && Terminal(r.state)
    ensures IndexOk(requests[id := r], workflows - {id}, idempotency, busy)
  {
  }

  /** The request, open or authorized, becomes cancelled; its row, if any, already is. */
  lemma CancelledOk(c: Config, s: State, own: iset<Key>, busy: set<RequestId>, id: RequestId)
    requires Ok(c, s, own, busy) && id in s.requests && id !in busy && !Terminal(s.requests[id].state)
    requires s.requests[id].authorization.Some? ==>
               var a := s.requests[id].authorization.value.id;
               a in s.world.db.rows && s.world.db.rows[a].state.Cancelled?
    ensures Ok(c, Release(Put(s, id, MarkCancelled(s.requests[id])), id), own, busy)
  {
    hide IndexOk, RowsOk, CallsOk, P.Consistent, AcceptedPolicy, ShapeOk, HistoryOk, ApprovalsOk, ChecksOk, TokenOk,
      Lawful, NoticesOk;
    var r := s.requests[id];
    var r' := MarkCancelled(r);
    NotProcessing(s.requests, s.workflows, s.idempotency, busy, id);
    CancelKeeps(c, id, r);
    assert NoNewNotice(s.requests, id, r');
    ReplaceNotices(s.requests, s.consumedNotices, id, r');
    CancelRows(c, s.requests, s.world.db.rows, own, id, r');
    CancelCalls(c, s.requests, s.targetCalls, id, r');
    CloseIndex(s.requests, s.workflows, s.idempotency, busy, id, r');
    RequestsStillOk(c, s.requests, own, id, r');
  }

  lemma RequestsStillOk(c: Config, requests: Requests, own: iset<Key>, id: RequestId, r: Request)
    requires RequestsOk(c, requests, own) && KeyOf(id) in own && RequestOk(c, id, r)
    ensures RequestsOk(c, requests[id := r], own)
  {
    hide RequestOk;
  }

  lemma NotProcessing(requests: Requests, workflows: map<RequestId, Workflow>, idempotency: map<Key, RequestId>,
      busy: set<RequestId>, id: RequestId)
    requires IndexOk(requests, workflows, idempotency, busy) && id in requests && id !in busy
    ensures !requests[id].state.Processing?
  {
  }

  lemma CancelOk(c: Config, s: State, own: iset<Key>, id: RequestId, requester: string, fate: Fate)
    requires Ok(c, s, own, s.active)
    ensures var t := CancelRequest(c, s, id, requester, fate).state; Ok(c, t, own, s.active) && Frame(s, t)
  {
    hide Ok, StoreCarried, P.Apply;
    NothingMoves(s);
    if CancelProblem(c, s, id, requester).None? {
      var r := s.requests[id];
      if r.authorization.None? {
        CancelledOk(c, s, own, s.active, id);
        CancelledFrame(s, s, id);
      } else if c.hasStore {
        var step := P.Withdraw(r.authorization.value.id, Now(c, s));
        var s' := s.(tick := s.tick + 1, world := if fate.FailsFirst? then s.world else P.Apply(s.world, step));
        WorldStepOk(c, s, own, s.active, step);
        TickOk(c, s, own, s.active, s.tick + 1);
        TickOk(c, s.(world := P.Apply(s.world, step)), own, s.active, s.tick + 1);
        if fate.Commits? && Withdrawable(s.world.db, r.authorization.value.id) {
          WithdrawnIsCancelled(s.world, r.authorization.value.id, Now(c, s));
          CancelledOk(c, s', own, s.active, id);
          CancelledFrame(s, s', id);
        }
      }
    }
  }

  lemma CancelledFrame(s: State, s': State, id: RequestId)
    requires Frame(s, s') && s'.requests == s.requests && id in s.requests && id !in s.active
             && !Terminal(s.requests[id].state)
    ensures Frame(s, Release(Put(s', id, MarkCancelled(s.requests[id])), id))
  {
  }

  // ---- Whole operations ---------------------------------------------------------------------

  /** Requests made from inside callbacks stay within the keys this engine answers for. */
  ghost predicate EnvWithin(env: Env, own: iset<Key>) {
    env.Answer? ==> CallsWithin(env.nested, own) && EnvWithin(env.rest, own)
  }

  ghost predicate CallsWithin(calls: Calls, own: iset<Key>) {
    calls.More? ==> CallWithin(calls.head, own) && CallsWithin(calls.tail, own)
  }

  ghost predicate CallWithin(call: Call, own: iset<Key>) {
    match call
    case RequestCall(args, env) => Key(args.requester, args.key) in own && EnvWithin(env, own)
    case IngestCall(_, _, env) => EnvWithin(env, own)
    case _ => true
  }

  /** The graph facts checked at load time rule out a stuck scan. */
  lemma SomeGateReady(c: Config, id: RequestId, r: Request)
    requires RequestOk(c, id, r) && r.state.Processing?
    ensures exists j | 0 <= j < |id.hash.workflow.gates| :: Ready(r, id.hash.workflow.gates[j])
  {
    hide FlagsOk, HistoryOk, ApprovalsOk, ChecksOk, TokenOk, ControlMatches, ExecutePathOk, GraphOk;
    var gates, defs := id.hash.workflow.gates, Defs(id);
    var e :| ExecuteIs(id.hash.workflow, defs, e) && ExecutePathOk(defs, e, c.policy.executionEnabled);
    assert GateFits(defs[e], r.gates[e], r.state);
    var m := MinimalPending(id, r, e);
    DefinitionsLookup(gates);
    var j :| 0 <= j < |gates| && gates[j] == defs[m];
    assert Ready(r, gates[j]);
  }

  lemma MinimalPending(id: RequestId, r: Request, e: string) returns (m: string)
    requires GraphOk(Defs(id)) && ShapeOk(id, r) && r.state.Processing? && e in PendingSet(r)
    ensures m in PendingSet(r) && m in Defs(id)
    ensures forall d | d in Defs(id)[m].needs :: d in r.gates && Satisfies(r.gates[d].status)
  {
    var defs := Defs(id);
    var g := Requirements(defs);
    m := SomeGateIsMinimal(g, PendingSet(r), e);
    forall d | d in defs[m].needs ensures d in r.gates && Satisfies(r.gates[d].status) {
      assert m in g && d in g[m] && d in g;
      assert GateFits(defs[d], r.gates[d], r.state);
    }
  }

  lemma MoveKinds(c: Config, s: State, id: RequestId, g: Gate)
    requires id in s.requests
    ensures var m := Prepare(c, s, id, id.hash.workflow, g);
            && (m.IssueNow? ==> g.body.ExecuteGate? && c.policy.version == 2)
            && (m.CallOut? ==> g.body.ToolGate? || g.body.NotifyGate? || (g.body.ExecuteGate? && DirectFiring(c, g)))
  {
  }

  /** Only `id` changed, and it was neither closed nor in a callback: everybody else is framed. */
  lemma OneRequestFrame(s: State, t: State, id: RequestId)
    requires id in s.requests && id !in s.active && !Terminal(s.requests[id].state)
    requires t.active == s.active && s.tick <= t.tick && id in t.requests
             && t.requests == s.requests[id := t.requests[id]]
    requires StoreCarried(s.world.db, t.world.db, t.requests)
    ensures Frame(s, t)
  {
  }

  lemma {:induction false} FireOk(c: Config, s: State, own: iset<Key>, id: RequestId, g: Gate, env: Env)
    requires AboutToFire(c, s, own, s.active + {id}, id, g) && id !in s.active && EnvWithin(env, own)
    ensures var f := Fire(c, s, id, id.hash.workflow, g, env);
            Ok(c, f.state, own, s.active + {id}) && Frame(s, f.state) && EnvWithin(f.env, own)
    decreases env, 1
  {
    hide Ok, RequestOk, Prepare, Conclude, ConcludeIssue, RunCalls, Callback;
    var w, busy := id.hash.workflow, s.active + {id};
    PrepareOk(c, s, own, busy, id, g);
    MoveKinds(c, s, id, g);
    var m := Prepare(c, s, id, w, g);
    var s' := m.state;
    OneRequestFrame(s, s', id);
    var reply := if env.Quiet? then Raises else env.reply;
    if m.IssueNow? {
      ConcludeIssueOk(c, s', own, busy, id, g, reply);
      OneRequestFrame(s', ConcludeIssue(c, s', id, w, g, reply), id);
      FrameTransitive(s, s', ConcludeIssue(c, s', id, w, g, reply));
    } else if m.CallOut? {
      var t := s';
      if env.Answer? {
        CallbackOk(c, s', own, id, env.nested);
        t := Callback(c, s', id, env.nested);
        FrameTransitive(s, s', t);
      }
      ConcludeOk(c, t, own, busy, id, g, reply);
      OneRequestFrame(t, Conclude(c, t, id, g, reply), id);
      FrameTransitive(s, t, Conclude(c, t, id, g, reply));
    }
  }

  /** During a callback no other call can change the request it belongs to, and the set of
      requests inside callbacks comes back as it was. */
  lemma {:induction false} CallbackOk(c: Config, s: State, own: iset<Key>, id: RequestId, nested: Calls)
    requires Ok(c, s, own, s.active + {id}) && id in s.requests && id !in s.active && CallsWithin(nested, own)
    ensures var t := Callback(c, s, id, nested);
            && Ok(c, t, own, s.active + {id}) && Frame(s, t)
            && t.requests[id] == s.requests[id]
    decreases nested, 1
  {
    hide RequestsOk, IndexOk, RowsOk, CallsOk, P.Consistent, AcceptedPolicy;
    var inside := s.(active := s.active + {id});
    assert Ok(c, inside, own, inside.active);
    RunCallsOk(c, inside, own, nested);
    var t := RunCalls(c, inside, nested);
    assert t.active - {id} == s.active;
  }

  /** Any sequence of public calls and store steps keeps the invariant, closed requests and
      requests inside callbacks. */
  lemma {:induction false} RunCallsOk(c: Config, s: State, own: iset<Key>, calls: Calls)
    requires Ok(c, s, own, s.active) && CallsWithin(calls, own)
    ensures var t := RunCalls(c, s, calls); Ok(c, t, own, t.active) && Frame(s, t)
    decreases calls, 0
  {
    hide Ok;
    if calls.More? {
      RunCallOk(c, s, own, calls.head);
      var t := RunCall(c, s, calls.head);
      RunCallsOk(c, t, own, calls.tail);
      FrameTransitive(s, t, RunCalls(c, t, calls.tail));
    }
  }

  lemma {:induction false} RunCallOk(c: Config, s: State, own: iset<Key>, call: Call)
    requires Ok(c, s, own, s.active) && CallWithin(call, own)
    ensures var t := RunCall(c, s, call); Ok(c, t, own, t.active) && Frame(s, t)
    decreases call, 0
  {
    hide Ok, P.Apply, CancelRequest, RequestAction, IngestApproval;
    match call
    case RequestCall(args, env) => RequestOkay(c, s, own, args, env);
    case CancelCall(id, requester, fate) => CancelOk(c, s, own, id, requester, fate);
    case IngestCall(id, evidence, env) => IngestOk(c, s, own, id, evidence, env);
    case WorldCall(step) => if !step.Record? { WorldStepOk(c, s, own, s.active, step); }
  }

  /** A pass that has fired nothing has found nothing ready. */
  ghost predicate ScanOk(id: RequestId, r: Request, i: nat, progressed: bool) {
    && i <= |id.hash.workflow.gates|
    && (!progressed ==> forall j | 0 <= j < i :: !Ready(r, id.hash.workflow.gates[j]))
  }

  ghost predicate AdvancedWell(c: Config, s: State, own: iset<Key>, id: RequestId, a: Advanced) {
    && Ok(c, a.state, own, s.active + {id}) && Frame(s, a.state)
    && !a.stuck && id in a.state.requests && !a.state.requests[id].state.Processing?
  }

  /** The scan of request `id` stands at gate `i`. */
  ghost predicate Scanning(c: Config, s: State, own: iset<Key>, id: RequestId, i: nat, progressed: bool, env: Env) {
    && id in s.requests && id !in s.active && s.requests[id].state.Processing?
    && ScanOk(id, s.requests[id], i, progressed) && EnvWithin(env, own)
    && Ok(c, s, own, s.active + {id})
  }

  function PendingAt(s: State, id: RequestId): set<string> {
    if id in s.requests then PendingSet(s.requests[id]) else {}
  }

  /** `_advance` never gets stuck and never leaves its request in `processing`. */
  lemma {:induction false} AdvanceOk(c: Config, s: State, own: iset<Key>, id: RequestId, i: nat, progressed: bool,
      env: Env)
    requires Scanning(c, s, own, id, i, progressed, env)
    ensures AdvancedWell(c, s, own, id, Advance(c, s, id, id.hash.workflow, i, progressed, env))
    decreases env, 2, PendingAt(s, id), if progressed then 1 else 0, |id.hash.workflow.gates| - i
  {
    hide Ok, RequestOk, Fire;
    var w := id.hash.workflow;
    BusyRequestOk(c, s, own, id);
    if i == |w.gates| {
      if progressed {
        AdvanceOk(c, s, own, id, 0, false, env);
      } else {
        SomeGateReady(c, id, s.requests[id]);
      }
    } else if !Ready(s.requests[id], w.gates[i]) {
      AdvanceOk(c, s, own, id, i + 1, progressed, env);
    } else {
      var g := w.gates[i];
      GateDefined(c, id, s.requests[id], i);
      FireOk(c, s, own, id, g, env);
      var f := Fire(c, s, id, w, g, env);
      if f.state.requests[id].state.Processing? {
        AdvanceOk(c, f.state, own, id, i + 1, true, f.env);
        FrameTransitive(s, f.state, Advance(c, f.state, id, w, i + 1, true, f.env).state);
      }
    }
  }

  lemma BusyRequestOk(c: Config, s: State, own: iset<Key>, id: RequestId)
    requires Ok(c, s, own, s.active + {id}) && id in s.requests
    ensures RequestOk(c, id, s.requests[id]) && KeyOf(id) in own
  {
    hide RequestOk;
  }

  lemma GateDefined(c: Config, id: RequestId, r: Request, i: nat)
    requires RequestOk(c, id, r) && i < |id.hash.workflow.gates|
    ensures var g := id.hash.workflow.gates[i]; g.id in Defs(id) && Defs(id)[g.id] == g
  {
    hide FlagsOk, HistoryOk, ApprovalsOk, ChecksOk, TokenOk, ShapeOk;
    DefinitionsLookup(id.hash.workflow.gates);
  }

  lemma ReleaseOk(c: Config, s: State, own: iset<Key>, id: RequestId)
    requires Ok(c, s, own, s.active + {id}) && id in s.requests && id !in s.active && !s.requests[id].state.Processing?
    ensures Ok(c, Release(s, id), own, s.active)
  {
    hide RequestsOk, RowsOk, CallsOk, P.Consistent, AcceptedPolicy;
  }

  lemma {:induction false} AdvanceAndReleaseOk(c: Config, s: State, own: iset<Key>, id: RequestId, env: Env)
    requires Ok(c, s, own, s.active + {id}) && id in s.requests && id !in s.active && s.requests[id].state.Processing?
    requires EnvWithin(env, own)
    ensures var res := AdvanceAndRelease(c, s, id, id.hash.workflow, env);
            && Ok(c, res.state, own, s.active) && Frame(s, res.state)
            && res.response == Accepts(id) && !res.state.requests[id].state.Processing?
    decreases env, 3
  {
    hide Ok, Advance;
    AdvanceOk(c, s, own, id, 0, false, env);
    ReleaseOk(c, Advance(c, s, id, id.hash.workflow, 0, false, env).state, own, id);
  }

  lemma AdmitOk(c: Config, s: State, own: iset<Key>, id: RequestId)
    requires Ok(c, s, own, s.active) && id !in s.requests && KeyOf(id) !in s.idempotency && KeyOf(id) in own
    requires Lawful(c, id)
    ensures Ok(c, Admit(c, s, id), own, s.active + {id})
  {
    hide RequestOk, IndexOk, RowsOk, CallsOk, P.Consistent, AcceptedPolicy, Lawful;
    NewRequestOk(c, s, id);
    AdmitIndex(s.requests, s.workflows, s.idempotency, s.active, id, NewRequest(c, s, id.hash.workflow));
    var r := NewRequest(c, s, id.hash.workflow);
    RequestsStillOk(c, s.requests, own, id, r);
    ReplaceRows(c, s.requests, s.world.db.rows, own, id, r);
    ReplaceCalls(c, s.requests, s.targetCalls, id, r);
  }

  lemma AdmitIndex(requests: Requests, workflows: map<RequestId, Workflow>, idempotency: map<Key, RequestId>,
      busy: set<RequestId>, id: RequestId, r: Request)
    requires IndexOk(requests, workflows, idempotency, busy) && id !in requests && KeyOf(id) !in idempotency
             && r.state.Processing?
    ensures IndexOk(requests[id := r], workflows[id := id.hash.workflow], idempotency[KeyOf(id) := id], busy + {id})
  {
  }

  lemma LawfulRequest(c: Config, args: RequestArgs)
    requires AcceptedPolicy(c.policy) && RequestProblem(c, args).None?
    ensures Lawful(c, IdFor(c, args)) && KeyOf(IdFor(c, args)) == Key(args.requester, args.key)
  {
    FloorOnlyRaises(c.policy.workflows[args.action], args.floor, c.policy.executionEnabled);
  }

  lemma FreshKeyFreshRequest(c: Config, s: State, own: iset<Key>, busy: set<RequestId>, id: RequestId)
    requires Ok(c, s, own, busy) && KeyOf(id) !in s.idempotency
    ensures id !in s.requests && id !in busy
  {
  }

  lemma NothingMoves(s: State)
    ensures Frame(s, s)
  {
  }

  lemma PolicyHolds(c: Config, s: State, own: iset<Key>, busy: set<RequestId>)
    requires Ok(c, s, own, busy)
    ensures AcceptedPolicy(c.policy)
  {
    hide AcceptedPolicy, RequestsOk, IndexOk, RowsOk, CallsOk, NoticesOk, P.Consistent;
  }

  lemma AdmittedFrame(c: Config, s: State, id: RequestId)
    requires id !in s.requests && id !in s.active
    ensures var t := Admit(c, s, id);
            Frame(s, t) && id in t.requests && t.requests[id].state.Processing? && t.active == s.active
  {
  }

  lemma {:induction false} RequestOkay(c: Config, s: State, own: iset<Key>, args: RequestArgs, env: Env)
    requires Ok(c, s, own, s.active) && Key(args.requester, args.key) in own && EnvWithin(env, own)
    ensures var t := RequestAction(c, s, args, env).state; Ok(c, t, own, t.active) && Frame(s, t)
    decreases env, 4
  {
    hide Ok, StoreCarried, RequestProblem, Lawful, AdvanceAndRelease, IdFor, Admit, KeyOf, AcceptedPolicy;
    NothingMoves(s);
    if RequestProblem(c, args).None? {
      PolicyHolds(c, s, own, s.active);
      LawfulRequest(c, args);
      var id := IdFor(c, args);
      if KeyOf(id) !in s.idempotency {
        FreshKeyFreshRequest(c, s, own, s.active, id);
        AdmitOk(c, s, own, id);
        AdmittedFrame(c, s, id);
        AdvanceAndReleaseOk(c, Admit(c, s, id), own, id, env);
        FrameTransitive(s, Admit(c, s, id), AdvanceAndRelease(c, Admit(c, s, id), id, id.hash.workflow, env).state);
      }
    }
  }

  lemma {:induction false} WaitingGateFound(gates: seq<Gate>, r: Request, i: nat)
    requires i <= |gates|
    ensures var g := WaitingGate(gates, r, i);
            && (g.Some? ==>
                   g.value in gates && g.value.body.ApprovalGate? && g.value.id in r.gates
                     && r.gates[g.value.id].status.Waiting?)
            && (g.None? ==> forall j | i <= j < |gates| && gates[j].body.ApprovalGate? && gates[j].id in r.gates ::
                   !r.gates[gates[j].id].status.Waiting?)
    decreases |gates| - i
  {
    if i < |gates| {
      WaitingGateFound(gates, r, i + 1);
    }
  }

  /** The evidence that passes the checks fits the waiting gate it will be recorded on. */
  lemma EvidenceFits(c: Config, s: State, t: State, own: iset<Key>, id: RequestId, e: ApprovalInput)
    requires Ok(c, s, own, s.active) && EvidenceProblem(c, s, id, e).None?
    requires s.tick + 2 <= t.tick
    ensures id in s.requests && id in s.workflows && s.workflows[id] == id.hash.workflow && id !in s.active
    ensures s.requests[id].state.WaitingForApproval?
    ensures WaitingGate(id.hash.workflow.gates, s.requests[id], 0).Some?
    ensures var g := WaitingGate(id.hash.workflow.gates, s.requests[id], 0).value;
            && g.id in s.requests[id].gates && s.requests[id].gates[g.id].status.Waiting?
            && g.id in Defs(id) && Defs(id)[g.id] == g
            && e.evidenceId.Some? && e.actor.Some? && e.assurance.Some? && e.expiresAt.Some?
            && ApprovalFits(c, g, ApprovalFrom(e, Now(c, t)))
  {
    hide RequestOk, RowsOk, CallsOk, P.Consistent, AcceptedPolicy;
    WaitingGateFound(id.hash.workflow.gates, s.requests[id], 0);
    var g := WaitingGate(id.hash.workflow.gates, s.requests[id], 0).value;
    var i :| 0 <= i < |id.hash.workflow.gates| && id.hash.workflow.gates[i] == g;
    GateDefined(c, id, s.requests[id], i);
    if Monotone(c) {
      assert c.clock(s.tick + 1) <= c.clock(t.tick);
    }
  }

  lemma ConsumeOk(c: Config, s: State, own: iset<Key>, id: RequestId, g: Gate, e: ApprovalInput)
    requires Ok(c, s, own, s.active) && id in s.requests && s.requests[id].state.WaitingForApproval?
    requires g.id in s.requests[id].gates && s.requests[id].gates[g.id].status.Waiting? && g.id in Defs(id)
             && Defs(id)[g.id] == g
    requires e.evidenceId.Some? && e.actor.Some? && e.assurance.Some? && e.expiresAt.Some?
    requires ApprovalFits(c, g, ApprovalFrom(e, Now(c, s)))
    ensures Ok(c, Consume(c, s, id, g, e), own, s.active + {id})
  {
    hide RequestOk, IndexOk, RowsOk, CallsOk, P.Consistent, AcceptedPolicy, NoticesOk, NoNewNotice;
    BusierIndex(s.requests, s.workflows, s.idempotency, s.active, id);
    assert Ok(c, s, own, s.active + {id});
    var a := ApprovalFrom(e, Now(c, s));
    ApproveKeeps(c, id, s.requests[id], g.id, a);
    var t := Consume(c, s, id, g, e);
    FiredWithoutNotice(s.requests, id, Approve(s.requests[id], g.id, a), g.id);
    ReplaceNotices(s.requests, s.consumedNotices, id, Approve(s.requests[id], g.id, a));
    ReplaceOk(c, s, t, own, s.active + {id}, id, Approve(s.requests[id], g.id, a));
  }

  lemma BusierIndex(requests: Requests, workflows: map<RequestId, Workflow>, idempotency: map<Key, RequestId>,
      busy: set<RequestId>, id: RequestId)
    requires IndexOk(requests, workflows, idempotency, busy) && id in requests
    ensures IndexOk(requests, workflows, idempotency, busy + {id})
  {
  }

  lemma {:induction false} VerifierOk(c: Config, s: State, own: iset<Key>, id: RequestId, env: Env)
    requires Ok(c, s, own, s.active) && id in s.requests && id !in s.active && EnvWithin(env, own)
    requires !Terminal(s.requests[id].state) && !s.requests[id].state.Processing?
    ensures var t := AfterVerifier(c, s, id, env);
            Ok(c, t, own, s.active) && Frame(s, t) && s.tick + 2 <= t.tick && t.requests[id] == s.requests[id]
    decreases env, 3
  {
    hide RequestsOk, IndexOk, RowsOk, CallsOk, P.Consistent, AcceptedPolicy, Callback;
    var s' := s.(tick := s.tick + 2);
    if env.Answer? {
      BusierIndex(s.requests, s.workflows, s.idempotency, s.active, id);
      CallbackOk(c, s', own, id, env.nested);
      var t := Callback(c, s', id, env.nested);
      IdlerIndex(t.requests, t.workflows, t.idempotency, s.active, id);
    }
  }

  lemma IdlerIndex(requests: Requests, workflows: map<RequestId, Workflow>, idempotency: map<Key, RequestId>,
      busy: set<RequestId>, id: RequestId)
    requires IndexOk(requests, workflows, idempotency, busy + {id}) && id in requests
    requires !Terminal(requests[id].state) && !requests[id].state.Processing?
    ensures IndexOk(requests, workflows, idempotency, busy)
  {
  }

  lemma {:induction false} IngestOk(c: Config, s: State, own: iset<Key>, id: RequestId, e: ApprovalInput, env: Env)
    requires Ok(c, s, own, s.active) && EnvWithin(env, own)
    ensures var t := IngestApproval(c, s, id, e, env).state; Ok(c, t, own, t.active) && Frame(s, t)
    decreases env, 4
  {
    hide Ok, EvidenceProblem, AdvanceAndRelease, AfterVerifier, Consume, ApprovalFits;
    if EvidenceProblem(c, s, id, e).None? {
      EvidenceFits(c, s, s.(tick := s.tick + 2), own, id, e);
      VerifierOk(c, s, own, id, env);
      var t := AfterVerifier(c, s, id, env);
      if env.Answer? && env.reply.Trusts? && env.reply.verdict {
        EvidenceFits(c, s, t, own, id, e);
        var g := WaitingGate(s.workflows[id].gates, s.requests[id], 0).value;
        ConsumeOk(c, t, own, id, g, e);
        var u := Consume(c, t, id, g, e);
        ConsumedFrame(c, t, id, g, e);
        AdvanceAndReleaseOk(c, u, own, id, env.rest);
        FrameTransitive(s, t, u);
        FrameTransitive(s, u, AdvanceAndRelease(c, u, id, id.hash.workflow, env.rest).state);
      }
    }
  }

  lemma ConsumedFrame(c: Config, s: State, id: RequestId, g: Gate, e: ApprovalInput)
    requires id in s.requests && id !in s.active && s.requests[id].state.WaitingForApproval?
    requires e.evidenceId.Some? && e.actor.Some? && e.assurance.Some? && e.expiresAt.Some?
    ensures var u := Consume(c, s, id, g, e);
            Frame(s, u) && u.active == s.active && id in u.requests && u.requests[id].state.Processing?
  {
  }
}
