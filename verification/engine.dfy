/** The gate engine as functions on its state: what one public call does, including calls a
    callback makes back into the engine.

    A callback's behaviour is a finite tree: the engine calls and store steps it makes while
    it runs, and its answer. The clock is an arbitrary sequence of readings; `tick` counts the
    readings taken. `trace`, `targetCalls` and `signed`, the bodies handed to the signer, are
    history. */
module GateEngine {
  import opened JsonValues
  import opened GateGraph
  import opened Policies
  import opened Claims
  import S = AuthorizationStore
  import P = ConsumptionProtocol

  /** The source's gate statuses, in order: pending, passed, simulated, approved, waiting,
      blocked, failed, authorized. */
  datatype Status = Pending | Passed | Rehearsed | Approved | Waiting | Stopped | Broken | Granted

  predicate Satisfies(status: Status) { status.Passed? || status.Rehearsed? || status.Approved? }

  datatype Approval = Approval(
    evidenceId: string, actor: string, assurance: Control, expiresAt: int, consumedAt: int, provenance: Json)

  datatype Notice = Notice(
    requestId: Option<RequestId>, requestHash: Option<RequestBody>, gateId: Option<string>, recipient: Option<string>,
    template: Option<string>, noticeId: Option<string>, deliveredAt: Option<int>, delivered: bool)

  datatype Evidence =
    | NoEvidence
    | Normalized
    | Observed(actual: Json)
    | ReadResult(result: Json, checkedAt: int)
    | Notified(notice: Notice)
    | Awaiting(level: Level, ttl: int)
    | ApprovedBy(approval: Approval)
    | AuthorizedAs(authorizationId: string, expiresAt: int)
    | WouldCall(target: string)
    | CalledWith(result: Json)
    | Problem

  datatype GateRecord = GateRecord(status: Status, evidence: Evidence)

  /** History of a request: a gate left `pending`; a gate became satisfied. */
  datatype Event = Fired(gate: string) | Satisfied(gate: string)

  datatype Request = Request(
    state: PublicState,
    gates: map<string, GateRecord>,
    blockedBy: Option<string>,
    notificationDelivered: bool,
    executionPossible: bool,
    consumptionPossible: bool,
    createdAt: int,
    token: Option<Token>,
    authorization: Option<S.AuthorizationView>,
    trace: seq<Event>)

  datatype Config = Config(
    policy: Policy, policyHash: string, hasExecutionAuthority: bool, authority: Option<Authority>, hasStore: bool,
    clock: nat -> int)

  datatype State = State(
    requests: map<RequestId, Request>,
    workflows: map<RequestId, Workflow>,
    idempotency: map<Key, RequestId>,
    consumedApprovals: set<string>,
    consumedNotices: set<string>,
    active: set<RequestId>,
    tick: nat,
    world: P.World,
    targetCalls: seq<RequestId>,
    signed: seq<Claims>)

  datatype RequestArgs = RequestArgs(
    action: string, parameters: map<string, Json>, context: Json, trustedContext: Json, requester: string,
    key: string, floor: Floor)

  /** Approval evidence as supplied; `None` is a missing or ill-typed field. */
  datatype ApprovalInput = ApprovalInput(
    approves: bool, evidenceId: Option<string>, requestId: Option<RequestId>, requestHash: Option<RequestBody>,
    gateId: Option<string>, expiresAt: Option<int>, actor: Option<string>, assurance: Option<Control>, provenance: Json)

  /** How a store call ends: it may raise before or after it commits. */
  datatype Fate = Commits | FailsFirst | FailsAfter

  datatype Reply =
    | Raises
    | Returns(value: Json)
    | Sends(notice: Notice)
    | Trusts(verdict: bool)
    | Names(authorizationId: string, nonce: string, fate: Fate)

  datatype Env = Quiet | Answer(nested: Calls, reply: Reply, rest: Env)

  datatype Calls = NoCalls | More(head: Call, tail: Calls)

  datatype Call =
    | RequestCall(args: RequestArgs, env: Env)
    | CancelCall(id: RequestId, requester: string, fate: Fate)
    | IngestCall(id: RequestId, evidence: ApprovalInput, env: Env)
    | WorldCall(step: P.Step)

  datatype Error =
    | UnknownAction | NoApprovalGate | BadRequester | PrincipalDenied | BadParameters | KeyReused
    | NotFound | NotRequester | AlreadyTerminal | InCallback | StoreRefused
    | NotWaiting | NotApproving | BadEvidence | EvidenceConsumed | WrongBinding | EvidenceExpired
    | ExpiryBeyondTtl | WeakAssurance | VerifierFailed | NotTrusted | NoProgress

  datatype Response = Accepts(id: RequestId) | Raised(error: Error)

  datatype Result = Result(state: State, response: Response)

  function Terminal(state: PublicState): bool {
    state.Blocked? || state.Cancelled? || state.Simulated? || state.Executed? || state.Failed?
  }

  function Now(c: Config, s: State): int { c.clock(s.tick) }

  function Put(s: State, id: RequestId, r: Request): State { s.(requests := s.requests[id := r]) }

  function PendingSet(r: Request): set<string> { set g | g in r.gates && r.gates[g].status.Pending? }

  predicate Ready(r: Request, g: Gate) {
    && g.id in r.gates && r.gates[g.id].status.Pending?
    && forall i | 0 <= i < |g.needs| :: g.needs[i] in r.gates && Satisfies(r.gates[g.needs[i]].status)
  }

  // ---- What happens to one gate ----------------------------------------------------------

  /** `after` differs from `before` in that gate `g` has fired. */
  predicate GateFired(before: Request, after: Request, g: string) {
    g in after.gates && !after.gates[g].status.Pending? && after.gates == before.gates[g := after.gates[g]]
  }

  /** Passed, simulated: the gate fires and is satisfied at once. */
  function Pass(r: Request, g: string, status: Status, evidence: Evidence): (r': Request)
    requires !status.Pending?
    ensures GateFired(r, r', g)
  {
    r.(gates := r.gates[g := GateRecord(status, evidence)], trace := r.trace + [Fired(g), Satisfied(g)])
  }

  /** `_block`. */
  function Stop(r: Request, g: string): (r': Request)
    ensures GateFired(r, r', g)
  {
    r.(gates := r.gates[g := GateRecord(Stopped, Problem)], state := Blocked, blockedBy := Some(g),
      trace := r.trace + [Fired(g)])
  }

  function Break(r: Request, g: string, blocks: bool): (r': Request)
    ensures GateFired(r, r', g)
  {
    r.(gates := r.gates[g := GateRecord(Broken, Problem)], state := Failed,
       blockedBy := if blocks then Some(g) else r.blockedBy, trace := r.trace + [Fired(g)])
  }

  function Wait(r: Request, g: string, level: Level, ttl: int): (r': Request)
    ensures GateFired(r, r', g)
  {
    r.(gates := r.gates[g := GateRecord(Waiting, Awaiting(level, ttl))], state := WaitingForApproval,
      trace := r.trace + [Fired(g)])
  }

  /** The execute gate fails; `blocked_by` is left alone. */
  function BreakExecute(r: Request, g: string): (r': Request)
    ensures GateFired(r, r', g)
  {
    Break(r, g, false).(executionPossible := false, consumptionPossible := false, token := None, authorization := None)
  }

  /** What condition paths and tool inputs can name. */
  function Document(id: RequestId): Json {
    var b := id.hash;
    Obj(map["action" := Str(b.action), "parameters" := Obj(b.parameters), "context" := b.context,
            "trusted_context" := b.trustedContext, "requester" := Str(b.requester)])
  }

  /** The approval gates `e` waits for, in workflow order. */
  ghost function ApprovalAncestors(gates: seq<Gate>, e: string, k: nat): seq<string>
    requires k <= |gates|
  {
    if k == 0 then []
    else
      var g := gates[k - 1];
      ApprovalAncestors(gates, e, k - 1)
      + if g.body.ApprovalGate? && Reaches(Requirements(Definitions(gates)), e, g.id) then [g.id] else []
  }

  predicate HoldsApproval(r: Request, g: string) { g in r.gates && r.gates[g].evidence.ApprovedBy? }

  function ApprovalOf(r: Request, g: string): Approval
    requires HoldsApproval(r, g)
  {
    r.gates[g].evidence.approval
  }

  predicate AllHoldApproval(r: Request, ids: seq<string>) {
    forall i | 0 <= i < |ids| :: HoldsApproval(r, ids[i])
  }

  /** The i-th approval's expiry is compared with the i-th reading. */
  predicate AnyExpired(c: Config, tick: nat, r: Request, ids: seq<string>) {
    exists i | 0 <= i < |ids| :: !HoldsApproval(r, ids[i]) || ApprovalOf(r, ids[i]).expiresAt <= c.clock(tick + i)
  }

  function Min(a: int, b: int): int { if a < b then a else b }

  function MinExpiry(r: Request, ids: seq<string>, k: nat, bound: int): int
    requires k <= |ids| && AllHoldApproval(r, ids)
  {
    if k == 0 then bound else Min(MinExpiry(r, ids, k - 1, bound), ApprovalOf(r, ids[k - 1]).expiresAt)
  }

  function EvidenceIds(r: Request, ids: seq<string>, k: nat): multiset<string>
    requires k <= |ids| && AllHoldApproval(r, ids)
  {
    if k == 0 then multiset{} else EvidenceIds(r, ids, k - 1) + multiset{ApprovalOf(r, ids[k - 1]).evidenceId}
  }

  function ProvenanceOf(r: Request, ids: seq<string>, k: nat): map<string, Json>
    requires k <= |ids| && AllHoldApproval(r, ids)
  {
    if k == 0 then map[]
    else ProvenanceOf(r, ids, k - 1)[ApprovalOf(r, ids[k - 1]).evidenceId := ApprovalOf(r, ids[k - 1]).provenance]
  }

  function ClaimsFor(c: Config, id: RequestId, r: Request, g: Gate, ids: seq<string>, now: int,
      authorizationId: string, nonce: string): Claims
    requires g.body.ExecuteGate? && AllHoldApproval(r, ids)
  {
    var b := id.hash;
    Claims(authorizationId, "", c.policy.audience, id, b.requester, b.control, b.action, g.body.target, b.parameters,
           map[], c.policyHash, EvidenceIds(r, ids, |ids|), ProvenanceOf(r, ids, |ids|), now,
           MinExpiry(r, ids, |ids|, now + c.policy.authorizationTtl), nonce, c.policy.executionEnabled,
           g.body.simulationOnly)
  }

  /** The snapshot handed to the store; its detail is opaque here. */
  function SnapshotOf(id: RequestId, r: Request): S.Snapshot {
    S.Snapshot(id, r.state, r.authorization, r.consumptionPossible, r.createdAt, Null)
  }

  function Grant(r: Request, g: string, token: Token): Request {
    var a := token.claims.authorizationId;
    r.(gates := r.gates[g := GateRecord(Granted, AuthorizedAs(a, token.claims.expiresAt))],
       token := Some(token), authorization := Some(S.AuthorizationView(a, S.Issued, None)),
       state := Authorized, executionPossible := false, consumptionPossible := true, trace := r.trace + [Fired(g)])
  }

  // ---- Firing --------------------------------------------------------------------------

  /** What firing a gate does before, or without, a callback. */
  datatype Move = Finished(state: State) | CallOut(state: State) | IssueNow(state: State)

  function FireCondition(r: Request, id: RequestId, g: Gate): (r': Request)
    requires g.body.ConditionGate?
    ensures GateFired(r, r', g.id)
  {
    var actual := ResolvePath(Document(id), g.body.path);
    if actual.Some? && Compare(actual.value, g.body.test) then Pass(r, g.id, Passed, Observed(actual.value))
    else Stop(r, g.id)
  }

  predicate InputResolves(id: RequestId, g: Gate)
    requires g.body.ToolGate?
  {
    ResolveInput(g.body.input, Document(id)).Some?
  }

  ghost function Prepare(c: Config, s: State, id: RequestId, w: Workflow, g: Gate): Move
    requires id in s.requests
  {
    var r := s.requests[id];
    match g.body
    case SchemaGate => Finished(Put(s, id, Pass(r, g.id, Passed, Normalized)))
    case ConditionGate(_, _) => Finished(Put(s, id, FireCondition(r, id, g)))
    case ToolGate(_, _, _, _, _) =>
      if !InputResolves(id, g) || id in s.active then Finished(Put(s, id, Break(r, g.id, true))) else CallOut(s)
    case NotifyGate(_, _) =>
      if id in s.active then Finished(Put(s, id, Break(r, g.id, true))) else CallOut(s)
    case ApprovalGate(level, ttl) => Finished(Put(s, id, Wait(r, g.id, level, ttl)))
    case ExecuteGate(_, _) => PrepareExecute(c, s, id, w, g)
  }

  ghost function PrepareExecute(c: Config, s: State, id: RequestId, w: Workflow, g: Gate): Move
    requires id in s.requests && g.body.ExecuteGate?
  {
    var r := s.requests[id];
    var ids := ApprovalAncestors(w.gates, g.id, |w.gates|);
    var s' := s.(tick := s.tick + |ids|);
    if AnyExpired(c, s.tick, r, ids) then Finished(Put(s', id, Stop(r, g.id)))
    else if c.policy.version == 2 then
      if c.authority.None? || !c.hasStore then Finished(Put(s', id, BreakExecute(r, g.id))) else IssueNow(s')
    else if g.body.simulationOnly || !c.policy.executionEnabled then
      var rehearsed := Pass(r, g.id, Rehearsed, WouldCall(g.body.target));
      Finished(Put(s', id, rehearsed.(state := Simulated, executionPossible := false)))
    else if !c.hasExecutionAuthority || id in s.active then Finished(Put(s', id, BreakExecute(r, g.id)))
    else CallOut(s')
  }

  /** What firing does once the callback has answered. */
  function Conclude(c: Config, s: State, id: RequestId, g: Gate, reply: Reply): (t: State)
    requires id in s.requests
    ensures t.requests.Keys == s.requests.Keys && (reply.Raises? ==> !t.requests[id].state.Processing?)
  {
    match g.body
    case ToolGate(_, _, _, _, _) => ConcludeRead(c, s, id, g, reply)
    case NotifyGate(_, _) => ConcludeNotify(c, s, id, g, reply)
    case _ => ConcludeTarget(s, id, g, reply)
  }

  function ConcludeRead(c: Config, s: State, id: RequestId, g: Gate, reply: Reply): State
    requires id in s.requests && g.body.ToolGate?
  {
    var r := s.requests[id];
    if !reply.Returns? || !reply.value.Obj? || ResolvePath(reply.value, g.body.expectPath).None? then
      Put(s, id, Break(r, g.id, true))
    else if !Compare(ResolvePath(reply.value, g.body.expectPath).value, g.body.outcome) then Put(s, id, Stop(r, g.id))
    else Put(s, id, Pass(r, g.id, Passed, ReadResult(reply.value, Now(c, s)))).(tick := s.tick + 1)
  }

  /** The notice names this request, this gate and what the gate was to send. */
  predicate NoticeNames(id: RequestId, g: Gate, n: Notice)
    requires g.body.NotifyGate?
  {
    && n.requestId == Some(id) && n.requestHash == Some(id.hash) && n.gateId == Some(g.id)
    && n.recipient == Some(g.body.recipient) && n.template == Some(g.body.template)
    && n.noticeId.Some? && n.noticeId.value != ""
  }

  predicate NoticeBound(s: State, id: RequestId, g: Gate, n: Notice)
    requires g.body.NotifyGate?
  {
    NoticeNames(id, g, n) && n.noticeId.value !in s.consumedNotices
  }

  function ConcludeNotify(c: Config, s: State, id: RequestId, g: Gate, reply: Reply): State
    requires id in s.requests && g.body.NotifyGate?
  {
    var r := s.requests[id];
    if !reply.Sends? then Put(s, id, Break(r, g.id, true))
    else
      var n := reply.notice;
      var r' := r.(notificationDelivered := n.delivered);
      var inTime := n.deliveredAt.Some? && r.createdAt <= n.deliveredAt.value <= Now(c, s);
      var s' := if c.policy.enforcing then s.(tick := s.tick + 1) else s;
      if !NoticeBound(s, id, g, n) || (c.policy.enforcing && (!inTime || !n.delivered)) then Put(s', id, Stop(r', g.id))
      else Put(s', id, Pass(r', g.id, if n.delivered then Passed else Rehearsed, Notified(n)))
           .(consumedNotices := s.consumedNotices + {n.noticeId.value})
  }

  function ConcludeTarget(s: State, id: RequestId, g: Gate, reply: Reply): State
    requires id in s.requests
  {
    var r := s.requests[id];
    var s' := s.(targetCalls := s.targetCalls + [id]);
    if reply.Returns? && reply.value.Obj? then
      Put(s', id, Pass(r, g.id, Passed, CalledWith(reply.value)).(state := Executed, executionPossible := true))
    else Put(s', id, BreakExecute(r, g.id))
  }

  /** Version 2: sign, record, and fail closed if either raises. */
  ghost function ConcludeIssue(c: Config, s: State, id: RequestId, w: Workflow, g: Gate, reply: Reply): (t: State)
    requires id in s.requests && g.body.ExecuteGate?
    ensures t.requests.Keys == s.requests.Keys && !t.requests[id].state.Processing?
  {
    var r := s.requests[id];
    var ids := ApprovalAncestors(w.gates, g.id, |w.gates|);
    var s' := s.(tick := s.tick + 1);
    if !reply.Names? || !AllHoldApproval(r, ids) || c.authority.None? then Put(s', id, BreakExecute(r, g.id))
    else
      var body := ClaimsFor(c, id, r, g, ids, Now(c, s), reply.authorizationId, reply.nonce);
      var handed := s'.(signed := s.signed + [body]);
      var failed := Put(handed, id, BreakExecute(r, g.id));
      match Issue(c.authority.value, body)
      case None => failed
      case Some(token) =>
        var granted := Grant(r, g.id, token);
        var recorded := S.Recorded(s.world.db, token, SnapshotOf(id, granted));
        var world := if reply.fate.FailsFirst? then s.world else s.world.(db := recorded.db);
        if reply.fate.Commits? && recorded.Stored? then Put(handed, id, granted).(world := world)
        else failed.(world := world)
  }

  lemma FiredShrinksPending(before: Request, after: Request, g: string)
    requires g in before.gates && before.gates[g].status.Pending? && GateFired(before, after, g)
    ensures PendingSet(after) < PendingSet(before)
  {
    assert g in PendingSet(before) && g !in PendingSet(after);
  }

  lemma PrepareShrinks(c: Config, s: State, id: RequestId, w: Workflow, g: Gate)
    requires id in s.requests && Ready(s.requests[id], g)
    ensures Prepare(c, s, id, w, g).state.requests.Keys == s.requests.Keys
    ensures var m := Prepare(c, s, id, w, g);
            m.Finished? ==> PendingSet(m.state.requests[id]) < PendingSet(s.requests[id])
  {
    PrepareFires(c, s, id, w, g);
    var m := Prepare(c, s, id, w, g);
    if m.Finished? {
      FiredShrinksPending(s.requests[id], m.state.requests[id], g.id);
    }
  }

  lemma PrepareFires(c: Config, s: State, id: RequestId, w: Workflow, g: Gate)
    requires id in s.requests
    ensures Prepare(c, s, id, w, g).state.requests.Keys == s.requests.Keys
    ensures Prepare(c, s, id, w, g).Finished? ==>
              GateFired(s.requests[id], Prepare(c, s, id, w, g).state.requests[id], g.id)
  {
    if g.body.ExecuteGate? {
      PrepareExecuteFires(c, s, id, w, g);
    }
  }

  lemma PrepareExecuteFires(c: Config, s: State, id: RequestId, w: Workflow, g: Gate)
    requires id in s.requests && g.body.ExecuteGate?
    ensures PrepareExecute(c, s, id, w, g).state.requests.Keys == s.requests.Keys
    ensures PrepareExecute(c, s, id, w, g).Finished? ==>
              GateFired(s.requests[id], PrepareExecute(c, s, id, w, g).state.requests[id], g.id)
  {
  }

  // ---- The engine ------------------------------------------------------------------------

  datatype Firing = Firing(state: State, env: Env)

  /** Fires one ready gate. */
  ghost function Fire(c: Config, s: State, id: RequestId, w: Workflow, g: Gate, env: Env): (f: Firing)
    requires id in s.requests && Ready(s.requests[id], g)
    ensures s.requests.Keys <= f.state.requests.Keys
    ensures f.env == env || (env.Answer? && f.env == env.rest)
    ensures f.env == env ==>
              !f.state.requests[id].state.Processing? || PendingSet(f.state.requests[id]) < PendingSet(s.requests[id])
    decreases env, 1
  {
    PrepareShrinks(c, s, id, w, g);
    match Prepare(c, s, id, w, g)
    case Finished(s') => Firing(s', env)
    case IssueNow(s') =>
      if env.Quiet? then Firing(ConcludeIssue(c, s', id, w, g, Raises), env)
      else Firing(ConcludeIssue(c, s', id, w, g, env.reply), env.rest)
    case CallOut(s') =>
      if env.Quiet? then Firing(Conclude(c, s', id, g, Raises), env)
      else Firing(Conclude(c, Callback(c, s', id, env.nested), id, g, env.reply), env.rest)
  }

  /** `_callback_scope` around a callback that makes `nested` calls. */
  ghost function Callback(c: Config, s: State, id: RequestId, nested: Calls): (t: State)
    ensures s.requests.Keys <= t.requests.Keys
    decreases nested, 1
  {
    var t := RunCalls(c, s.(active := s.active + {id}), nested);
    t.(active := t.active - {id})
  }

  ghost function RunCalls(c: Config, s: State, calls: Calls): (t: State)
    ensures s.requests.Keys <= t.requests.Keys
    decreases calls, 0
  {
    match calls
    case NoCalls => s
    case More(call, rest) => RunCalls(c, RunCall(c, s, call), rest)
  }

  ghost function RunCall(c: Config, s: State, call: Call): (t: State)
    ensures s.requests.Keys <= t.requests.Keys
    decreases call, 0
  {
    match call
    case RequestCall(args, env) => RequestAction(c, s, args, env).state
    case CancelCall(id, requester, fate) => CancelRequest(c, s, id, requester, fate).state
    case IngestCall(id, evidence, env) => IngestApproval(c, s, id, evidence, env).state
    case WorldCall(step) => if step.Record? then s else s.(world := P.Apply(s.world, step))
  }

  datatype Advanced = Advanced(state: State, stuck: bool)

  /** `_advance`: the scan is at gate `i`; `progressed` tells whether this pass fired one. */
  ghost function Advance(c: Config, s: State, id: RequestId, w: Workflow, i: nat, progressed: bool,
      env: Env): (a: Advanced)
    requires id in s.requests && i <= |w.gates|
    ensures s.requests.Keys <= a.state.requests.Keys
    decreases env, 2, PendingSet(s.requests[id]), if progressed then 1 else 0, |w.gates| - i
  {
    var r := s.requests[id];
    if i == |w.gates| then
      if progressed then Advance(c, s, id, w, 0, false, env) else Advanced(s, PendingSet(r) != {})
    else if !Ready(r, w.gates[i]) then Advance(c, s, id, w, i + 1, progressed, env)
    else
      var f := Fire(c, s, id, w, w.gates[i], env);
      if !f.state.requests[id].state.Processing? then Advanced(f.state, false)
      else Advance(c, f.state, id, w, i + 1, true, f.env)
  }

  /** `_release_terminal_workflow`. */
  function Release(s: State, id: RequestId): State {
    if id in s.requests && Terminal(s.requests[id].state) then s.(workflows := s.workflows - {id}) else s
  }

  /** The tail shared by a new request and an ingested approval. */
  ghost function AdvanceAndRelease(c: Config, s: State, id: RequestId, w: Workflow, env: Env): (res: Result)
    requires id in s.requests
    ensures s.requests.Keys <= res.state.requests.Keys
    decreases env, 3
  {
    var a := Advance(c, s, id, w, 0, false, env);
    if a.stuck then Result(a.state, Raised(NoProgress)) else Result(Release(a.state, id), Accepts(id))
  }

  function BodyOf(c: Config, args: RequestArgs, w: Workflow): RequestBody {
    RequestBody(c.policy.version, args.action, args.parameters, args.context, args.trustedContext, args.requester,
                args.key, args.floor,
                PolicyControl(w.gates), EffectiveControl(w.gates, args.floor), EffectiveWorkflow(w, args.floor))
  }

  /** The checks of `request_action` before it looks at the idempotency key. */
  function RequestProblem(c: Config, args: RequestArgs): Option<Error> {
    if args.action !in c.policy.workflows then Some(UnknownAction)
    else
      var w := c.policy.workflows[args.action];
      if !HasApproval(w.gates) then Some(NoApprovalGate)
      else if args.requester == "" || args.key == "" then Some(BadRequester)
      else if !PrincipalAllowed(w, args.requester) then Some(PrincipalDenied)
      else if !ValidParameters(w.parameters, args.parameters) then Some(BadParameters)
      else None
  }

  function NewRequest(c: Config, s: State, w: Workflow): Request {
    var defs := Definitions(w.gates);
    var gates := map g | g in defs :: GateRecord(Pending, NoEvidence);
    Request(Processing, gates, None, false, false, false, Now(c, s), None, None, [])
  }

  function IdFor(c: Config, args: RequestArgs): RequestId
    requires RequestProblem(c, args).None?
  {
    RequestId(BodyOf(c, args, c.policy.workflows[args.action]))
  }

  /** The state in which a new request starts to advance. */
  function Admit(c: Config, s: State, id: RequestId): State {
    var w := id.hash.workflow;
    s.(requests := s.requests[id := NewRequest(c, s, w)], workflows := s.workflows[id := w],
       idempotency := s.idempotency[KeyOf(id) := id], tick := s.tick + 1)
  }

  ghost function RequestAction(c: Config, s: State, args: RequestArgs, env: Env): (res: Result)
    ensures s.requests.Keys <= res.state.requests.Keys
    decreases env, 4
  {
    var problem := RequestProblem(c, args);
    if problem.Some? then Result(s, Raised(problem.value))
    else
      var id := IdFor(c, args);
      var key := KeyOf(id);
      if key in s.idempotency then
        if s.idempotency[key] != id then Result(s, Raised(KeyReused)) else Result(s, Accepts(id))
      else AdvanceAndRelease(c, Admit(c, s, id), id, id.hash.workflow, env)
  }

  /** The checks of `cancel_request` before it touches the store. */
  function CancelProblem(c: Config, s: State, id: RequestId, requester: string): Option<Error> {
    if id in s.active then Some(InCallback)
    else if id !in s.requests then Some(NotFound)
    else if requester != id.hash.requester then Some(NotRequester)
    else if Terminal(s.requests[id].state) then Some(AlreadyTerminal)
    else None
  }

  function MarkCancelled(r: Request): Request {
    r.(state := Cancelled, consumptionPossible := false,
       authorization :=
         if r.authorization.Some? then Some(r.authorization.value.(status := S.RowState.Cancelled)) else None)
  }

  /** The rows `cancel` accepts. */
  predicate Withdrawable(db: S.Db, a: string) {
    a in db.rows && (db.rows[a].state.Issued? || db.rows[a].state.Cancelled?)
  }

  /** The store's `cancel` is the update alone; its projection is a later store step. */
  function CancelRequest(c: Config, s: State, id: RequestId, requester: string, fate: Fate): Result {
    var problem := CancelProblem(c, s, id, requester);
    if problem.Some? then Result(s, Raised(problem.value))
    else
      var r := s.requests[id];
      if r.authorization.None? then Result(Release(Put(s, id, MarkCancelled(r)), id), Accepts(id))
      else if !c.hasStore then Result(s, Raised(StoreRefused))
      else
        var a := r.authorization.value.id;
        var world := if fate.FailsFirst? then s.world else P.Apply(s.world, P.Withdraw(a, Now(c, s)));
        var s' := s.(tick := s.tick + 1, world := world);
        if fate.Commits? && Withdrawable(s.world.db, a) then
          Result(Release(Put(s', id, MarkCancelled(r)), id), Accepts(id))
        else Result(s', Raised(StoreRefused))
  }

  /** The first approval gate, in workflow order, that is waiting. */
  function WaitingGate(gates: seq<Gate>, r: Request, i: nat): Option<Gate>
    requires i <= |gates|
    decreases |gates| - i
  {
    if i == |gates| then None
    else if gates[i].body.ApprovalGate? && gates[i].id in r.gates && r.gates[gates[i].id].status.Waiting? then
      Some(gates[i])
    else WaitingGate(gates, r, i + 1)
  }

  /** The checks of `ingest_trusted_approval` before it asks the verifier; the clock is read
      once for the expiry and once for the lifetime. */
  function EvidenceProblem(c: Config, s: State, id: RequestId, e: ApprovalInput): Option<Error> {
    if id in s.active then Some(InCallback)
    else if id !in s.requests || !s.requests[id].state.WaitingForApproval? || id !in s.workflows then Some(NotWaiting)
    else
      var gate := WaitingGate(s.workflows[id].gates, s.requests[id], 0);
      if gate.None? || !gate.value.body.ApprovalGate? then Some(NotWaiting)
      else if !e.approves then Some(NotApproving)
      else if e.evidenceId.None? || e.evidenceId.value == "" then Some(BadEvidence)
      else if e.evidenceId.value in s.consumedApprovals then Some(EvidenceConsumed)
      else if e.requestId != Some(id) || e.requestHash != Some(id.hash) || e.gateId != Some(gate.value.id) then
        Some(WrongBinding)
      else if e.expiresAt.None? || e.expiresAt.value <= c.clock(s.tick) then Some(EvidenceExpired)
      else if e.expiresAt.value > c.clock(s.tick + 1) + gate.value.body.ttl then Some(ExpiryBeyondTtl)
      else if e.actor.None? || e.actor.value == "" || e.assurance.None? then Some(BadEvidence)
      else if Rank(e.assurance.value) < Rank(LevelControl(gate.value.body.level)) then Some(WeakAssurance)
      else None
  }

  function Approve(r: Request, g: string, a: Approval): Request {
    r.(gates := r.gates[g := GateRecord(Approved, ApprovedBy(a))], state := Processing,
      trace := r.trace + [Satisfied(g)])
  }

  function ApprovalFrom(e: ApprovalInput, at: int): Approval
    requires e.evidenceId.Some? && e.actor.Some? && e.assurance.Some? && e.expiresAt.Some?
  {
    Approval(e.evidenceId.value, e.actor.value, e.assurance.value, e.expiresAt.value, at, e.provenance)
  }

  /** After the verifier said yes: consume the evidence and mark the gate. */
  function Consume(c: Config, s: State, id: RequestId, g: Gate, e: ApprovalInput): State
    requires id in s.requests && e.evidenceId.Some? && e.actor.Some? && e.assurance.Some? && e.expiresAt.Some?
  {
    var a := ApprovalFrom(e, Now(c, s));
    Put(s, id, Approve(s.requests[id], g.id, a))
    .(consumedApprovals := s.consumedApprovals + {e.evidenceId.value}, tick := s.tick + 1)
  }

  /** The state after the verifier has run. */
  ghost function AfterVerifier(c: Config, s: State, id: RequestId, env: Env): (t: State)
    ensures s.requests.Keys <= t.requests.Keys
    decreases env, 3
  {
    var s' := s.(tick := s.tick + 2);
    if env.Quiet? then s' else Callback(c, s', id, env.nested)
  }

  ghost function IngestApproval(c: Config, s: State, id: RequestId, e: ApprovalInput, env: Env): (res: Result)
    ensures s.requests.Keys <= res.state.requests.Keys
    decreases env, 4
  {
    var problem := EvidenceProblem(c, s, id, e);
    if problem.Some? then Result(s, Raised(problem.value))
    else
      var t := AfterVerifier(c, s, id, env);
      if env.Quiet? || !env.reply.Trusts? then Result(t, Raised(VerifierFailed))
      else if !env.reply.verdict then Result(t, Raised(NotTrusted))
      else
        var g := WaitingGate(s.workflows[id].gates, s.requests[id], 0).value;
        AdvanceAndRelease(c, Consume(c, t, id, g, e), id, s.workflows[id], env.rest)
  }

  ghost function Initial(world: P.World): State {
    State(map[], map[], map[], {}, {}, {}, 0, world, [], [])
  }
}
