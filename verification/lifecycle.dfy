/** What one request keeps through its life, and that each way a gate can fire keeps it. */
module RequestLifecycle {
  import opened JsonValues
  import opened GateGraph
  import opened Policies
  import opened Claims
  import opened GateEngine

  function Defs(id: RequestId): map<string, Gate> { Definitions(id.hash.workflow.gates) }

  ghost predicate Monotone(c: Config) {
    forall i: nat, j: nat | i <= j :: c.clock(i) <= c.clock(j)
  }

  /** A request is drawn from the policy: its action's workflow with the caller's floor, asked for
      by a principal of that workflow, with parameters its schema allows. */
  predicate Drawn(c: Config, id: RequestId) {
    var b := id.hash;
    && b.action in c.policy.workflows
    && var w := c.policy.workflows[b.action];
       && b.workflow == EffectiveWorkflow(w, b.floor) && b.control == EffectiveControl(w.gates, b.floor)
       && b.version == c.policy.version && b.requester != "" && b.idempotencyKey != ""
       && ("*" in w.principals || b.requester in w.principals)
       && ValidParameters(w.parameters, b.parameters)
  }

  /** The workflow a request runs under was accepted and asks for its effective control. */
  ghost predicate Lawful(c: Config, id: RequestId) {
    && AcceptedWorkflow(id.hash.workflow, c.policy.executionEnabled)
    && ControlMatches(id.hash.workflow, id.hash.control)
    && Drawn(c, id)
  }

  /** The gates the policy itself declares for the request's action. */
  function Declared(c: Config, id: RequestId): map<string, Gate> {
    if id.hash.action in c.policy.workflows then Definitions(c.policy.workflows[id.hash.action].gates) else map[]
  }

  /** The policy or the caller asks for step-up. */
  predicate AsksStepUp(c: Config, id: RequestId) {
    id.hash.action in c.policy.workflows && StepsUp(c.policy.workflows[id.hash.action].gates, id.hash.floor)
  }

  /** Every gate a request runs under is what its policy's own gate becomes. */
  lemma DeclaredGate(c: Config, id: RequestId, g: string)
    requires Lawful(c, id)
    ensures Declared(c, id).Keys == Defs(id).Keys
    ensures g in Defs(id) ==> InForce(Declared(c, id)[g], Defs(id)[g], AsksStepUp(c, id))
    ensures id.hash.control.StepUp? <==> AsksStepUp(c, id)
  {
    hide AcceptedWorkflow, ControlMatches, ValidParameters, Definitions;
    var w := c.policy.workflows[id.hash.action];
    GateInForce(w, id.hash.floor, g);
    WorkflowInForce(w, id.hash.floor);
  }

  /** How a gate's record fits its definition and the request's state. */
  predicate GateFits(def: Gate, rec: GateRecord, state: PublicState) {
    && (rec.status.Waiting? ==> def.body.ApprovalGate? && (state.WaitingForApproval? || state.Cancelled?)
                                && rec.evidence == Awaiting(def.body.level, def.body.ttl))
    && (rec.status.Approved? <==> rec.evidence.ApprovedBy?)
    && (def.body.ApprovalGate? ==> rec.status.Pending? || rec.status.Waiting? || rec.status.Approved?)
    && (rec.status.Approved? ==> def.body.ApprovalGate?)
    && (rec.status.Rehearsed? ==> def.body.NotifyGate? || def.body.ExecuteGate?)
    && (state.Processing? || state.WaitingForApproval? ==>
          && (rec.status.Pending? || rec.status.Waiting? || Satisfies(rec.status))
          && (def.body.ExecuteGate? ==> rec.status.Pending?))
  }

  ghost predicate ShapeOk(id: RequestId, r: Request) {
    && r.gates.Keys == Defs(id).Keys
    && (forall g | g in r.gates :: GateFits(Defs(id)[g], r.gates[g], r.state))
    && (forall g, h | g in r.gates && h in r.gates && r.gates[g].status.Waiting? && r.gates[h].status.Waiting? ::
           g == h)
    && (r.state.WaitingForApproval? ==> exists g | g in r.gates :: r.gates[g].status.Waiting?)
    && (forall g | g in r.gates && r.gates[g].status.Stopped? :: r.state.Blocked? && r.blockedBy == Some(g))
  }

  predicate FlagsOk(r: Request) {
    && (r.consumptionPossible <==> r.state.Authorized?)
    && (r.executionPossible <==> r.state.Executed?)
    && (r.state.Processing? || r.state.WaitingForApproval? || r.state.Authorized? || Terminal(r.state))
    && (r.token.Some? <==> r.authorization.Some?)
    && (r.state.Authorized? ==> r.token.Some?)
    && (r.token.Some? ==>
           (r.state.Authorized? || r.state.Cancelled?)
             && r.authorization.value.id == r.token.value.claims.authorizationId)
  }

  /** Whatever has left `pending` had everything it requires satisfied. */
  ghost predicate DepsOk(id: RequestId, r: Request) {
    forall g, d | g in r.gates && g in Defs(id) && !r.gates[g].status.Pending? && d in Defs(id)[g].needs ::
      d in r.gates && Satisfies(r.gates[d].status)
  }

  predicate Before(trace: seq<Event>, j: nat, e: Event)
    requires j <= |trace|
  {
    exists i | 0 <= i < j :: trace[i] == e
  }

  /** No event twice; a gate fires after everything it requires was satisfied; it is satisfied
      after it fired. */
  ghost predicate Ordered(id: RequestId, trace: seq<Event>) {
    && (forall i, j | 0 <= i < j < |trace| :: trace[i] != trace[j])
    && (forall j, d | 0 <= j < |trace| && trace[j].Fired? && trace[j].gate in Defs(id)
         && d in Defs(id)[trace[j].gate].needs ::
          Before(trace, j, Satisfied(d)))
    && (forall j | 0 <= j < |trace| && trace[j].Satisfied? :: Before(trace, j, Fired(trace[j].gate)))
  }

  /** The history and the gate records tell the same story. */
  ghost predicate TraceMatches(r: Request) {
    forall g :: (Fired(g) in r.trace <==> g in r.gates && !r.gates[g].status.Pending?)
                && (Satisfied(g) in r.trace <==> g in r.gates && Satisfies(r.gates[g].status))
  }

  ghost predicate HistoryOk(id: RequestId, r: Request) {
    Ordered(id, r.trace) && TraceMatches(r) && DepsOk(id, r)
  }

  /** An accepted approval is strong enough for its gate and, under a monotone clock, lives no
      longer than the gate allows. */
  ghost predicate ApprovalFits(c: Config, def: Gate, a: Approval) {
    && def.body.ApprovalGate?
    && a.evidenceId != ""
    && Rank(a.assurance) >= Rank(LevelControl(def.body.level))
    && (Monotone(c) ==> a.expiresAt <= a.consumedAt + def.body.ttl)
  }

  ghost predicate ApprovalsOk(c: Config, id: RequestId, r: Request) {
    forall g | g in Defs(id) && HoldsApproval(r, g) :: ApprovalFits(c, Defs(id)[g], ApprovalOf(r, g))
  }

  /** A passed check really holds: the condition on the request, the expectation on the result,
      the binding of the notice; and a condition that does not hold is not passed. */
  predicate CheckHolds(c: Config, id: RequestId, def: Gate, rec: GateRecord) {
    && (def.body.ConditionGate? && !rec.status.Pending? ==>
          var v := ResolvePath(Document(id), def.body.path);
          if v.Some? && Compare(v.value, def.body.test) then rec == GateRecord(Passed, Observed(v.value))
          else rec.status.Stopped?)
    && (rec.status.Passed? && def.body.ToolGate? ==>
          && rec.evidence.ReadResult?
          && ResolvePath(rec.evidence.result, def.body.expectPath).Some?
          && Compare(ResolvePath(rec.evidence.result, def.body.expectPath).value, def.body.outcome))
    && (Satisfies(rec.status) && def.body.NotifyGate? ==> rec.evidence.Notified? && NoticeHolds(c, id, def, rec))
  }

  /** A satisfied notify gate holds a notice bound to it; an enforcing policy wants it delivered. */
  predicate NoticeHolds(c: Config, id: RequestId, def: Gate, rec: GateRecord)
    requires def.body.NotifyGate? && rec.evidence.Notified?
  {
    && NoticeNames(id, def, rec.evidence.notice)
    && (rec.status.Passed? <==> rec.evidence.notice.delivered)
    && (c.policy.enforcing ==> rec.evidence.notice.delivered)
  }

  ghost predicate ChecksOk(c: Config, id: RequestId, r: Request) {
    forall g | g in r.gates && g in Defs(id) :: CheckHolds(c, id, Defs(id)[g], r.gates[g])
  }

  /** `a` is an approval the execute gate `e` waits for. */
  ghost predicate Gating(id: RequestId, e: string, a: string) {
    a in Defs(id) && Defs(id)[a].body.ApprovalGate? && Reaches(Requirements(Defs(id)), e, a)
  }

  /** A granted token copies its request. */
  predicate TokenCopies(c: Config, id: RequestId, e: string, x: Claims) {
    && e in Defs(id) && Defs(id)[e].body.ExecuteGate?
    && x.requestId == id && x.requester == id.hash.requester && x.assurance == id.hash.control
    && x.action == id.hash.action && x.parameters == id.hash.parameters
    && x.target == Defs(id)[e].body.target && x.simulationOnly == Defs(id)[e].body.simulationOnly
    && x.executionEnabled == c.policy.executionEnabled && x.policyHash == c.policyHash
    && x.audience == c.policy.audience
    && x.issuedAt < x.expiresAt <= x.issuedAt + c.policy.authorizationTtl
  }

  /** It expires no later than any approval it rests on, and lists that approval's evidence. */
  ghost predicate TokenRests(id: RequestId, r: Request, e: string, x: Claims) {
    forall a | Gating(id, e, a) ::
      HoldsApproval(r, a) && x.expiresAt <= ApprovalOf(r, a).expiresAt && ApprovalOf(r, a).evidenceId in x.evidenceIds
  }

  ghost predicate EvidenceFrom(id: RequestId, r: Request, e: string, n: string) {
    exists a :: Gating(id, e, a) && HoldsApproval(r, a) && ApprovalOf(r, a).evidenceId == n
  }

  /** It lists no other evidence. */
  ghost predicate TokenLists(id: RequestId, r: Request, e: string, x: Claims) {
    forall n | n in x.evidenceIds :: EvidenceFrom(id, r, e, n)
  }

  ghost predicate TokenFits(c: Config, id: RequestId, r: Request, e: string, x: Claims) {
    TokenCopies(c, id, e, x) && Fired(e) in r.trace && TokenRests(id, r, e, x) && TokenLists(id, r, e, x)
  }

  ghost predicate TokenBinds(c: Config, id: RequestId, r: Request, x: Claims) {
    forall e | e in Defs(id) && Defs(id)[e].body.ExecuteGate? :: TokenFits(c, id, r, e, x)
  }

  ghost predicate TokenOk(c: Config, id: RequestId, r: Request) {
    r.token.Some? ==> TokenBinds(c, id, r, r.token.value.claims)
  }

  ghost predicate RequestOk(c: Config, id: RequestId, r: Request) {
    && Lawful(c, id)
    && ShapeOk(id, r) && FlagsOk(r) && HistoryOk(id, r)
    && ApprovalsOk(c, id, r) && ChecksOk(c, id, r) && TokenOk(c, id, r)
  }

  // ---- One firing -------------------------------------------------------------------------

  /** `g` fired, and if that satisfied it, the history says so. */
  predicate FiredAs(r: Request, r': Request, g: string) {
    && GateFired(r, r', g)
    && r'.trace == r.trace + [Fired(g)] + (if Satisfies(r'.gates[g].status) then [Satisfied(g)] else [])
  }

  lemma AppendOrdered(id: RequestId, trace: seq<Event>, e: Event)
    requires Ordered(id, trace) && e !in trace
    requires e.Fired? && e.gate in Defs(id) ==> forall d | d in Defs(id)[e.gate].needs :: Satisfied(d) in trace
    requires e.Satisfied? ==> Fired(e.gate) in trace
    ensures Ordered(id, trace + [e])
  {
    var longer := trace + [e];
    forall j, d | 0 <= j < |longer| && longer[j].Fired? && longer[j].gate in Defs(id)
      && d in Defs(id)[longer[j].gate].needs
      ensures Before(longer, j, Satisfied(d))
    {
      if j < |trace| {
        assert Before(trace, j, Satisfied(d));
        var i :| 0 <= i < j && trace[i] == Satisfied(d);
        assert longer[i] == Satisfied(d);
      } else {
        var i :| 0 <= i < |trace| && trace[i] == Satisfied(d);
        assert longer[i] == Satisfied(d);
      }
    }
    forall j | 0 <= j < |longer| && longer[j].Satisfied? ensures Before(longer, j, Fired(longer[j].gate)) {
      if j < |trace| {
        assert Before(trace, j, Fired(trace[j].gate));
        var i :| 0 <= i < j && trace[i] == Fired(trace[j].gate);
        assert longer[i] == trace[i];
      } else {
        var i :| 0 <= i < |trace| && trace[i] == Fired(e.gate);
        assert longer[i] == trace[i];
      }
    }
  }

  lemma FiringKeepsOrder(id: RequestId, r: Request, r': Request, g: string)
    requires HistoryOk(id, r) && g in Defs(id) && Ready(r, Defs(id)[g]) && Defs(id)[g].id == g
    requires FiredAs(r, r', g)
    ensures Ordered(id, r'.trace)
  {
    assert Fired(g) !in r.trace && Satisfied(g) !in r.trace;
    forall d | d in Defs(id)[g].needs ensures Satisfied(d) in r.trace {
      var i :| 0 <= i < |Defs(id)[g].needs| && Defs(id)[g].needs[i] == d;
    }
    AppendOrdered(id, r.trace, Fired(g));
    var fired := r.trace + [Fired(g)];
    if Satisfies(r'.gates[g].status) {
      assert fired[|r.trace|] == Fired(g);
      AppendOrdered(id, fired, Satisfied(g));
    } else {
      assert r'.trace == fired;
    }
  }

  lemma FiringKeepsHistory(id: RequestId, r: Request, r': Request, g: string)
    requires HistoryOk(id, r) && g in Defs(id) && Ready(r, Defs(id)[g]) && Defs(id)[g].id == g
    requires FiredAs(r, r', g)
    ensures HistoryOk(id, r')
  {
    FiringKeepsOrder(id, r, r', g);
    FiringKeepsMatch(r, r', g);
    FiringKeepsDeps(id, r, r', g);
  }

  lemma FiringKeepsMatch(r: Request, r': Request, g: string)
    requires TraceMatches(r) && FiredAs(r, r', g) && g in r.gates && r.gates[g].status.Pending?
    ensures TraceMatches(r')
  {
  }

  lemma FiringKeepsDeps(id: RequestId, r: Request, r': Request, g: string)
    requires DepsOk(id, r) && g in Defs(id) && Ready(r, Defs(id)[g]) && Defs(id)[g].id == g
    requires GateFired(r, r', g)
    ensures DepsOk(id, r')
  {
    forall h, d | h in r'.gates && h in Defs(id) && !r'.gates[h].status.Pending? && d in Defs(id)[h].needs
      ensures d in r'.gates && Satisfies(r'.gates[d].status)
    {
      if h == g {
        var i :| 0 <= i < |Defs(id)[g].needs| && Defs(id)[g].needs[i] == d;
      }
      assert d in r.gates && Satisfies(r.gates[d].status);
    }
  }

  /** The new record suits the state the request moves to. */
  predicate FiringFits(c: Config, id: RequestId, r': Request, g: string)
    requires g in r'.gates && g in Defs(id)
  {
    && GateFits(Defs(id)[g], r'.gates[g], r'.state)
    && (r'.state.WaitingForApproval? <==> r'.gates[g].status.Waiting?)
    && !r'.state.Cancelled?
    && (r'.gates[g].status.Stopped? ==> r'.state.Blocked? && r'.blockedBy == Some(g))
    && !r'.gates[g].evidence.ApprovedBy?
    && CheckHolds(c, id, Defs(id)[g], r'.gates[g])
  }

  lemma FiringKeepsShape(c: Config, id: RequestId, r: Request, r': Request, g: string)
    requires ShapeOk(id, r) && r.state.Processing? && g in r.gates
    requires GateFired(r, r', g) && FiringFits(c, id, r', g)
    ensures ShapeOk(id, r')
  {
    forall h | h in r'.gates ensures GateFits(Defs(id)[h], r'.gates[h], r'.state) {
      assert GateFits(Defs(id)[h], r.gates[h], r.state);
    }
    if r'.state.WaitingForApproval? {
      assert r'.gates[g].status.Waiting?;
    }
  }

  /** Any way of firing that fits keeps everything. */
  lemma FiringKeepsRequest(c: Config, id: RequestId, r: Request, r': Request, g: string)
    requires RequestOk(c, id, r) && r.state.Processing? && g in Defs(id) && Ready(r, Defs(id)[g]) && Defs(id)[g].id == g
    requires FiredAs(r, r', g) && FiringFits(c, id, r', g) && FlagsOk(r')
    requires TokenOk(c, id, r')
    ensures RequestOk(c, id, r')
  {
    FiringKeepsHistory(id, r, r', g);
    FiringKeepsShape(c, id, r, r', g);
    FiringKeepsApprovals(c, id, r, r', g);
    FiringKeepsChecks(c, id, r, r', g);
  }

  lemma FiringKeepsApprovals(c: Config, id: RequestId, r: Request, r': Request, g: string)
    requires ApprovalsOk(c, id, r) && GateFired(r, r', g) && !r'.gates[g].evidence.ApprovedBy?
    ensures ApprovalsOk(c, id, r')
  {
    forall h | h in Defs(id) && HoldsApproval(r', h) ensures ApprovalFits(c, Defs(id)[h], ApprovalOf(r', h)) {
      assert HoldsApproval(r, h) && ApprovalOf(r, h) == ApprovalOf(r', h);
    }
  }

  lemma FiringKeepsChecks(c: Config, id: RequestId, r: Request, r': Request, g: string)
    requires ChecksOk(c, id, r) && GateFired(r, r', g) && g in Defs(id) && CheckHolds(c, id, Defs(id)[g], r'.gates[g])
    ensures ChecksOk(c, id, r')
  {
  }

  /** A gate about to fire in a request that is advancing. */
  ghost predicate Firable(c: Config, id: RequestId, r: Request, g: string) {
    RequestOk(c, id, r) && r.state.Processing? && g in Defs(id) && Ready(r, Defs(id)[g]) && Defs(id)[g].id == g
  }

  lemma PassKeeps(c: Config, id: RequestId, r: Request, g: string, status: Status, evidence: Evidence)
    requires Firable(c, id, r, g) && !Defs(id)[g].body.ApprovalGate? && !Defs(id)[g].body.ExecuteGate?
    requires status.Passed? || (status.Rehearsed? && Defs(id)[g].body.NotifyGate?)
    requires !evidence.ApprovedBy?
    requires CheckHolds(c, id, Defs(id)[g], GateRecord(status, evidence))
    ensures RequestOk(c, id, Pass(r, g, status, evidence))
  {
    var r' := Pass(r, g, status, evidence);
    assert r'.trace == r.trace + [Fired(g)] + [Satisfied(g)];
    FiringKeepsRequest(c, id, r, r', g);
  }

  lemma StopKeeps(c: Config, id: RequestId, r: Request, g: string)
    requires Firable(c, id, r, g) && !Defs(id)[g].body.ApprovalGate?
    requires CheckHolds(c, id, Defs(id)[g], GateRecord(Stopped, Problem))
    ensures RequestOk(c, id, Stop(r, g))
  {
    var r' := Stop(r, g);
    assert r'.trace == r.trace + [Fired(g)] + [];
    FiringKeepsRequest(c, id, r, r', g);
  }

  lemma BreakKeeps(c: Config, id: RequestId, r: Request, g: string, blocks: bool)
    requires Firable(c, id, r, g) && !Defs(id)[g].body.ApprovalGate? && !Defs(id)[g].body.ConditionGate?
    ensures RequestOk(c, id, Break(r, g, blocks))
    ensures RequestOk(c, id, BreakExecute(r, g))
  {
    assert Break(r, g, blocks).trace == r.trace + [Fired(g)] + [];
    FiringKeepsRequest(c, id, r, Break(r, g, blocks), g);
    assert BreakExecute(r, g).trace == r.trace + [Fired(g)] + [];
    FiringKeepsRequest(c, id, r, BreakExecute(r, g), g);
  }

  lemma WaitKeeps(c: Config, id: RequestId, r: Request, g: string, level: Level, ttl: int)
    requires Firable(c, id, r, g) && Defs(id)[g].body == ApprovalGate(level, ttl)
    ensures RequestOk(c, id, Wait(r, g, level, ttl))
  {
    var r' := Wait(r, g, level, ttl);
    assert r'.trace == r.trace + [Fired(g)] + [];
    FiringKeepsRequest(c, id, r, r', g);
  }

  lemma ExecuteKeeps(c: Config, id: RequestId, r: Request, g: string, evidence: Evidence)
    requires Firable(c, id, r, g) && Defs(id)[g].body.ExecuteGate? && !evidence.ApprovedBy?
    ensures RequestOk(c, id, Pass(r, g, Rehearsed, evidence).(state := Simulated, executionPossible := false))
    ensures RequestOk(c, id, Pass(r, g, Passed, evidence).(state := Executed, executionPossible := true))
  {
    var r1 := Pass(r, g, Rehearsed, evidence).(state := Simulated, executionPossible := false);
    assert r1.trace == r.trace + [Fired(g)] + [Satisfied(g)];
    FiringKeepsRequest(c, id, r, r1, g);
    var r2 := Pass(r, g, Passed, evidence).(state := Executed, executionPossible := true);
    assert r2.trace == r.trace + [Fired(g)] + [Satisfied(g)];
    FiringKeepsRequest(c, id, r, r2, g);
  }

  lemma DeliveryKeeps(c: Config, id: RequestId, r: Request, delivered: bool)
    requires RequestOk(c, id, r) && r.token.None?
    ensures RequestOk(c, id, r.(notificationDelivered := delivered))
  {
    hide Lawful, ApprovalsOk, ChecksOk;
    var r' := r.(notificationDelivered := delivered);
    SameGatesSameShape(id, r, r');
    SameGatesSameHistory(id, r, r');
    SameGatesSameApprovals(c, id, r, r');
  }

  lemma SameGatesSameShape(id: RequestId, r: Request, r': Request)
    requires ShapeOk(id, r) && r'.gates == r.gates && r'.state == r.state && r'.blockedBy == r.blockedBy
    ensures ShapeOk(id, r')
  {
    hide GateFits;
  }

  lemma SameGatesSameHistory(id: RequestId, r: Request, r': Request)
    requires HistoryOk(id, r) && r'.gates == r.gates && r'.state == r.state && r'.trace == r.trace
    ensures HistoryOk(id, r')
  {
    hide Ordered;
  }

  lemma SameGatesSameApprovals(c: Config, id: RequestId, r: Request, r': Request)
    requires ApprovalsOk(c, id, r) && ChecksOk(c, id, r) && r'.gates == r.gates
    ensures ApprovalsOk(c, id, r') && ChecksOk(c, id, r')
  {
    forall g | g in Defs(id) && HoldsApproval(r', g) ensures ApprovalFits(c, Defs(id)[g], ApprovalOf(r', g)) {
      assert HoldsApproval(r, g);
    }
  }

  // ---- Granting -----------------------------------------------------------------------------

  lemma {:induction false} AncestorsListed(gates: seq<Gate>, e: string, k: nat, a: string)
    requires k <= |gates|
    ensures a in ApprovalAncestors(gates, e, k) <==>
            exists i | 0 <= i < k ::
              gates[i].id == a && gates[i].body.ApprovalGate? && Reaches(Requirements(Definitions(gates)), e, a)
  {
    if k > 0 {
      AncestorsListed(gates, e, k - 1, a);
    }
  }

  /** The list the execute gate works with holds exactly the approvals it waits for. */
  lemma ApprovalsListed(w: Workflow, e: string, a: string)
    requires UniqueIds(w.gates)
    ensures a in ApprovalAncestors(w.gates, e, |w.gates|) <==>
            && a in Definitions(w.gates) && Definitions(w.gates)[a].body.ApprovalGate?
            && Reaches(Requirements(Definitions(w.gates)), e, a)
  {
    AncestorsListed(w.gates, e, |w.gates|, a);
    DefinitionsLookup(w.gates);
    if a in Definitions(w.gates) {
      var i :| 0 <= i < |w.gates| && w.gates[i] == Definitions(w.gates)[a];
    }
  }

  lemma {:induction false} MinExpiryBounds(r: Request, ids: seq<string>, k: nat, bound: int)
    requires k <= |ids| && AllHoldApproval(r, ids)
    ensures MinExpiry(r, ids, k, bound) <= bound
    ensures forall i | 0 <= i < k :: MinExpiry(r, ids, k, bound) <= ApprovalOf(r, ids[i]).expiresAt
  {
    if k > 0 {
      MinExpiryBounds(r, ids, k - 1, bound);
    }
  }

  lemma {:induction false} EvidenceIdsFrom(r: Request, ids: seq<string>, k: nat)
    requires k <= |ids| && AllHoldApproval(r, ids)
    ensures forall n :: n in EvidenceIds(r, ids, k) <==> exists i | 0 <= i < k :: ApprovalOf(r, ids[i]).evidenceId == n
  {
    if k > 0 {
      EvidenceIdsFrom(r, ids, k - 1);
    }
  }

  ghost function Awaited(id: RequestId, e: string): seq<string> {
    ApprovalAncestors(id.hash.workflow.gates, e, |id.hash.workflow.gates|)
  }

  lemma GrantedTokenRests(id: RequestId, r: Request, r': Request, e: string, bound: int, x: Claims)
    requires UniqueIds(id.hash.workflow.gates) && AllHoldApproval(r, Awaited(id, e))
    requires e in Defs(id) && !Defs(id)[e].body.ApprovalGate? && GateFired(r, r', e)
    requires x.expiresAt == MinExpiry(r, Awaited(id, e), |Awaited(id, e)|, bound)
    requires x.evidenceIds == EvidenceIds(r, Awaited(id, e), |Awaited(id, e)|)
    ensures TokenRests(id, r', e, x) && x.expiresAt <= bound
  {
    var ids := Awaited(id, e);
    MinExpiryBounds(r, ids, |ids|, bound);
    EvidenceIdsFrom(r, ids, |ids|);
    forall a | Gating(id, e, a)
      ensures HoldsApproval(r', a) && x.expiresAt <= ApprovalOf(r', a).expiresAt
              && ApprovalOf(r', a).evidenceId in x.evidenceIds
    {
      ApprovalsListed(id.hash.workflow, e, a);
      var i :| 0 <= i < |ids| && ids[i] == a;
      assert HoldsApproval(r, ids[i]) && a != e;
    }
  }

  lemma GrantedTokenLists(id: RequestId, r: Request, r': Request, e: string, x: Claims)
    requires UniqueIds(id.hash.workflow.gates) && AllHoldApproval(r, Awaited(id, e))
    requires e in Defs(id) && !Defs(id)[e].body.ApprovalGate? && GateFired(r, r', e)
    requires x.evidenceIds == EvidenceIds(r, Awaited(id, e), |Awaited(id, e)|)
    ensures TokenLists(id, r', e, x)
  {
    var ids := Awaited(id, e);
    EvidenceIdsFrom(r, ids, |ids|);
    forall n | n in x.evidenceIds ensures EvidenceFrom(id, r', e, n) {
      var i :| 0 <= i < |ids| && ApprovalOf(r, ids[i]).evidenceId == n;
      ApprovalsListed(id.hash.workflow, e, ids[i]);
      assert Gating(id, e, ids[i]) && HoldsApproval(r', ids[i]);
    }
  }

  lemma OneExecute(id: RequestId, enabled: bool, e: string, f: string)
    requires AcceptedWorkflow(id.hash.workflow, enabled)
    requires e in Defs(id) && Defs(id)[e].body.ExecuteGate? && f in Defs(id) && Defs(id)[f].body.ExecuteGate?
    ensures e == f
  {
    var x :| ExecuteIs(id.hash.workflow, Defs(id), x) && ExecutePathOk(Defs(id), x, enabled);
  }

  /** A token signed for a request copies it, is bounded by its approvals and names exactly
      their evidence, however the execute gate ends up. */
  lemma SignedTokenBinds(c: Config, id: RequestId, r: Request, r': Request, g: string, now: int,
      authority: Authority, a: string, nonce: string, t: Token)
    requires AcceptedWorkflow(id.hash.workflow, c.policy.executionEnabled)
    requires g in Defs(id) && Defs(id)[g].body.ExecuteGate? && Defs(id)[g].id == g && AllHoldApproval(r, Awaited(id, g))
    requires Issue(authority, ClaimsFor(c, id, r, Defs(id)[g], Awaited(id, g), now, a, nonce)) == Some(t)
    requires GateFired(r, r', g) && r'.trace == r.trace + [Fired(g)]
    ensures TokenBinds(c, id, r', t.claims)
  {
    hide AcceptedWorkflow, ClaimsFor, TokenRests, TokenLists;
    var x := t.claims;
    SignedTokenCopies(c, id, r, g, now, authority, a, nonce, t);
    GrantedTokenRests(id, r, r', g, now + c.policy.authorizationTtl, x);
    GrantedTokenLists(id, r, r', g, x);
    assert r'.trace[|r.trace|] == Fired(g);
    assert TokenFits(c, id, r', g, x);
    forall e | e in Defs(id) && Defs(id)[e].body.ExecuteGate? ensures TokenFits(c, id, r', e, x) {
      OneExecute(id, c.policy.executionEnabled, e, g);
    }
  }

  lemma SignedTokenCopies(c: Config, id: RequestId, r: Request, g: string, now: int, authority: Authority, a: string,
      nonce: string, t: Token)
    requires AcceptedWorkflow(id.hash.workflow, c.policy.executionEnabled)
    requires g in Defs(id) && Defs(id)[g].body.ExecuteGate? && AllHoldApproval(r, Awaited(id, g))
    requires Issue(authority, ClaimsFor(c, id, r, Defs(id)[g], Awaited(id, g), now, a, nonce)) == Some(t)
    ensures TokenCopies(c, id, g, t.claims) && UniqueIds(id.hash.workflow.gates)
    ensures t.claims.expiresAt == MinExpiry(r, Awaited(id, g), |Awaited(id, g)|, now + c.policy.authorizationTtl)
    ensures t.claims.evidenceIds == EvidenceIds(r, Awaited(id, g), |Awaited(id, g)|)
  {
    MinExpiryBounds(r, Awaited(id, g), |Awaited(id, g)|, now + c.policy.authorizationTtl);
  }

  lemma GrantKeeps(c: Config, id: RequestId, r: Request, g: string, t: Token)
    requires Firable(c, id, r, g) && Defs(id)[g].body.ExecuteGate?
    requires TokenOk(c, id, Grant(r, g, t))
    ensures RequestOk(c, id, Grant(r, g, t))
  {
    var r' := Grant(r, g, t);
    assert r'.trace == r.trace + [Fired(g)] + [];
    FiringKeepsRequest(c, id, r, r', g);
  }

  // ---- Creation, approval, cancellation ---------------------------------------------------------

  lemma NewRequestOk(c: Config, s: State, id: RequestId)
    requires Lawful(c, id)
    ensures RequestOk(c, id, NewRequest(c, s, id.hash.workflow))
  {
  }

  lemma ApproveKeeps(c: Config, id: RequestId, r: Request, g: string, a: Approval)
    requires RequestOk(c, id, r) && r.state.WaitingForApproval?
    requires g in r.gates && r.gates[g].status.Waiting? && ApprovalFits(c, Defs(id)[g], a)
    ensures RequestOk(c, id, Approve(r, g, a))
  {
    var r' := Approve(r, g, a);
    ApproveKeepsHistory(id, r, g, a);
    ApproveKeepsShape(id, r, g, a);
    ApproveKeepsApprovals(c, id, r, r', g);
  }

  lemma ApproveKeepsApprovals(c: Config, id: RequestId, r: Request, r': Request, g: string)
    requires ApprovalsOk(c, id, r) && ChecksOk(c, id, r) && GateFired(r, r', g) && r'.gates[g].status.Approved?
    requires g in Defs(id) && HoldsApproval(r', g) ==> ApprovalFits(c, Defs(id)[g], ApprovalOf(r', g))
    requires g in Defs(id) ==> Defs(id)[g].body.ApprovalGate?
    ensures ApprovalsOk(c, id, r') && ChecksOk(c, id, r')
  {
    forall h | h in Defs(id) && HoldsApproval(r', h) ensures ApprovalFits(c, Defs(id)[h], ApprovalOf(r', h)) {
      if h != g { assert HoldsApproval(r, h); }
    }
  }

  lemma ApproveKeepsHistory(id: RequestId, r: Request, g: string, a: Approval)
    requires HistoryOk(id, r) && g in r.gates && r.gates[g].status.Waiting?
    ensures HistoryOk(id, Approve(r, g, a))
  {
    var r' := Approve(r, g, a);
    assert Fired(g) in r.trace && Satisfied(g) !in r.trace;
    AppendOrdered(id, r.trace, Satisfied(g));
    assert TraceMatches(r');
    assert DepsOk(id, r');
  }

  lemma ApproveKeepsShape(id: RequestId, r: Request, g: string, a: Approval)
    requires ShapeOk(id, r) && r.state.WaitingForApproval? && g in r.gates && r.gates[g].status.Waiting?
    requires Defs(id)[g].body.ApprovalGate?
    ensures ShapeOk(id, Approve(r, g, a))
  {
  }

  lemma CancelKeeps(c: Config, id: RequestId, r: Request)
    requires RequestOk(c, id, r) && (r.state.WaitingForApproval? || r.state.Authorized?)
    ensures RequestOk(c, id, MarkCancelled(r))
  {
    var r' := MarkCancelled(r);
    CancelKeepsShape(id, r);
    SameGatesSameApprovals(c, id, r, r');
    if r.token.Some? {
      SameGatesSameToken(c, id, r, r', r.token.value.claims);
    }
  }

  lemma CancelKeepsShape(id: RequestId, r: Request)
    requires ShapeOk(id, r) && HistoryOk(id, r) && FlagsOk(r) && (r.state.WaitingForApproval? || r.state.Authorized?)
    ensures ShapeOk(id, MarkCancelled(r)) && HistoryOk(id, MarkCancelled(r)) && FlagsOk(MarkCancelled(r))
  {
  }

  lemma SameGatesSameToken(c: Config, id: RequestId, r: Request, r': Request, x: Claims)
    requires TokenBinds(c, id, r, x) && r'.gates == r.gates && r'.trace == r.trace
    ensures TokenBinds(c, id, r', x)
  {
    forall e | e in Defs(id) && Defs(id)[e].body.ExecuteGate? ensures TokenFits(c, id, r', e, x) {
      assert TokenFits(c, id, r, e, x);
      forall a | Gating(id, e, a)
        ensures HoldsApproval(r', a) && x.expiresAt <= ApprovalOf(r', a).expiresAt
                && ApprovalOf(r', a).evidenceId in x.evidenceIds
      {
        assert HoldsApproval(r, a);
      }
      forall n | n in x.evidenceIds ensures EvidenceFrom(id, r', e, n) {
        assert EvidenceFrom(id, r, e, n);
        var a :| Gating(id, e, a) && HoldsApproval(r, a) && ApprovalOf(r, a).evidenceId == n;
        assert HoldsApproval(r', a);
      }
    }
  }
}
