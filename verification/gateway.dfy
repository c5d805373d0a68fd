/** The gate engine in its own form: an object whose methods update its tables in place, with
    the scan of `_advance` as a loop and calls back from callbacks as real re-entry. Each method
    is proved to change the state exactly as the engine's function does, and to keep `Valid`.

    `script` arguments hold the callbacks' behaviour that has not been used yet. */
module Gateway {
  import opened JsonValues
  import opened GateGraph
  import opened Policies
  import opened Claims
  import opened GateEngine
  import opened RequestLifecycle
  import opened EngineSafety
  import E = GateEngine
  import S = AuthorizationStore
  import P = ConsumptionProtocol

  /** A callback and what the engine makes of its answer. */
  ghost function CalledOut(c: Config, s: State, id: RequestId, g: Gate, script: Env): Firing
    requires id in s.requests
  {
    if script.Quiet? then Firing(Conclude(c, s, id, g, Raises), script)
    else Firing(Conclude(c, Callback(c, s, id, script.nested), id, g, script.reply), script.rest)
  }

  class GatewayEngine {
    const config: Config
    ghost const own: iset<Key>
    var requests: map<RequestId, Request>
    var workflows: map<RequestId, Workflow>
    var idempotency: map<Key, RequestId>
    var consumedApprovals: set<string>
    var consumedNotices: set<string>
    var active: set<RequestId>
    var tick: nat
    var world: P.World
    var targetCalls: seq<RequestId>
    var signed: seq<Claims>

    function View(): State
      reads this
    {
      State(requests, workflows, idempotency, consumedApprovals, consumedNotices, active, tick, world, targetCalls,
        signed)
    }

    ghost predicate Valid()
      reads this
    {
      Ok(config, View(), own, active)
    }

    /** `world` is the state of the shared authorization store when the engine starts. */
    constructor (config: Config, world: P.World, ghost own: iset<Key>)
      requires AcceptedPolicy(config.policy) && Joins(world, own)
      ensures Valid() && this.config == config && this.own == own && View() == Initial(world)
    {
      this.config, this.own, this.world := config, own, world;
      requests, workflows, idempotency := map[], map[], map[];
      consumedApprovals, consumedNotices, active := {}, {}, {};
      tick, targetCalls, signed := 0, [], [];
      new;
      hide Ok, Joins, AcceptedPolicy;
      StartsOk(config, world, own);
      assert View() == Initial(world);
    }

    method ReadClock() returns (now: int)
      modifies `tick
      ensures now == config.clock(old(tick)) && tick == old(tick) + 1
    {
      now := config.clock(tick);
      tick := tick + 1;
    }

    method Replace(id: RequestId, r: Request)
      modifies `requests
      ensures requests == old(requests)[id := r]
    {
      requests := requests[id := r];
    }

    /** The approvals among the ancestors of the execute gate. */
    method AwaitedApprovals(id: RequestId, e: string) returns (ids: seq<string>)
      requires Closed(Requirements(Defs(id))) && e in Defs(id)
      ensures ids == Awaited(id, e)
    {
      var gates := id.hash.workflow.gates;
      var found := Ancestors(e, Requirements(Definitions(gates)));
      ids := [];
      for i := 0 to |gates|
        invariant ids == ApprovalAncestors(gates, e, i)
      {
        if gates[i].body.ApprovalGate? && gates[i].id in found {
          ids := ids + [gates[i].id];
        }
      }
    }

    // ---- A gate's record ---------------------------------------------------------------------

    method MarkSatisfied(id: RequestId, g: string, status: Status, evidence: Evidence)
      requires id in requests && !status.Pending?
      modifies `requests
      ensures requests == old(requests)[id := Pass(old(requests)[id], g, status, evidence)]
    {
      var r := requests[id];
      requests := requests[id := r.(gates := r.gates[g := GateRecord(status, evidence)],
                                    trace := r.trace + [Fired(g), Satisfied(g)])];
    }

    /** `_block`. */
    method Block(id: RequestId, g: string)
      requires id in requests
      modifies `requests
      ensures requests == old(requests)[id := Stop(old(requests)[id], g)]
    {
      var r := requests[id];
      requests := requests[id := r.(gates := r.gates[g := GateRecord(Stopped, Problem)], state := Blocked,
                                    blockedBy := Some(g), trace := r.trace + [Fired(g)])];
    }

    method FailCallback(id: RequestId, g: string)
      requires id in requests
      modifies `requests
      ensures requests == old(requests)[id := Break(old(requests)[id], g, true)]
    {
      var r := requests[id];
      requests := requests[id := r.(gates := r.gates[g := GateRecord(Broken, Problem)], state := Failed,
                                    blockedBy := Some(g), trace := r.trace + [Fired(g)])];
    }

    method FailExecute(id: RequestId, g: string)
      requires id in requests
      modifies `requests
      ensures requests == old(requests)[id := BreakExecute(old(requests)[id], g)]
    {
      var r := requests[id];
      requests := requests[id := r.(gates := r.gates[g := GateRecord(Broken, Problem)], state := Failed,
                                    executionPossible := false, consumptionPossible := false, token := None,
                                    authorization := None, trace := r.trace + [Fired(g)])];
    }

    method AskForApproval(id: RequestId, g: string, level: Level, ttl: int)
      requires id in requests
      modifies `requests
      ensures requests == old(requests)[id := Wait(old(requests)[id], g, level, ttl)]
    {
      var r := requests[id];
      requests := requests[id := r.(gates := r.gates[g := GateRecord(Waiting, Awaiting(level, ttl))],
                                    state := WaitingForApproval, trace := r.trace + [Fired(g)])];
    }

    // ---- Firing one gate ---------------------------------------------------------------------

    method FireCondition(id: RequestId, g: Gate)
      requires id in requests && g.body.ConditionGate?
      modifies `requests
      ensures requests == old(requests)[id := E.FireCondition(old(requests)[id], id, g)]
    {
      hide Compare, ResolvePath;
      var b := id.hash;
      var document := Obj(map["action" := Str(b.action), "parameters" := Obj(b.parameters), "context" := b.context,
                              "trusted_context" := b.trustedContext, "requester" := Str(b.requester)]);
      var actual := ResolvePath(document, g.body.path);
      if actual.None? {
        Block(id, g.id);
        return;
      }
      var matches := Compare(actual.value, g.body.test);
      if matches {
        MarkSatisfied(id, g.id, Passed, Observed(actual.value));
      } else {
        Block(id, g.id);
      }
    }

    method FireGate(id: RequestId, g: Gate, script: Env) returns (rest: Env)
      requires AboutToFire(config, View(), own, active + {id}, id, g) && EnvWithin(script, own)
      modifies this
      ensures View() == Fire(config, old(View()), id, id.hash.workflow, g, script).state
      ensures rest == Fire(config, old(View()), id, id.hash.workflow, g, script).env
      decreases script, 1
    {
      hide Ok, RequestOk, Conclude, ConcludeIssue, Callback, E.FireCondition, ResolveInput, Document;
      rest := script;
      match g.body
      case SchemaGate => MarkSatisfied(id, g.id, Passed, Normalized);
      case ConditionGate(_, _) => FireCondition(id, g);
      case ApprovalGate(level, ttl) => AskForApproval(id, g.id, level, ttl);
      case ToolGate(_, input, _, _, _) =>
        var arguments := ResolveInput(input, Document(id));
        if arguments.None? || id in active {
          FailCallback(id, g.id);
        } else {
          rest := CallOutAndConclude(id, g, script);
        }
      case NotifyGate(_, _) =>
        if id in active {
          FailCallback(id, g.id);
        } else {
          rest := CallOutAndConclude(id, g, script);
        }
      case ExecuteGate(_, _) => rest := FireExecute(id, g, script);
    }

    /** Runs a callback that may call back into this engine. */
    method CallbackScope(id: RequestId, nested: Calls)
      requires Ok(config, View(), own, active + {id}) && id in requests && id !in active && CallsWithin(nested, own)
      modifies this
      ensures View() == Callback(config, old(View()), id, nested)
      decreases nested, 1
    {
      hide RequestsOk, IndexOk, RowsOk, CallsOk, P.Consistent, AcceptedPolicy;
      active := active + {id};
      assert Ok(config, View(), own, active);
      RunNested(nested);
      active := active - {id};
    }

    method CallOutAndConclude(id: RequestId, g: Gate, script: Env) returns (rest: Env)
      requires Ok(config, View(), own, active + {id}) && id in requests && id !in active && EnvWithin(script, own)
      requires g.body.ToolGate? || g.body.NotifyGate? || g.body.ExecuteGate?
      modifies this
      ensures Firing(View(), rest) == CalledOut(config, old(View()), id, g, script)
      decreases script, 0, 0
    {
      hide Ok, Callback, ConcludeRead, ConcludeNotify, ConcludeTarget;
      var reply := Raises;
      rest := script;
      if script.Answer? {
        CallbackScope(id, script.nested);
        reply, rest := script.reply, script.rest;
      }
      if g.body.ToolGate? {
        FinishRead(id, g, reply);
      } else if g.body.NotifyGate? {
        FinishNotify(id, g, reply);
      } else {
        FinishTarget(id, g, reply);
      }
    }

    method FinishRead(id: RequestId, g: Gate, reply: Reply)
      requires id in requests && g.body.ToolGate?
      modifies this
      ensures View() == ConcludeRead(config, old(View()), id, g, reply)
    {
      hide Compare, ResolvePath;
      var actual := if reply.Returns? && reply.value.Obj? then ResolvePath(reply.value, g.body.expectPath) else None;
      if actual.None? {
        FailCallback(id, g.id);
      } else if !Compare(actual.value, g.body.outcome) {
        Block(id, g.id);
      } else {
        var now := ReadClock();
        MarkSatisfied(id, g.id, Passed, ReadResult(reply.value, now));
      }
    }

    /** The notice names this request, this gate and what the gate was to send, under a new id. */
    method CheckNotice(id: RequestId, g: Gate, n: Notice) returns (bound: bool)
      requires g.body.NotifyGate?
      ensures bound == NoticeBound(View(), id, g, n)
    {
      bound := n.requestId == Some(id) && n.requestHash == Some(id.hash) && n.gateId == Some(g.id)
               && n.recipient == Some(g.body.recipient) && n.template == Some(g.body.template)
               && n.noticeId.Some? && n.noticeId.value != "" && n.noticeId.value !in consumedNotices;
    }

    method FinishNotify(id: RequestId, g: Gate, reply: Reply)
      requires id in requests && g.body.NotifyGate?
      modifies this
      ensures View() == ConcludeNotify(config, old(View()), id, g, reply)
    {
      hide Pass, Stop, Break, NoticeBound;
      if !reply.Sends? {
        FailCallback(id, g.id);
        return;
      }
      var n := reply.notice;
      var bound := CheckNotice(id, g, n);
      NoticeHasId(View(), id, g, n);
      var r := requests[id].(notificationDelivered := n.delivered);
      ghost var start := requests;
      Replace(id, r);
      if config.policy.enforcing {
        var now := ReadClock();
        bound := bound && n.deliveredAt.Some? && r.createdAt <= n.deliveredAt.value <= now;
      }
      if !bound || (config.policy.enforcing && !n.delivered) {
        Block(id, g.id);
        assert requests == start[id := Stop(r, g.id)];
      } else {
        consumedNotices := consumedNotices + {n.noticeId.value};
        var status := if n.delivered then Passed else Rehearsed;
        MarkSatisfied(id, g.id, status, Notified(n));
        assert requests == start[id := Pass(r, g.id, status, Notified(n))];
      }
    }

    method FinishTarget(id: RequestId, g: Gate, reply: Reply)
      requires id in requests
      modifies this
      ensures View() == ConcludeTarget(old(View()), id, g, reply)
    {
      targetCalls := targetCalls + [id];
      if reply.Returns? && reply.value.Obj? {
        MarkSatisfied(id, g.id, Passed, CalledWith(reply.value));
        requests := requests[id := requests[id].(state := Executed, executionPossible := true)];
      } else {
        FailExecute(id, g.id);
      }
    }

    method FireExecute(id: RequestId, g: Gate, script: Env) returns (rest: Env)
      requires AboutToFire(config, View(), own, active + {id}, id, g) && g.body.ExecuteGate? && EnvWithin(script, own)
      modifies this
      ensures View() == Fire(config, old(View()), id, id.hash.workflow, g, script).state
      ensures rest == Fire(config, old(View()), id, id.hash.workflow, g, script).env
      decreases script, 0, 1
    {
      hide Ok, RequestOk, Conclude, ConcludeIssue, Callback, PrepareExecute;
      rest := script;
      var done, ids := CheckBeforeExecuting(id, g);
      if done {
        return;
      }
      if config.policy.version == 2 {
        var reply := if script.Quiet? then Raises else script.reply;
        rest := if script.Quiet? then script else script.rest;
        IssueAuthorization(id, g, ids, reply);
      } else {
        TickOk(config, old(View()), own, active + {id}, tick);
        rest := CallOutAndConclude(id, g, script);
      }
    }

    /** Everything before the signer or the target is called; `done` when it is not. */
    method CheckBeforeExecuting(id: RequestId, g: Gate) returns (done: bool, ids: seq<string>)
      requires id in requests && RequestOk(config, id, requests[id]) && g.body.ExecuteGate? && g.id in Defs(id)
      modifies this
      ensures var m := PrepareExecute(config, old(View()), id, id.hash.workflow, g);
              && View() == m.state && done == m.Finished? && ids == Awaited(id, g.id)
              && (!done ==>
                     (m.IssueNow? <==> config.policy.version == 2) && (m.CallOut? ==> id !in active)
                       && View() == old(View()).(tick := tick))
    {
      hide RequestOk, BreakExecute, Stop, Pass, AnyExpired;
      WorkflowClosed(config, id, requests[id]);
      ids := AwaitedApprovals(id, g.id);
      var expired := SomeExpired(id, ids);
      done := true;
      if expired {
        Block(id, g.id);
      } else if config.policy.version == 2 {
        if config.authority.None? || !config.hasStore {
          FailExecute(id, g.id);
        } else {
          done := false;
        }
      } else if g.body.simulationOnly || !config.policy.executionEnabled {
        MarkSatisfied(id, g.id, Rehearsed, WouldCall(g.body.target));
        requests := requests[id := requests[id].(state := Simulated, executionPossible := false)];
      } else if !config.hasExecutionAuthority || id in active {
        FailExecute(id, g.id);
      } else {
        done := false;
      }
    }

    /** Each awaited approval's expiry against a reading of its own. */
    method SomeExpired(id: RequestId, ids: seq<string>) returns (expired: bool)
      requires id in requests
      modifies `tick
      ensures expired == AnyExpired(config, old(tick), requests[id], ids) && tick == old(tick) + |ids|
    {
      var gates := requests[id].gates;
      expired := false;
      for i := 0 to |ids|
        invariant tick == old(tick) + i
        invariant expired <==>
                    exists j | 0 <= j < i ::
                      !HoldsApproval(requests[id], ids[j])
                      || ApprovalOf(requests[id], ids[j]).expiresAt <= config.clock(old(tick) + j)
      {
        var now := ReadClock();
        if ids[i] !in gates || !gates[ids[i]].evidence.ApprovedBy?
           || gates[ids[i]].evidence.approval.expiresAt <= now {
          expired := true;
        }
      }
    }

    /** The body handed to the signer: what was asked for, until the earliest expiry, with every
        awaited approval's evidence and provenance. */
    method BuildClaims(id: RequestId, g: Gate, ids: seq<string>, now: int, authorizationId: string, nonce: string)
      returns (body: Claims)
      requires id in requests && g.body.ExecuteGate? && AllHoldApproval(requests[id], ids)
      ensures body == ClaimsFor(config, id, requests[id], g, ids, now, authorizationId, nonce)
    {
      var r, b := requests[id], id.hash;
      var expiresAt := now + config.policy.authorizationTtl;
      var evidenceIds: multiset<string> := multiset{};
      var provenance: map<string, Json> := map[];
      for i := 0 to |ids|
        invariant expiresAt == MinExpiry(r, ids, i, now + config.policy.authorizationTtl)
        invariant evidenceIds == EvidenceIds(r, ids, i) && provenance == ProvenanceOf(r, ids, i)
      {
        var approval := r.gates[ids[i]].evidence.approval;
        if approval.expiresAt <= expiresAt {
          expiresAt := approval.expiresAt;
        }
        evidenceIds := evidenceIds + multiset{approval.evidenceId};
        provenance := provenance[approval.evidenceId := approval.provenance];
      }
      body := Claims(authorizationId, "", config.policy.audience, id, b.requester, b.control, b.action, g.body.target,
                     b.parameters, map[], config.policyHash, evidenceIds, provenance, now, expiresAt, nonce,
                     config.policy.executionEnabled, g.body.simulationOnly);
    }

    method IssueAuthorization(id: RequestId, g: Gate, ids: seq<string>, reply: Reply)
      requires id in requests && g.body.ExecuteGate? && ids == Awaited(id, g.id)
      modifies this
      ensures View() == ConcludeIssue(config, old(View()), id, id.hash.workflow, g, reply)
    {
      hide ValidBody, ClaimsFor, S.Recorded, BreakExecute, ApprovalAncestors, AllHoldApproval;
      var r := requests[id];
      var now := ReadClock();
      if !reply.Names? || !AllHoldApproval(r, ids) || config.authority.None? {
        FailExecute(id, g.id);
        return;
      }
      var body := BuildClaims(id, g, ids, now, reply.authorizationId, reply.nonce);
      signed := signed + [body];
      var token := Issue(config.authority.value, body);
      if token.None? {
        FailExecute(id, g.id);
        return;
      }
      var x := token.value.claims;
      var granted := r.(gates := r.gates[g.id := GateRecord(Granted, AuthorizedAs(x.authorizationId, x.expiresAt))],
                        token := token, authorization := Some(S.AuthorizationView(x.authorizationId, S.Issued, None)),
                        state := Authorized, executionPossible := false, consumptionPossible := true,
                        trace := r.trace + [Fired(g.id)]);
      var snapshot := S.Snapshot(id, Authorized, granted.authorization, true, r.createdAt, Null);
      var recorded := S.Recorded(world.db, token.value, snapshot);
      if !reply.fate.FailsFirst? {
        world := world.(db := recorded.db);
      }
      if reply.fate.Commits? && recorded.Stored? {
        Replace(id, granted);
      } else {
        FailExecute(id, g.id);
      }
    }

    // ---- Calls made by a callback ------------------------------------------------------------

    method RunNested(calls: Calls)
      requires Valid() && CallsWithin(calls, own)
      modifies this
      ensures View() == RunCalls(config, old(View()), calls)
      decreases calls, 0
    {
      hide Ok;
      if calls.More? {
        RunCallOk(config, View(), own, calls.head);
        RunOne(calls.head);
        RunNested(calls.tail);
      }
    }

    method RunOne(call: Call)
      requires Valid() && CallWithin(call, own)
      modifies this
      ensures View() == RunCall(config, old(View()), call)
      decreases call, 0
    {
      hide Ok, P.Apply, E.CancelRequest, E.RequestAction, E.IngestApproval;
      match call
      case RequestCall(args, script) => var _ := RequestAction(args, script);
      case CancelCall(id, requester, fate) => var _ := CancelRequest(id, requester, fate);
      case IngestCall(id, evidence, script) => var _ := IngestTrustedApproval(id, evidence, script);
      case WorldCall(step) =>
        if !step.Record? {
          world := P.Apply(world, step);
        }
    }

    // ---- Advancing ---------------------------------------------------------------------------

    /** Repeated in-order scans. The last branch is the source's "made no progress" error. */
    method AdvanceRequest(id: RequestId, script: Env)
      requires Scanning(config, View(), own, id, 0, false, script)
      modifies this
      ensures View() == Advance(config, old(View()), id, id.hash.workflow, 0, false, script).state
      decreases script, 2
    {
      hide Ok, RequestOk, Fire, Ready;
      var w := id.hash.workflow;
      ghost var start := View();
      var rest := script;
      while true
        invariant Ok(config, View(), own, active + {id}) && id in requests && id !in active
                  && requests[id].state.Processing?
        invariant EnvWithin(rest, own) && (rest == script || rest < script)
        invariant Advance(config, start, id, w, 0, false, script) == Advance(config, View(), id, w, 0, false, rest)
        decreases rest, PendingSet(requests[id])
      {
        var progressed := false;
        var i := 0;
        ghost var rest0, pending0 := rest, PendingSet(requests[id]);
        while i < |w.gates|
          invariant 0 <= i <= |w.gates|
          invariant Ok(config, View(), own, active + {id}) && id in requests && id !in active
                    && requests[id].state.Processing?
          invariant EnvWithin(rest, own) && (rest == script || rest < script)
          invariant ScanOk(id, requests[id], i, progressed)
          invariant !progressed ==> rest == rest0 && PendingSet(requests[id]) == pending0
          invariant progressed ==> rest < rest0 || (rest == rest0 && PendingSet(requests[id]) < pending0)
          invariant Advance(config, start, id, w, 0, false, script)
                    == Advance(config, View(), id, w, i, progressed, rest)
        {
          if Ready(requests[id], w.gates[i]) {
            ghost var before := View();
            BusyRequestOk(config, before, own, id);
            GateDefined(config, id, requests[id], i);
            FireOk(config, before, own, id, w.gates[i], rest);
            rest := FireGate(id, w.gates[i], rest);
            progressed := true;
            if !requests[id].state.Processing? {
              return;
            }
          }
          i := i + 1;
        }
        if !progressed {
          BusyRequestOk(config, View(), own, id);
          SomeGateReady(config, id, requests[id]);
          assert false;
        }
      }
    }

    method ReleaseTerminalWorkflow(id: RequestId)
      modifies `workflows
      ensures View() == Release(old(View()), id)
    {
      if id in requests {
        match requests[id].state
        case Blocked | Cancelled | Simulated | Executed | Failed => workflows := workflows - {id};
        case _ =>
      }
    }

    method AdvanceThenRelease(id: RequestId, script: Env)
      requires Ok(config, View(), own, active + {id}) && id in requests && id !in active
               && requests[id].state.Processing?
      requires EnvWithin(script, own)
      modifies this
      ensures Valid() && AdvanceAndRelease(config, old(View()), id, id.hash.workflow, script)
              == Result(View(), Accepts(id))
      decreases script, 3
    {
      hide Ok, Advance;
      AdvanceAndReleaseOk(config, View(), own, id, script);
      AdvanceRequest(id, script);
      ReleaseTerminalWorkflow(id);
    }

    // ---- Public calls ------------------------------------------------------------------------

    /** The checks of `request_action` before it looks at the idempotency key. */
    method CheckRequest(args: RequestArgs) returns (problem: Option<Error>)
      ensures problem == RequestProblem(config, args)
    {
      hide ValidParameters;
      if args.action !in config.policy.workflows {
        return Some(UnknownAction);
      }
      var w := config.policy.workflows[args.action];
      var approvals := false;
      for i := 0 to |w.gates|
        invariant approvals <==> exists j | 0 <= j < i :: w.gates[j].body.ApprovalGate?
      {
        approvals := approvals || w.gates[i].body.ApprovalGate?;
      }
      if !approvals {
        return Some(NoApprovalGate);
      }
      if args.requester == "" || args.key == "" {
        return Some(BadRequester);
      }
      if "*" !in w.principals && args.requester !in w.principals {
        return Some(PrincipalDenied);
      }
      var valid := ValidateParameters(w.parameters, args.parameters);
      problem := if valid then None else Some(BadParameters);
    }

    /** A new request: every gate pending, nothing decided. */
    method EnterRequest(id: RequestId)
      modifies `requests, `workflows, `idempotency, `tick
      ensures View() == Admit(config, old(View()), id)
    {
      var gates := id.hash.workflow.gates;
      var records: map<string, GateRecord> := map[];
      for i := 0 to |gates|
        invariant records.Keys == DefinitionsUpTo(gates, i).Keys
        invariant forall g | g in records :: records[g] == GateRecord(Pending, NoEvidence)
      {
        records := records[gates[i].id := GateRecord(Pending, NoEvidence)];
      }
      var createdAt := ReadClock();
      var request := Request(Processing, records, None, false, false, false, createdAt, None, None, []);
      assert records == NewRequest(config, old(View()), id.hash.workflow).gates;
      requests := requests[id := request];
      workflows := workflows[id := id.hash.workflow];
      idempotency := idempotency[Key(id.hash.requester, id.hash.idempotencyKey) := id];
    }

    method RequestAction(args: RequestArgs, script: Env) returns (response: Response)
      requires Valid() && Key(args.requester, args.key) in own && EnvWithin(script, own)
      modifies this
      ensures Valid() && E.RequestAction(config, old(View()), args, script) == Result(View(), response)
      decreases script, 4
    {
      hide Ok, RequestProblem, Lawful, AdvanceAndRelease, AcceptedPolicy, NewRequest, Admit, EffectiveWorkflow;
      var problem := CheckRequest(args);
      if problem.Some? {
        return Raised(problem.value);
      }
      PolicyHolds(config, View(), own, active);
      LawfulRequest(config, args);
      ActionKnown(config, args);
      var w := config.policy.workflows[args.action];
      var id := RequestId(RequestBody(config.policy.version, args.action, args.parameters, args.context,
                                      args.trustedContext, args.requester, args.key, args.floor, PolicyControl(w.gates),
                                      EffectiveControl(w.gates, args.floor), EffectiveWorkflow(w, args.floor)));
      var key := Key(args.requester, args.key);
      if key in idempotency {
        return if idempotency[key] == id then Accepts(id) else Raised(KeyReused);
      }
      FreshKeyFreshRequest(config, View(), own, active, id);
      AdmitOk(config, View(), own, id);
      Admitted(config, View(), id);
      EnterRequest(id);
      AdvanceThenRelease(id, script);
      return Accepts(id);
    }

    /** The checks of `cancel_request` before it touches the store. */
    method CheckCancel(id: RequestId, requester: string) returns (problem: Option<Error>)
      ensures problem == CancelProblem(config, View(), id, requester)
    {
      if id in active {
        return Some(InCallback);
      }
      if id !in requests {
        return Some(NotFound);
      }
      if requester != id.hash.requester {
        return Some(NotRequester);
      }
      match requests[id].state
      case Blocked | Cancelled | Simulated | Executed | Failed => problem := Some(AlreadyTerminal);
      case _ => problem := None;
    }

    /** The store's `cancel` of one row, which may raise before or after it commits. */
    method WithdrawRow(a: string, fate: Fate) returns (done: bool)
      modifies `tick, `world
      ensures tick == old(tick) + 1
      ensures world == if fate.FailsFirst? then old(world)
                       else P.Apply(old(world), P.Withdraw(a, config.clock(old(tick))))
      ensures done == (fate.Commits? && Withdrawable(old(world).db, a))
    {
      hide P.Apply;
      var now := ReadClock();
      done := fate.Commits? && a in world.db.rows && world.db.rows[a].state in {S.Issued, S.RowState.Cancelled};
      if !fate.FailsFirst? {
        world := P.Apply(world, P.Withdraw(a, now));
      }
    }

    method MarkRequestCancelled(id: RequestId)
      requires id in requests
      modifies `requests
      ensures requests == old(requests)[id := MarkCancelled(old(requests)[id])]
    {
      var r := requests[id];
      var authorization := r.authorization;
      if authorization.Some? {
        authorization := Some(authorization.value.(status := S.RowState.Cancelled));
      }
      requests := requests[id := r.(state := Cancelled, consumptionPossible := false, authorization := authorization)];
    }

    method CancelRequest(id: RequestId, requester: string, fate: Fate) returns (response: Response)
      requires Valid()
      modifies this
      ensures Valid() && E.CancelRequest(config, old(View()), id, requester, fate) == Result(View(), response)
    {
      hide Ok, P.Apply, MarkCancelled, Withdrawable;
      CancelOk(config, View(), own, id, requester, fate);
      var problem := CheckCancel(id, requester);
      if problem.Some? {
        return Raised(problem.value);
      }
      var authorization := requests[id].authorization;
      if authorization.Some? {
        if !config.hasStore {
          return Raised(StoreRefused);
        }
        var done := WithdrawRow(authorization.value.id, fate);
        if !done {
          return Raised(StoreRefused);
        }
      }
      MarkRequestCancelled(id);
      ReleaseTerminalWorkflow(id);
      return Accepts(id);
    }

    /** The first gate that waits for its approval. */
    method FindWaiting(id: RequestId) returns (gate: Option<Gate>)
      requires id in requests && id in workflows
      ensures gate == WaitingGate(workflows[id].gates, requests[id], 0)
    {
      var gates, records := workflows[id].gates, requests[id].gates;
      for i := 0 to |gates|
        invariant WaitingGate(gates, requests[id], 0) == WaitingGate(gates, requests[id], i)
      {
        var g := gates[i];
        if g.body.ApprovalGate? && g.id in records && records[g.id].status.Waiting? {
          return Some(g);
        }
      }
      gate := None;
    }

    /** The checks of `ingest_trusted_approval` before it asks the verifier, and the gate the
        evidence is for. */
    method CheckEvidence(id: RequestId, e: ApprovalInput) returns (problem: Option<Error>, gate: Option<Gate>)
      ensures problem == EvidenceProblem(config, View(), id, e)
      ensures problem.None? ==>
                id in requests && id in workflows && gate.Some?
                && gate == WaitingGate(workflows[id].gates, requests[id], 0)
    {
      hide WaitingGate;
      gate := None;
      if id in active {
        return Some(InCallback), None;
      }
      if id !in requests || !requests[id].state.WaitingForApproval? || id !in workflows {
        return Some(NotWaiting), None;
      }
      gate := FindWaiting(id);
      if gate.None? || !gate.value.body.ApprovalGate? {
        return Some(NotWaiting), None;
      }
      var required := if gate.value.body.level.HumanStepUp? then StepUp else Ask;
      problem :=
        if !e.approves then Some(NotApproving)
        else if e.evidenceId.None? || e.evidenceId.value == "" then Some(BadEvidence)
        else if e.evidenceId.value in consumedApprovals then Some(EvidenceConsumed)
        else if e.requestId != Some(id) then Some(WrongBinding)
        else if e.requestHash != Some(id.hash) then Some(WrongBinding)
        else if e.gateId != Some(gate.value.id) then Some(WrongBinding)
        else if e.expiresAt.None? || e.expiresAt.value <= config.clock(tick) then Some(EvidenceExpired)
        else if e.expiresAt.value > config.clock(tick + 1) + gate.value.body.ttl then Some(ExpiryBeyondTtl)
        else if e.actor.None? || e.actor.value == "" then Some(BadEvidence)
        else if e.assurance.None? then Some(BadEvidence)
        else if Rank(e.assurance.value) < Rank(required) then Some(WeakAssurance)
        else None;
    }

    method RecordApproval(id: RequestId, g: Gate, e: ApprovalInput)
      requires id in requests && e.evidenceId.Some? && e.actor.Some? && e.assurance.Some? && e.expiresAt.Some?
      modifies this
      ensures View() == Consume(config, old(View()), id, g, e)
    {
      consumedApprovals := consumedApprovals + {e.evidenceId.value};
      var consumedAt := ReadClock();
      var approval :=
        Approval(e.evidenceId.value, e.actor.value, e.assurance.value, e.expiresAt.value, consumedAt, e.provenance);
      var r := requests[id];
      requests := requests[id := r.(gates := r.gates[g.id := GateRecord(Approved, ApprovedBy(approval))],
                                    state := Processing, trace := r.trace + [Satisfied(g.id)])];
    }

    method IngestTrustedApproval(id: RequestId, e: ApprovalInput, script: Env) returns (response: Response)
      requires Valid() && EnvWithin(script, own)
      modifies this
      ensures Valid() && IngestApproval(config, old(View()), id, e, script) == Result(View(), response)
      decreases script, 4
    {
      hide Ok, EvidenceProblem, AdvanceAndRelease, Callback, ApprovalFits, WaitingGate, Consume, RequestOk;
      var problem, gate := CheckEvidence(id, e);
      if problem.Some? {
        return Raised(problem.value);
      }
      EvidenceFits(config, View(), View().(tick := tick + 2), own, id, e);
      TickOk(config, View(), own, active, tick + 2);
      VerifierOk(config, View(), own, id, script);
      tick := tick + 2;
      if script.Quiet? {
        return Raised(VerifierFailed);
      }
      InsideCallback(config, View(), own, id);
      CallbackScope(id, script.nested);
      if !script.reply.Trusts? {
        return Raised(VerifierFailed);
      }
      if !script.reply.verdict {
        return Raised(NotTrusted);
      }
      EvidenceFits(config, old(View()), View(), own, id, e);
      ConsumeOk(config, View(), own, id, gate.value, e);
      ConsumedFrame(config, View(), id, gate.value, e);
      RecordApproval(id, gate.value, e);
      AdvanceThenRelease(id, script.rest);
      return Accepts(id);
    }
  }

  lemma NoticeHasId(s: State, id: RequestId, g: Gate, n: Notice)
    requires g.body.NotifyGate?
    ensures NoticeBound(s, id, g, n) ==> n.noticeId.Some?
  {
  }

  lemma Admitted(c: Config, s: State, id: RequestId)
    ensures var t := Admit(c, s, id);
            id in t.requests && t.requests[id].state.Processing? && t.active == s.active
  {
  }

  lemma ActionKnown(c: Config, args: RequestArgs)
    requires RequestProblem(c, args).None?
    ensures args.action in c.policy.workflows
  {
  }

  lemma InsideCallback(c: Config, s: State, own: iset<Key>, id: RequestId)
    requires Ok(c, s, own, s.active) && id in s.requests
    ensures Ok(c, s, own, s.active + {id})
  {
    hide RequestsOk, IndexOk, RowsOk, CallsOk, P.Consistent, AcceptedPolicy;
    BusierIndex(s.requests, s.workflows, s.idempotency, s.active, id);
  }

  lemma WorkflowClosed(c: Config, id: RequestId, r: Request)
    requires RequestOk(c, id, r)
    ensures Closed(Requirements(Defs(id)))
  {
    hide ShapeOk, FlagsOk, HistoryOk, ApprovalsOk, ChecksOk, TokenOk;
  }
}
