/** What the engine promises, read off its invariant. */
module EngineTheorems {
  import opened JsonValues
  import opened GateGraph
  import opened Policies
  import opened Claims
  import opened GateEngine
  import opened RequestLifecycle
  import opened EngineSafety
  import P = ConsumptionProtocol

  ghost const AllKeys: iset<Key> := iset k: Key | true

  /** Between operations: nothing is inside a callback. */
  ghost predicate Settled(c: Config, s: State, own: iset<Key>) {
    s.active == {} && Ok(c, s, own, {})
  }

  lemma {:induction false} EnvWithinAll(env: Env)
    ensures EnvWithin(env, AllKeys)
  {
    if env.Answer? {
      CallsWithinAll(env.nested);
      EnvWithinAll(env.rest);
    }
  }

  lemma {:induction false} CallsWithinAll(calls: Calls)
    ensures CallsWithin(calls, AllKeys)
  {
    if calls.More? {
      match calls.head {
        case RequestCall(_, env) => EnvWithinAll(env);
        case IngestCall(_, _, env) => EnvWithinAll(env);
        case _ =>
      }
      CallsWithinAll(calls.tail);
    }
  }

  /** Every state an engine reaches from a store that holds nothing for its keys, by any public
      calls with any callbacks interleaved with any broker and operator steps, satisfies the
      invariant. A restarted engine is one that starts again on the store it left. */
  lemma EveryRunIsSafe(c: Config, world: P.World, own: iset<Key>, calls: Calls)
    requires AcceptedPolicy(c.policy) && Joins(world, own) && CallsWithin(calls, own)
    ensures Settled(c, RunCalls(c, Initial(world), calls), own)
  {
    hide Ok, Joins;
    StartsOk(c, world, own);
    RunCallsOk(c, Initial(world), own, calls);
  }

  /** Over a fresh store an engine may answer for every key. */
  lemma FreshStoreJoins(world: P.World, calls: Calls)
    requires P.Fresh(world) && world.db.rows == map[]
    ensures Joins(world, AllKeys) && CallsWithin(calls, AllKeys)
  {
    CallsWithinAll(calls);
  }

  /** Between operations no request is left in `processing`, and a workflow is kept for exactly
      the requests that are not closed. */
  lemma NothingLeftProcessing(c: Config, s: State, own: iset<Key>)
    requires Settled(c, s, own)
    ensures forall id | id in s.requests :: !s.requests[id].state.Processing?
    ensures forall id :: id in s.workflows <==> id in s.requests && !Terminal(s.requests[id].state)
  {
    hide RequestsOk, RowsOk, CallsOk, P.Consistent, AcceptedPolicy;
  }

  /** No public call ever raises "made no progress". */
  lemma NeverStuck(c: Config, s: State, own: iset<Key>, args: RequestArgs, id: RequestId, e: ApprovalInput, env: Env)
    requires Settled(c, s, own) && EnvWithin(env, own) && Key(args.requester, args.key) in own
    ensures RequestAction(c, s, args, env).response != Raised(NoProgress)
    ensures IngestApproval(c, s, id, e, env).response != Raised(NoProgress)
  {
    hide Settled, RequestAction, IngestApproval;
    RequestNeverStuck(c, s, own, args, env);
    IngestNeverStuck(c, s, own, id, e, env);
  }

  lemma RequestNeverStuck(c: Config, s: State, own: iset<Key>, args: RequestArgs, env: Env)
    requires Settled(c, s, own) && EnvWithin(env, own) && Key(args.requester, args.key) in own
    ensures RequestAction(c, s, args, env).response != Raised(NoProgress)
  {
    hide Ok, RequestProblem, Lawful, AdvanceAndRelease, IdFor, Admit, KeyOf, AcceptedPolicy;
    ProblemsAreNotProgress(c, s, args);
    if RequestProblem(c, args).None? {
      var made := IdFor(c, args);
      PolicyHolds(c, s, own, s.active);
      LawfulRequest(c, args);
      if KeyOf(made) !in s.idempotency {
        FreshKeyFreshRequest(c, s, own, s.active, made);
        AdmitOk(c, s, own, made);
        AdmittedIsProcessing(c, s, made);
        AdvanceAndReleaseOk(c, Admit(c, s, made), own, made, env);
      }
    }
  }

  lemma AdmittedIsProcessing(c: Config, s: State, id: RequestId)
    ensures var t := Admit(c, s, id); id in t.requests && t.requests[id].state.Processing? && t.active == s.active
  {
  }

  lemma IngestNeverStuck(c: Config, s: State, own: iset<Key>, id: RequestId, e: ApprovalInput, env: Env)
    requires Settled(c, s, own) && EnvWithin(env, own)
    ensures IngestApproval(c, s, id, e, env).response != Raised(NoProgress)
  {
    hide Ok, EvidenceProblem, AdvanceAndRelease, AfterVerifier, Consume, ApprovalFits;
    EvidenceProblemsAreNotProgress(c, s, id, e);
    if EvidenceProblem(c, s, id, e).None? {
      EvidenceFits(c, s, s.(tick := s.tick + 2), own, id, e);
      VerifierOk(c, s, own, id, env);
      var t := AfterVerifier(c, s, id, env);
      if env.Answer? && env.reply.Trusts? && env.reply.verdict {
        EvidenceFits(c, s, t, own, id, e);
        var g := WaitingGate(s.workflows[id].gates, s.requests[id], 0).value;
        ConsumeOk(c, t, own, id, g, e);
        ConsumedFrame(c, t, id, g, e);
        AdvanceAndReleaseOk(c, Consume(c, t, id, g, e), own, id, env.rest);
      }
    }
  }

  lemma ProblemsAreNotProgress(c: Config, s: State, args: RequestArgs)
    ensures RequestProblem(c, args) != Some(NoProgress)
  {
  }

  lemma EvidenceProblemsAreNotProgress(c: Config, s: State, id: RequestId, e: ApprovalInput)
    ensures EvidenceProblem(c, s, id, e) != Some(NoProgress)
  {
  }

  /** What a caller may ask for: an action of the policy, in somebody's name, under some key, by
      a principal of its workflow, with parameters its schema allows. */
  predicate Requestable(c: Config, args: RequestArgs) {
    && args.action in c.policy.workflows && args.requester != "" && args.key != ""
    && var w := c.policy.workflows[args.action];
       && ("*" in w.principals || args.requester in w.principals)
       && ValidParameters(w.parameters, args.parameters)
  }

  /** The request is for exactly what was asked, under the policy's workflow in force. */
  predicate AsAsked(c: Config, id: RequestId, args: RequestArgs) {
    var b := id.hash;
    && b.action == args.action && b.parameters == args.parameters && b.context == args.context
    && b.trustedContext == args.trustedContext && b.requester == args.requester && b.idempotencyKey == args.key
    && b.floor == args.floor && b.version == c.policy.version && b.action in c.policy.workflows
    && var w := c.policy.workflows[b.action];
       && (b.policyControl.StepUp? <==> StepsUp(w.gates, PolicyDecides))
       && (b.control.StepUp? <==> StepsUp(w.gates, b.floor))
       && b.workflow.principals == w.principals && b.workflow.parameters == w.parameters
       && |b.workflow.gates| == |w.gates|
       && forall i | 0 <= i < |w.gates| :: InForce(w.gates[i], b.workflow.gates[i], StepsUp(w.gates, b.floor))
  }

  /** A request is accepted exactly when it may be asked for and its key is unused or was used for
      the very same request; what is accepted is what was asked, kept under its key. */
  ghost predicate RequestedRightly(c: Config, s: State, args: RequestArgs, res: Result) {
    var key := Key(args.requester, args.key);
    && (res.response.Accepts? <==>
          Requestable(c, args) && (key in s.idempotency ==> AsAsked(c, s.idempotency[key], args)))
    && (res.response.Accepts? ==>
          && AsAsked(c, res.response.id, args) && key in res.state.idempotency
          && res.state.idempotency[key] == res.response.id && res.response.id in res.state.requests)
    && (key in s.idempotency || !res.response.Accepts? ==> res.state == s)
  }

  lemma RequestAcceptsIff(c: Config, s: State, own: iset<Key>, args: RequestArgs, env: Env)
    requires Settled(c, s, own) && EnvWithin(env, own) && Key(args.requester, args.key) in own
    ensures RequestedRightly(c, s, args, RequestAction(c, s, args, env))
  {
    hide Ok, RequestProblem, Requestable, Lawful, AdvanceAndRelease, IdFor, Admit, AcceptedPolicy, AsAsked;
    PolicyHolds(c, s, own, s.active);
    RequestableIff(c, args);
    if Requestable(c, args) {
      var id := IdFor(c, args);
      LawfulRequest(c, args);
      IdIsAsAsked(c, args, id);
      if KeyOf(id) in s.idempotency {
        BoundRequest(c, s, own, s.active, KeyOf(id));
        IdIsAsAsked(c, args, s.idempotency[KeyOf(id)]);
      } else {
        FreshKeyFreshRequest(c, s, own, s.active, id);
        AdmitOk(c, s, own, id);
        AdmittedIsProcessing(c, s, id);
        AdvanceAndReleaseOk(c, Admit(c, s, id), own, id, env);
        KeptUnderKey(c, AdvanceAndRelease(c, Admit(c, s, id), id, id.hash.workflow, env).state, own, s.active, id);
      }
    }
  }

  lemma BoundRequest(c: Config, s: State, own: iset<Key>, busy: set<RequestId>, k: Key)
    requires Ok(c, s, own, busy) && k in s.idempotency
    ensures s.idempotency[k] in s.requests && Drawn(c, s.idempotency[k])
  {
    hide RowsOk, CallsOk, NoticesOk, P.Consistent, AcceptedPolicy, AcceptedWorkflow, ShapeOk, FlagsOk, HistoryOk,
      ApprovalsOk, ChecksOk, TokenOk, Drawn;
    assert RequestOk(c, s.idempotency[k], s.requests[s.idempotency[k]]);
  }

  lemma KeptUnderKey(c: Config, s: State, own: iset<Key>, busy: set<RequestId>, id: RequestId)
    requires Ok(c, s, own, busy) && id in s.requests
    ensures KeyOf(id) in s.idempotency && s.idempotency[KeyOf(id)] == id
  {
    hide RequestOk, RowsOk, CallsOk, NoticesOk, P.Consistent, AcceptedPolicy;
  }

  /** A request held that is as asked is the one a submission would make, kept under its key. */
  lemma HeldIsAsked(c: Config, s: State, own: iset<Key>, busy: set<RequestId>, args: RequestArgs, id: RequestId)
    requires Ok(c, s, own, busy) && id in s.requests && AsAsked(c, id, args)
    ensures RequestProblem(c, args).None? && IdFor(c, args) == id
    ensures KeyOf(id) == Key(args.requester, args.key) && KeyOf(id) in s.idempotency && s.idempotency[KeyOf(id)] == id
  {
    hide Ok, RequestProblem, IdFor, AcceptedPolicy, RequestOk, ValidParameters;
    PolicyHolds(c, s, own, busy);
    KeptUnderKey(c, s, own, busy, id);
    BoundRequest(c, s, own, busy, KeyOf(id));
    RequestableIff(c, args);
    IdIsAsAsked(c, args, id);
  }

  /** The identity of a request is as asked, and no other request of the policy is. */
  lemma IdIsAsAsked(c: Config, args: RequestArgs, x: RequestId)
    requires RequestProblem(c, args).None?
    ensures KeyOf(IdFor(c, args)) == Key(args.requester, args.key)
    ensures AsAsked(c, IdFor(c, args), args)
    ensures Drawn(c, x) && AsAsked(c, x, args) ==> x == IdFor(c, args)
  {
    hide ValidParameters, EffectiveWorkflow;
    var w := c.policy.workflows[args.action];
    WorkflowInForce(w, args.floor);
  }

  lemma RequestableIff(c: Config, args: RequestArgs)
    requires AcceptedPolicy(c.policy)
    ensures RequestProblem(c, args).None? <==> Requestable(c, args)
  {
    hide ValidParameters, AcceptedWorkflow, ControlMatches, EffectiveWorkflow, InForce;
    if args.action in c.policy.workflows {
      FloorOnlyRaises(c.policy.workflows[args.action], PolicyDecides, c.policy.executionEnabled);
    }
  }

  /** Who may cancel what: the requester a request that waits, or an authorized one whose row the
      store can still cancel and does. */
  ghost predicate Cancellable(c: Config, s: State, id: RequestId, requester: string, fate: Fate) {
    && id in s.requests && requester == id.hash.requester
    && var r := s.requests[id];
       || r.state.WaitingForApproval?
       || (&& r.state.Authorized? && r.authorization.Some? && c.hasStore && fate.Commits?
           && var a := r.authorization.value.id;
              a in s.world.db.rows && (s.world.db.rows[a].state.Issued? || s.world.db.rows[a].state.Cancelled?))
  }

  /** Exactly then it is cancelled, in the engine and in the store; otherwise nothing the engine
      shows changes. */
  ghost predicate CancelledRightly(c: Config, s: State, id: RequestId, requester: string, fate: Fate, res: Result) {
    && (res.response == Accepts(id) <==> Cancellable(c, s, id, requester, fate))
    && (res.response != Accepts(id) ==> res.response.Raised? && res.state.requests == s.requests)
    && (res.response == Accepts(id) ==>
          && id in s.requests && id in res.state.requests && res.state.requests[id].state.Cancelled?
          && res.state.requests[id].gates == s.requests[id].gates && !res.state.requests[id].consumptionPossible
          && (s.requests[id].authorization.Some? ==>
                && var a, shown := s.requests[id].authorization.value.id, res.state.requests[id].authorization;
                   && a in res.state.world.db.rows && res.state.world.db.rows[a].state.Cancelled?
                   && shown.Some? && shown.value.id == a && shown.value.status.Cancelled?))
  }

  lemma CancelAcceptsIff(c: Config, s: State, own: iset<Key>, id: RequestId, requester: string, fate: Fate)
    requires Settled(c, s, own)
    ensures CancelledRightly(c, s, id, requester, fate, CancelRequest(c, s, id, requester, fate))
  {
    hide Ok, P.Apply;
    if id in s.requests {
      CancelStates(c, s, own, id);
      if s.requests[id].authorization.Some? && Withdrawable(s.world.db, s.requests[id].authorization.value.id) {
        WithdrawnIsCancelled(s.world, s.requests[id].authorization.value.id, Now(c, s));
      }
    }
  }

  lemma CancelStates(c: Config, s: State, own: iset<Key>, id: RequestId)
    requires Settled(c, s, own) && id in s.requests
    ensures var r := s.requests[id];
            && (r.state.WaitingForApproval? || r.state.Authorized? || Terminal(r.state))
            && (r.state.WaitingForApproval? ==> r.authorization.None?)
            && (r.state.Authorized? ==> r.authorization.Some?)
  {
    hide Ok, Lawful, ShapeOk, HistoryOk, ApprovalsOk, ChecksOk, TokenOk;
    NothingLeftProcessing(c, s, own);
    RequestInvariant(c, s, own, {}, id);
  }

  /** Closed states are absorbing, and whatever a callback does, the requests inside callbacks
      come back untouched and the set of them comes back as it was. */
  lemma ClosedAndActiveRequestsStay(c: Config, s: State, own: iset<Key>, calls: Calls)
    requires Ok(c, s, own, s.active) && CallsWithin(calls, own)
    ensures var t := RunCalls(c, s, calls);
            && t.active == s.active
            && forall id | id in s.requests && (id in s.active || Terminal(s.requests[id].state)) ::
                 id in t.requests && t.requests[id] == s.requests[id]
  {
    hide Ok;
    RunCallsOk(c, s, own, calls);
  }

  // ---- Order ----------------------------------------------------------------------------------

  lemma RequestInvariant(c: Config, s: State, own: iset<Key>, busy: set<RequestId>, id: RequestId)
    requires Ok(c, s, own, busy) && id in s.requests
    ensures RequestOk(c, id, s.requests[id]) && KeyOf(id) in own
  {
    hide RequestOk, IndexOk, RowsOk, CallsOk, P.Consistent, AcceptedPolicy;
  }

  /** Before a gate fires, everything it reaches through `requires` was satisfied. */
  lemma {:induction false} AncestorsSatisfiedFirst(id: RequestId, trace: seq<Event>, j: nat, v: string, u: string)
    requires Ordered(id, trace) && Closed(Requirements(Defs(id)))
    requires j < |trace| && trace[j] == Fired(v) && v in Defs(id) && Reaches(Requirements(Defs(id)), v, u)
    ensures Before(trace, j, Satisfied(u))
    decreases j
  {
    var g := Requirements(Defs(id));
    FirstStep(g, v, u);
    var d :| d in g[v] && (d == u || Reaches(g, d, u));
    assert Before(trace, j, Satisfied(d));
    var i :| 0 <= i < j && trace[i] == Satisfied(d);
    if d != u {
      assert Before(trace, i, Fired(trace[i].gate));
      var k :| 0 <= k < i && trace[k] == Fired(d);
      AncestorsSatisfiedFirst(id, trace, k, d, u);
      var m :| 0 <= m < k && trace[m] == Satisfied(u);
    }
  }

  /** Over a request's whole life, pauses included, gates fire without repetition and in an
      order that extends the transitive closure of `requires`. */
  lemma TraceExtendsRequires(c: Config, id: RequestId, r: Request, j: nat, u: string)
    requires RequestOk(c, id, r) && j < |r.trace| && r.trace[j].Fired?
    ensures forall i | 0 <= i < |r.trace| && r.trace[i] == r.trace[j] :: i == j
    ensures r.trace[j].gate in Defs(id)
    ensures Reaches(Requirements(Defs(id)), r.trace[j].gate, u) ==>
              Before(r.trace, j, Satisfied(u)) && Before(r.trace, j, Fired(u))
  {
    hide FlagsOk, ApprovalsOk, ChecksOk, TokenOk, ControlMatches, ExecuteOk, ReachesKind;
    assert Fired(r.trace[j].gate) in r.trace;
    if Reaches(Requirements(Defs(id)), r.trace[j].gate, u) {
      AncestorsSatisfiedFirst(id, r.trace, j, r.trace[j].gate, u);
      var i :| 0 <= i < j && r.trace[i] == Satisfied(u);
      assert Before(r.trace, i, Fired(r.trace[i].gate));
    }
  }

  /** Positions i < j < k < l: approval satisfied, recheck fired, recheck satisfied, execute fired. */
  predicate RecheckInBetween(trace: seq<Event>, a: string, x: string, e: string, i: nat, j: nat, k: nat, l: nat) {
    && i < j < k < l < |trace|
    && trace[i] == Satisfied(a) && trace[j] == Fired(x) && trace[k] == Satisfied(x) && trace[l] == Fired(e)
  }

  /** At `path` of `document` stands a value in the relation `test` asks for. */
  predicate MatchesAt(document: Json, path: string, test: Comparison) {
    ResolvePath(document, path).Some? && Stands(ResolvePath(document, path).value, test)
  }

  /** A condition of the policy has fired: it passed with the value it compared if that matches,
      and otherwise the request is blocked by it. */
  ghost predicate Decided(c: Config, id: RequestId, r: Request, g: string)
    requires g in Declared(c, id) && Declared(c, id)[g].body.ConditionGate?
  {
    var body := Declared(c, id)[g].body;
    && g in r.gates
    && if MatchesAt(Document(id), body.path, body.test) then
         && r.gates[g] == GateRecord(Passed, Observed(ResolvePath(Document(id), body.path).value))
         && Satisfied(g) in r.trace
       else
         r.state.Blocked? && r.blockedBy == Some(g) && Satisfied(g) !in r.trace
  }

  lemma ConditionsDecide(c: Config, id: RequestId, r: Request, g: string)
    requires RequestOk(c, id, r) && Fired(g) in r.trace
    requires g in Declared(c, id) && Declared(c, id)[g].body.ConditionGate?
    ensures Decided(c, id, r, g)
  {
    hide Lawful, Declared, AsksStepUp, ApprovalsOk, TokenOk, FlagsOk, Ordered, DepsOk, Compare, Stands, ResolvePath;
    DeclaredGate(c, id, g);
    assert CheckHolds(c, id, Defs(id)[g], r.gates[g]);
    var v := ResolvePath(Document(id), Defs(id)[g].body.path);
    if v.Some? { CompareMeans(v.value, Defs(id)[g].body.test); }
  }

  /** A read that was satisfied returned what the policy's own gate expects. */
  lemma SatisfiedReadsMatch(c: Config, id: RequestId, r: Request, g: string)
    requires RequestOk(c, id, r) && Satisfied(g) in r.trace
    requires g in Declared(c, id) && Declared(c, id)[g].body.ToolGate?
    ensures var body := Declared(c, id)[g].body;
            && g in r.gates && r.gates[g].status.Passed? && r.gates[g].evidence.ReadResult?
            && MatchesAt(r.gates[g].evidence.result, body.expectPath, body.outcome)
  {
    hide Lawful, Declared, AsksStepUp, ApprovalsOk, TokenOk, FlagsOk, Ordered, DepsOk, Compare, Stands, ResolvePath;
    DeclaredGate(c, id, g);
    assert GateFits(Defs(id)[g], r.gates[g], r.state) && CheckHolds(c, id, Defs(id)[g], r.gates[g]);
    var v := ResolvePath(r.gates[g].evidence.result, Defs(id)[g].body.expectPath);
    CompareMeans(v.value, Defs(id)[g].body.outcome);
  }

  /** With execution enabled, by the time the execute gate fires every approval it waits for
      has been followed by a recheck of the policy whose reading stands as the policy expects. */
  lemma RecheckedAfterEveryApproval(c: Config, id: RequestId, r: Request, e: string, a: string)
    returns (x: string, i: nat, j: nat, k: nat, l: nat)
    requires RequestOk(c, id, r) && c.policy.executionEnabled
    requires e in Defs(id) && Defs(id)[e].body.ExecuteGate? && Fired(e) in r.trace && Gating(id, e, a)
    ensures RecheckInBetween(r.trace, a, x, e, i, j, k, l)
    ensures Rechecked(c, id, r, x)
  {
    hide ShapeOk, ChecksOk, TraceMatches, DepsOk, FlagsOk, ApprovalsOk, TokenOk, ControlMatches, Compare, ResolvePath,
      Declared, AsksStepUp, Drawn;
    x := RecheckGate(c, id, e, a);
    l :| 0 <= l < |r.trace| && r.trace[l] == Fired(e);
    AncestorsSatisfiedFirst(id, r.trace, l, e, x);
    k :| 0 <= k < l && r.trace[k] == Satisfied(x);
    assert Before(r.trace, k, Fired(r.trace[k].gate));
    j :| 0 <= j < k && r.trace[j] == Fired(x);
    AncestorsSatisfiedFirst(id, r.trace, j, x, a);
    i :| 0 <= i < j && r.trace[i] == Satisfied(a);
    assert Satisfied(x) in r.trace;
    DeclaredGate(c, id, x);
    SatisfiedReadsMatch(c, id, r, x);
  }

  /** `x` is a recheck of the policy, and what it read stands as the policy expects. */
  ghost predicate Rechecked(c: Config, id: RequestId, r: Request, x: string) {
    && x in Declared(c, id) && Declared(c, id)[x].body.ToolGate? && Declared(c, id)[x].body.recheck
    && x in r.gates && r.gates[x].status.Passed? && r.gates[x].evidence.ReadResult?
    && MatchesAt(r.gates[x].evidence.result, Declared(c, id)[x].body.expectPath, Declared(c, id)[x].body.outcome)
  }

  lemma RecheckGate(c: Config, id: RequestId, e: string, a: string) returns (x: string)
    requires AcceptedWorkflow(id.hash.workflow, c.policy.executionEnabled) && c.policy.executionEnabled
    requires e in Defs(id) && Defs(id)[e].body.ExecuteGate? && Gating(id, e, a)
    ensures x in Defs(id) && Defs(id)[x].IsRecheck()
    ensures Reaches(Requirements(Defs(id)), e, x) && Reaches(Requirements(Defs(id)), x, a)
    ensures Closed(Requirements(Defs(id)))
  {
    var e' :| ExecuteIs(id.hash.workflow, Defs(id), e') && ExecutePathOk(Defs(id), e', c.policy.executionEnabled);
    assert e == e' && RecheckedBetween(Defs(id), e, a);
    x :| x in Defs(id) && Defs(id)[x].IsRecheck() && Reaches(Requirements(Defs(id)), e, x)
      && Reaches(Requirements(Defs(id)), x, a);
  }

  /** By the time an approval gate fires, some notify gate it waits for was satisfied, by a notice
      naming this very request, that gate, its recipient and its template; an enforcing policy
      has also seen it delivered. */
  lemma NotifiedBeforeApproval(c: Config, id: RequestId, r: Request, a: string, j: nat) returns (n: string)
    requires RequestOk(c, id, r) && j < |r.trace| && r.trace[j] == Fired(a) && a in Defs(id)
             && Defs(id)[a].body.ApprovalGate?
    ensures Before(r.trace, j, Satisfied(n)) && Reaches(Requirements(Defs(id)), a, n)
    ensures n in Defs(id) && Defs(id)[n].body.NotifyGate? && n in r.gates && r.gates[n].evidence.Notified?
    ensures NoticeHolds(c, id, Defs(id)[n], r.gates[n])
  {
    hide FlagsOk, ApprovalsOk, TokenOk, ControlMatches, ExecuteOk, Compare, ResolvePath, NoticeHolds;
    assert ReachesKind(Defs(id), a, NotifyKind);
    n :| n in Defs(id) && Reaches(Requirements(Defs(id)), a, n) && HasKind(Defs(id)[n], NotifyKind);
    AncestorsSatisfiedFirst(id, r.trace, j, a, n);
    assert Satisfied(n) in r.trace;
    assert CheckHolds(c, id, Defs(id)[n], r.gates[n]);
  }

  /** No notification id is held by two gates, of one request or of two. */
  lemma NoticesUsedOnce(c: Config, s: State, own: iset<Key>, id: RequestId, g: string, id2: RequestId, g2: string)
    requires Settled(c, s, own) && id in s.requests && id2 in s.requests
    requires SameNotice(s.requests[id], g, s.requests[id2], g2)
    ensures id == id2 && g == g2 && NoticeOf(s.requests[id], g) in s.consumedNotices
  {
    hide RequestsOk, IndexOk, RowsOk, CallsOk, P.Consistent, AcceptedPolicy;
  }

  // ---- Windows and assurance ---------------------------------------------------------------------

  /** The approval of gate `a` ends within the window of the policy's own gate, and within 300
      seconds where the policy or the caller asks for step-up. */
  ghost predicate ApprovedWithin(c: Config, id: RequestId, r: Request, a: string) {
    && a in Declared(c, id) && Declared(c, id)[a].body.ApprovalGate? && HoldsApproval(r, a)
    && ApprovalOf(r, a).expiresAt <= ApprovalOf(r, a).consumedAt + Declared(c, id)[a].body.ttl
    && (AsksStepUp(c, id) ==> ApprovalOf(r, a).expiresAt <= ApprovalOf(r, a).consumedAt + 300)
  }

  lemma ApprovalsWithinWindows(c: Config, id: RequestId, r: Request, a: string)
    requires RequestOk(c, id, r) && Monotone(c) && a in Defs(id) && HoldsApproval(r, a)
    ensures ApprovedWithin(c, id, r, a)
  {
    hide Declared, AsksStepUp, Lawful, ShapeOk, FlagsOk, HistoryOk, ChecksOk, TokenOk;
    DeclaredGate(c, id, a);
  }

  /** The approval of gate `a` is held until `end` at least, at step-up where that is asked for;
      under a monotone clock it ends within its windows. */
  ghost predicate ApprovedUntil(c: Config, id: RequestId, r: Request, a: string, end: int) {
    && HoldsApproval(r, a) && end <= ApprovalOf(r, a).expiresAt
    && (AsksStepUp(c, id) ==> ApprovalOf(r, a).assurance.StepUp?)
    && (Monotone(c) ==> ApprovedWithin(c, id, r, a))
  }

  /** A token bound to a request expires after it was issued, within the policy's window, no
      later than any approval it rests on, each within its own window. */
  lemma NestedWindows(c: Config, id: RequestId, r: Request, x: Claims, e: string, a: string)
    requires RequestOk(c, id, r) && TokenBinds(c, id, r, x)
    requires e in Defs(id) && Defs(id)[e].body.ExecuteGate? && Gating(id, e, a)
    ensures x.issuedAt < x.expiresAt <= x.issuedAt + c.policy.authorizationTtl
    ensures ApprovedUntil(c, id, r, a, x.expiresAt)
    ensures x.assurance.StepUp? <==> AsksStepUp(c, id)
  {
    hide ShapeOk, FlagsOk, HistoryOk, ChecksOk, TokenOk, TokenLists, GraphOk, ExecuteOk, Declared, AsksStepUp, Monotone;
    assert TokenFits(c, id, r, e, x);
    if Monotone(c) {
      ApprovalsWithinWindows(c, id, r, a);
    }
    DeclaredGate(c, id, a);
    ApprovalGateControl(c, id, a);
  }

  lemma ApprovalGateControl(c: Config, id: RequestId, a: string)
    requires Lawful(c, id) && a in Defs(id) && Defs(id)[a].body.ApprovalGate?
    ensures LevelControl(Defs(id)[a].body.level) == id.hash.control
  {
    hide GraphOk, ExecuteOk;
    DefinitionsLookup(id.hash.workflow.gates);
    var i :| 0 <= i < |id.hash.workflow.gates| && id.hash.workflow.gates[i] == Defs(id)[a];
  }

  /** Every piece of evidence a token names is an approval of its request, of an assurance at
      least the token's; and the token's assurance is the request's effective control. */
  lemma AssuranceNoWeakerThanClaimed(c: Config, id: RequestId, r: Request, x: Claims, e: string,
      n: string) returns (a: string)
    requires RequestOk(c, id, r) && TokenBinds(c, id, r, x)
    requires e in Defs(id) && Defs(id)[e].body.ExecuteGate? && n in x.evidenceIds
    ensures Gating(id, e, a) && HoldsApproval(r, a) && ApprovalOf(r, a).evidenceId == n
    ensures x.assurance == id.hash.control && Rank(ApprovalOf(r, a).assurance) >= Rank(x.assurance)
  {
    hide ShapeOk, FlagsOk, HistoryOk, ChecksOk, TokenOk, TokenRests, GraphOk, ExecuteOk;
    assert TokenFits(c, id, r, e, x);
    assert EvidenceFrom(id, r, e, n);
    a :| Gating(id, e, a) && HoldsApproval(r, a) && ApprovalOf(r, a).evidenceId == n;
    ApprovalGateControl(c, id, a);
  }

  // ---- Engine and store -----------------------------------------------------------------------

  /** The row of one of the engine's own keys was granted to a request it holds. */
  lemma RowOfRequest(c: Config, s: State, own: iset<Key>, a: string)
    requires Settled(c, s, own) && a in s.world.db.rows && KeyOf(s.world.db.rows[a].requestId) in own
    ensures var id := s.world.db.rows[a].requestId;
            && id in s.requests && RequestOk(c, id, s.requests[id])
            && TokenBinds(c, id, s.requests[id], s.world.db.rows[a].token.claims)
  {
    hide IndexOk, CallsOk, NoticesOk, P.Consistent, AcceptedPolicy, TokenBinds, RequestOk, RowMatches;
  }

  /** A request has at most one authorization row, and at most one target call or row. */
  lemma OneEffectPerRequest(c: Config, s: State, own: iset<Key>, a: string, b: string)
    requires Settled(c, s, own)
    requires a in s.world.db.rows && KeyOf(s.world.db.rows[a].requestId) in own
    requires b in s.world.db.rows && s.world.db.rows[b].requestId == s.world.db.rows[a].requestId
    ensures a == b && s.targetCalls == []
    ensures s.world.db.rows[a].requestId in s.requests
  {
    hide RequestsOk, IndexOk, P.Consistent, AcceptedPolicy, TokenBinds;
    assert RowMatches(c, s.requests[s.world.db.rows[a].requestId], a, s.world.db.rows[a]);
  }

  /** A dispatch is for the request its row belongs to; a row of an engine's own request shown as
      cancelled is cancelled. */
  lemma DispatchedRows(c: Config, s: State, own: iset<Key>, i: nat)
    requires Settled(c, s, own) && i < |s.world.dispatches|
    ensures var a := s.world.dispatches[i].id;
            && a in s.world.db.rows && P.MayHaveRun(s.world.db.rows[a])
            && s.world.dispatches[i].token.claims.requestId == s.world.db.rows[a].requestId
  {
    hide RequestsOk, IndexOk, CallsOk, NoticesOk, RowMatches, TokenBinds, AcceptedPolicy, P.RunOk, P.OneHolder;
    P.ConsistentDispatches(s.world);
    assert P.DispatchOk(s.world, s.world.dispatches[i]);
    assert RowNamed(s.world.dispatches[i].id, s.world.db.rows[s.world.dispatches[i].id]);
  }

  lemma CancelledRows(c: Config, s: State, own: iset<Key>, a: string)
    requires Settled(c, s, own) && a in s.world.db.rows
    ensures var id := s.world.db.rows[a].requestId;
            id in s.requests && s.requests[id].state.Cancelled? ==> s.world.db.rows[a].state.Cancelled?
  {
    hide RequestOk, IndexOk, CallsOk, NoticesOk, TokenBinds, P.Consistent, AcceptedPolicy;
    if s.world.db.rows[a].requestId in s.requests {
      assert KeyOf(s.world.db.rows[a].requestId) in own;
      assert RowMatches(c, s.requests[s.world.db.rows[a].requestId], a, s.world.db.rows[a]);
    }
  }

  /** A request the engine shows as cancelled has no authorization row or a cancelled one: no
      dispatch is for it, and no direct call. */
  lemma CancelledWasNotRun(c: Config, s: State, own: iset<Key>, id: RequestId, i: nat)
    requires Settled(c, s, own) && id in s.requests && s.requests[id].state.Cancelled?
    ensures id !in s.targetCalls
    ensures i < |s.world.dispatches| ==> s.world.dispatches[i].token.claims.requestId != id
  {
    hide RequestsOk, IndexOk, RowsOk, NoticesOk, AcceptedPolicy, P.Consistent;
    if i < |s.world.dispatches| {
      DispatchedRows(c, s, own, i);
      CancelledRows(c, s, own, s.world.dispatches[i].id);
    }
  }

  /** Whenever a broker called a target, its last check fell inside every window of the request
      behind the token, those of each approval it rests on included. */
  lemma DispatchWithinWindows(c: Config, s: State, own: iset<Key>, k: nat, e: string, a: string)
    requires Settled(c, s, own) && k < |s.world.dispatches|
    requires KeyOf(s.world.dispatches[k].token.claims.requestId) in own
    requires var id := s.world.dispatches[k].token.claims.requestId;
             e in Defs(id) && Defs(id)[e].body.ExecuteGate? && Gating(id, e, a)
    ensures var d := s.world.dispatches[k];
            var id := d.token.claims.requestId;
            && id in s.requests && ApprovedUntil(c, id, s.requests[id], a, d.token.claims.expiresAt)
            && d.checkedAt < d.token.claims.expiresAt <= d.token.claims.issuedAt + c.policy.authorizationTtl
            && d.consumer == id.hash.requester
  {
    hide RequestsOk, IndexOk, AcceptedPolicy, P.RunOk, P.OneHolder, TokenBinds;
    var d := s.world.dispatches[k];
    var id := d.token.claims.requestId;
    P.ConsistentDispatches(s.world);
    assert P.DispatchOk(s.world, d);
    assert RowNamed(d.id, s.world.db.rows[d.id]);
    RequestInvariant(c, s, own, {}, id);
    NestedWindows(c, id, s.requests[id], d.token.claims, e, a);
    BoundCopies(c, id, s.requests[id], d.token.claims, e);
  }

  lemma BoundCopies(c: Config, id: RequestId, r: Request, x: Claims, e: string)
    requires TokenBinds(c, id, r, x) && e in Defs(id) && Defs(id)[e].body.ExecuteGate?
    ensures x.assurance == id.hash.control && x.requester == id.hash.requester
  {
    assert TokenFits(c, id, r, e, x);
  }

  /** A bound token copies the one execute gate of its request. */
  lemma BoundGate(c: Config, id: RequestId, r: Request, x: Claims) returns (e: string)
    requires RequestOk(c, id, r) && TokenBinds(c, id, r, x)
    ensures TokenCopies(c, id, e, x)
    ensures forall f | f in Defs(id) && Defs(id)[f].body.ExecuteGate? :: f == e
  {
    hide ShapeOk, FlagsOk, HistoryOk, ApprovalsOk, ChecksOk, TokenOk, Drawn, ControlMatches;
    e :| ExecuteIs(id.hash.workflow, Defs(id), e) && ExecutePathOk(Defs(id), e, c.policy.executionEnabled);
    assert TokenFits(c, id, r, e, x);
    forall f | f in Defs(id) && Defs(id)[f].body.ExecuteGate? ensures f == e {
      OneExecute(id, c.policy.executionEnabled, e, f);
    }
  }

  /** The policy enables execution, and no execute gate it declares for the request is
      simulation-only. */
  ghost predicate MeantForReal(c: Config, id: RequestId) {
    && c.policy.executionEnabled
    && forall g | g in Declared(c, id) && Declared(c, id)[g].body.ExecuteGate? ::
         !Declared(c, id)[g].body.simulationOnly
  }

  /** What a dispatch ran is the target the policy declares, on what was asked for, for the one
      who asked. */
  ghost predicate RunsAsDeclared(c: Config, d: P.Dispatch) {
    var id := d.token.claims.requestId;
    && d.consumer == id.hash.requester && d.token.claims.action == id.hash.action
    && d.token.claims.parameters == id.hash.parameters
    && exists g | g in Declared(c, id) ::
         Declared(c, id)[g].body.ExecuteGate? && Declared(c, id)[g].body.target == d.target
  }

  lemma DeclaredExecute(c: Config, id: RequestId, g: string)
    requires Lawful(c, id)
    ensures g in Declared(c, id) && Declared(c, id)[g].body.ExecuteGate?
            <==> g in Defs(id) && Defs(id)[g].body.ExecuteGate?
    ensures g in Defs(id) && Defs(id)[g].body.ExecuteGate? ==> Declared(c, id)[g] == Defs(id)[g]
  {
    hide Lawful, Declared, AsksStepUp, Defs;
    DeclaredGate(c, id, g);
  }

  /** A version 1 engine calls the target only for requests meant for real. */
  lemma CallMeant(c: Config, s: State, own: iset<Key>, k: nat)
    requires Settled(c, s, own) && k < |s.targetCalls|
    ensures s.targetCalls[k] in s.requests && MeantForReal(c, s.targetCalls[k])
  {
    hide RequestsOk, IndexOk, RowsOk, NoticesOk, AcceptedPolicy, P.Consistent, Declared, Defs, Lawful;
    var id := s.targetCalls[k];
    RequestInvariant(c, s, own, {}, id);
    assert Live(c, id);
    forall g | g in Declared(c, id) && Declared(c, id)[g].body.ExecuteGate?
      ensures !Declared(c, id)[g].body.simulationOnly
    {
      DeclaredExecute(c, id, g);
    }
  }

  /** So does a broker, and it calls what the policy declares. */
  lemma DispatchMeant(c: Config, s: State, own: iset<Key>, k: nat)
    requires Settled(c, s, own) && k < |s.world.dispatches|
    requires KeyOf(s.world.dispatches[k].token.claims.requestId) in own
    ensures var d := s.world.dispatches[k];
            && d.token.claims.requestId in s.requests
            && MeantForReal(c, d.token.claims.requestId) && RunsAsDeclared(c, d)
  {
    hide RequestsOk, IndexOk, AcceptedPolicy, P.RunOk, P.OneHolder, TokenBinds, Declared, Defs, Lawful;
    var d := s.world.dispatches[k];
    var id := d.token.claims.requestId;
    P.ConsistentDispatches(s.world);
    assert P.DispatchOk(s.world, d);
    assert RowNamed(d.id, s.world.db.rows[d.id]);
    RequestInvariant(c, s, own, {}, id);
    DeclaredGateMeant(c, id, s.requests[id], d);
  }

  lemma DeclaredGateMeant(c: Config, id: RequestId, r: Request, d: P.Dispatch)
    requires RequestOk(c, id, r) && TokenBinds(c, id, r, d.token.claims) && d.token.claims.requestId == id
    requires d.token.claims.executionEnabled && !d.token.claims.simulationOnly
    requires d.consumer == d.token.claims.requester && d.target == d.token.claims.target
    ensures MeantForReal(c, id) && RunsAsDeclared(c, d)
  {
    hide ShapeOk, FlagsOk, HistoryOk, ApprovalsOk, ChecksOk, TokenOk, Lawful, TokenBinds, Declared, Defs;
    var e := BoundGate(c, id, r, d.token.claims);
    DeclaredExecute(c, id, e);
    forall g | g in Declared(c, id) && Declared(c, id)[g].body.ExecuteGate?
      ensures !Declared(c, id)[g].body.simulationOnly
    {
      DeclaredExecute(c, id, g);
    }
  }
}
