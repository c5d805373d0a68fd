/** What every run of the engine promises: from any store that holds nothing for its keys, by
    any public calls, with any callbacks, brokers and operators inside. */
module EngineRuns {
  import opened GateGraph
  import opened Policies
  import opened Claims
  import opened GateEngine
  import opened RequestLifecycle
  import opened EngineSafety
  import opened EngineTheorems
  import opened EvidenceUse
  import opened ApprovalIngestion
  import P = ConsumptionProtocol

  ghost predicate Legal(c: Config, world: P.World, own: iset<Key>, calls: Calls) {
    AcceptedPolicy(c.policy) && Joins(world, own) && CallsWithin(calls, own)
  }

  ghost function Reached(c: Config, world: P.World, calls: Calls): State {
    RunCalls(c, Initial(world), calls)
  }

  /** After every run no request is left in `processing`, and a workflow is retained for exactly
      the requests that are not closed. */
  lemma NothingIsLeftProcessing(c: Config, world: P.World, own: iset<Key>, calls: Calls, id: RequestId)
    requires Legal(c, world, own, calls)
    ensures var s := Reached(c, world, calls);
            && (id in s.requests ==> !s.requests[id].state.Processing?)
            && (id in s.workflows <==> id in s.requests && !Terminal(s.requests[id].state))
  {
    hide Settled, RunCalls, AcceptedPolicy, Joins;
    EveryRunIsSafe(c, world, own, calls);
    NothingLeftProcessing(c, Reached(c, world, calls), own);
  }

  /** After every run, whatever is asked next: no call raises "made no progress". */
  lemma NoRunGetsStuck(c: Config, world: P.World, own: iset<Key>, calls: Calls, args: RequestArgs, id: RequestId,
      e: ApprovalInput, env: Env)
    requires Legal(c, world, own, calls) && EnvWithin(env, own) && Key(args.requester, args.key) in own
    ensures RequestAction(c, Reached(c, world, calls), args, env).response != Raised(NoProgress)
    ensures IngestApproval(c, Reached(c, world, calls), id, e, env).response != Raised(NoProgress)
  {
    hide Settled, RunCalls, AcceptedPolicy, Joins, RequestAction, IngestApproval;
    EveryRunIsSafe(c, world, own, calls);
    NeverStuck(c, Reached(c, world, calls), own, args, id, e, env);
  }

  /** Whatever happens after a run: what is closed then stays as it is. */
  lemma ClosedStays(c: Config, world: P.World, own: iset<Key>, calls: Calls, more: Calls, id: RequestId)
    requires Legal(c, world, own, calls) && CallsWithin(more, own)
    requires var s := Reached(c, world, calls); id in s.requests && Terminal(s.requests[id].state)
    ensures var s, t := Reached(c, world, calls), RunCalls(c, Reached(c, world, calls), more);
            id in t.requests && t.requests[id] == s.requests[id]
  {
    hide Ok, RunCalls, AcceptedPolicy, Joins;
    EveryRunIsSafe(c, world, own, calls);
    ClosedAndActiveRequestsStay(c, Reached(c, world, calls), own, more);
  }

  lemma RequestOfRun(c: Config, world: P.World, own: iset<Key>, calls: Calls, id: RequestId)
    requires Legal(c, world, own, calls) && id in Reached(c, world, calls).requests
    ensures RequestOk(c, id, Reached(c, world, calls).requests[id])
  {
    hide Ok, RunCalls, AcceptedPolicy, Joins, RequestOk;
    EveryRunIsSafe(c, world, own, calls);
    RequestInvariant(c, Reached(c, world, calls), own, {}, id);
  }

  /** In every run a request's gates fire without repetition and in an order that extends the
      transitive closure of `requires`. */
  lemma GatesFireInOrder(c: Config, world: P.World, own: iset<Key>, calls: Calls, id: RequestId, j: nat, u: string)
    requires Legal(c, world, own, calls) && id in Reached(c, world, calls).requests
    requires var r := Reached(c, world, calls).requests[id]; j < |r.trace| && r.trace[j].Fired?
    ensures var r := Reached(c, world, calls).requests[id];
            && (forall i | 0 <= i < |r.trace| && r.trace[i] == r.trace[j] :: i == j)
            && (Reaches(Requirements(Defs(id)), r.trace[j].gate, u) ==>
                   Before(r.trace, j, Satisfied(u)) && Before(r.trace, j, Fired(u)))
  {
    hide Legal, RequestOk, RunCalls, Before, Reaches;
    RequestOfRun(c, world, own, calls, id);
    TraceExtendsRequires(c, id, Reached(c, world, calls).requests[id], j, u);
  }

  /** In every run, what a condition of the policy compares decides it: fired on a value that
      stands in the policy's relation it passed, on any other, or none, the request is blocked. */
  lemma RunsDecideConditions(c: Config, world: P.World, own: iset<Key>, calls: Calls, id: RequestId, g: string)
    requires Legal(c, world, own, calls) && id in Reached(c, world, calls).requests
    requires g in Declared(c, id) && Declared(c, id)[g].body.ConditionGate?
    requires Fired(g) in Reached(c, world, calls).requests[id].trace
    ensures Decided(c, id, Reached(c, world, calls).requests[id], g)
  {
    hide RunCalls, Legal, RequestOk, Decided, Declared;
    RequestOfRun(c, world, own, calls, id);
    ConditionsDecide(c, id, Reached(c, world, calls).requests[id], g);
  }

  /** In every run a read of the policy that was satisfied returned a value standing in the
      relation the policy expects. */
  lemma RunsReadWhatIsExpected(c: Config, world: P.World, own: iset<Key>, calls: Calls, id: RequestId, g: string)
    requires Legal(c, world, own, calls) && id in Reached(c, world, calls).requests
    requires g in Declared(c, id) && Declared(c, id)[g].body.ToolGate?
    requires Satisfied(g) in Reached(c, world, calls).requests[id].trace
    ensures var r, body := Reached(c, world, calls).requests[id], Declared(c, id)[g].body;
            && g in r.gates && r.gates[g].evidence.ReadResult?
            && MatchesAt(r.gates[g].evidence.result, body.expectPath, body.outcome)
  {
    hide RunCalls, Legal, RequestOk, MatchesAt, Declared;
    RequestOfRun(c, world, own, calls, id);
    SatisfiedReadsMatch(c, id, Reached(c, world, calls).requests[id], g);
  }

  /** In every run of a live policy, when the execute gate has fired every approval it waits for
      was followed by a recheck of the policy whose reading stands as the policy expects. */
  lemma RunsRecheckEveryApproval(c: Config, world: P.World, own: iset<Key>, calls: Calls, id: RequestId, e: string,
      a: string)
    returns (x: string, i: nat, j: nat, k: nat, l: nat)
    requires Legal(c, world, own, calls) && id in Reached(c, world, calls).requests && c.policy.executionEnabled
    requires e in Defs(id) && Defs(id)[e].body.ExecuteGate? && Gating(id, e, a)
    requires Fired(e) in Reached(c, world, calls).requests[id].trace
    ensures RecheckInBetween(Reached(c, world, calls).requests[id].trace, a, x, e, i, j, k, l)
    ensures Rechecked(c, id, Reached(c, world, calls).requests[id], x)
  {
    hide RunCalls, Legal, RequestOk, Rechecked, Gating;
    RequestOfRun(c, world, own, calls, id);
    x, i, j, k, l := RecheckedAfterEveryApproval(c, id, Reached(c, world, calls).requests[id], e, a);
  }

  /** In every run an approval is asked for only after a notice naming this very request, its
      gate, recipient and template; an enforcing policy has seen it delivered. */
  lemma RunsNotifyBeforeAsking(c: Config, world: P.World, own: iset<Key>, calls: Calls, id: RequestId, a: string,
      j: nat) returns (n: string)
    requires Legal(c, world, own, calls) && id in Reached(c, world, calls).requests
    requires a in Defs(id) && Defs(id)[a].body.ApprovalGate?
    requires var r := Reached(c, world, calls).requests[id]; j < |r.trace| && r.trace[j] == Fired(a)
    ensures n in Defs(id) && Defs(id)[n].body.NotifyGate? && n in Reached(c, world, calls).requests[id].gates
    ensures Before(Reached(c, world, calls).requests[id].trace, j, Satisfied(n))
    ensures Reached(c, world, calls).requests[id].gates[n].evidence.Notified?
    ensures NoticeHolds(c, id, Defs(id)[n], Reached(c, world, calls).requests[id].gates[n])
  {
    hide RunCalls, Legal, RequestOk, NoticeHolds, Before;
    RequestOfRun(c, world, own, calls, id);
    n := NotifiedBeforeApproval(c, id, Reached(c, world, calls).requests[id], a, j);
  }

  /** In every run no notification id is held by two gates. */
  lemma RunsUseNoticesOnce(c: Config, world: P.World, own: iset<Key>, calls: Calls, id: RequestId, g: string,
      id2: RequestId, g2: string)
    requires Legal(c, world, own, calls)
    requires id in Reached(c, world, calls).requests && id2 in Reached(c, world, calls).requests
    requires SameNotice(Reached(c, world, calls).requests[id], g, Reached(c, world, calls).requests[id2], g2)
    ensures id == id2 && g == g2
  {
    hide Ok, RunCalls, AcceptedPolicy, Joins, SameNotice;
    EveryRunIsSafe(c, world, own, calls);
    NoticesUsedOnce(c, Reached(c, world, calls), own, id, g, id2, g2);
  }

  /** In every run a token in the store for one of the engine's requests
      lies inside the policy's window and those of every approval the request waits for, each
      measured by the policy's own gate when the clock is monotone. */
  lemma RunsNestWindows(c: Config, world: P.World, own: iset<Key>, calls: Calls, row: string, e: string, a: string)
    requires Legal(c, world, own, calls)
    requires row in Reached(c, world, calls).world.db.rows
             && KeyOf(Reached(c, world, calls).world.db.rows[row].requestId) in own
    requires var id := Reached(c, world, calls).world.db.rows[row].requestId;
             e in Defs(id) && Defs(id)[e].body.ExecuteGate? && Gating(id, e, a)
    ensures var s := Reached(c, world, calls);
            var x, id := s.world.db.rows[row].token.claims, s.world.db.rows[row].requestId;
            && id in s.requests && ApprovedUntil(c, id, s.requests[id], a, x.expiresAt)
            && x.issuedAt < x.expiresAt <= x.issuedAt + c.policy.authorizationTtl
            && (x.assurance.StepUp? <==> AsksStepUp(c, id))
  {
    hide Ok, RunCalls, AcceptedPolicy, Joins, Gating, Monotone, RequestOk, TokenBinds, ApprovedUntil, AsksStepUp;
    EveryRunIsSafe(c, world, own, calls);
    var s := Reached(c, world, calls);
    RowOfRequest(c, s, own, row);
    var id := s.world.db.rows[row].requestId;
    NestedWindows(c, id, s.requests[id], s.world.db.rows[row].token.claims, e, a);
  }

  /** In every run each piece of evidence a stored token names is an approval of its request, at
      least as strong as the token claims. */
  lemma RunsNeverOverclaim(c: Config, world: P.World, own: iset<Key>, calls: Calls, row: string, e: string,
      n: string) returns (a: string)
    requires Legal(c, world, own, calls)
    requires row in Reached(c, world, calls).world.db.rows
             && KeyOf(Reached(c, world, calls).world.db.rows[row].requestId) in own
    requires var id := Reached(c, world, calls).world.db.rows[row].requestId;
             e in Defs(id) && Defs(id)[e].body.ExecuteGate?
    requires n in Reached(c, world, calls).world.db.rows[row].token.claims.evidenceIds
    ensures var s := Reached(c, world, calls);
            var x, id := s.world.db.rows[row].token.claims, s.world.db.rows[row].requestId;
            && id in s.requests && Gating(id, e, a) && HoldsApproval(s.requests[id], a)
            && ApprovalOf(s.requests[id], a).evidenceId == n
            && Rank(ApprovalOf(s.requests[id], a).assurance) >= Rank(x.assurance)
  {
    hide Ok, RunCalls, AcceptedPolicy, Joins, Gating, RequestOk, TokenBinds;
    EveryRunIsSafe(c, world, own, calls);
    var s := Reached(c, world, calls);
    RowOfRequest(c, s, own, row);
    var id := s.world.db.rows[row].requestId;
    a := AssuranceNoWeakerThanClaimed(c, id, s.requests[id], s.world.db.rows[row].token.claims, e, n);
  }

  /** In every run a request has at most one authorization row, and then the engine has called
      no target itself. */
  lemma RunsIssueOnce(c: Config, world: P.World, own: iset<Key>, calls: Calls, a: string, b: string)
    requires Legal(c, world, own, calls)
    requires a in Reached(c, world, calls).world.db.rows && b in Reached(c, world, calls).world.db.rows
    requires KeyOf(Reached(c, world, calls).world.db.rows[a].requestId) in own
    requires Reached(c, world, calls).world.db.rows[a].requestId == Reached(c, world, calls).world.db.rows[b].requestId
    ensures a == b && Reached(c, world, calls).targetCalls == []
  {
    hide Ok, RunCalls, AcceptedPolicy, Joins;
    EveryRunIsSafe(c, world, own, calls);
    OneEffectPerRequest(c, Reached(c, world, calls), own, a, b);
  }

  /** After every run a request is accepted exactly when it may be asked for and its key is
      unused or was used for the very same request, and what is accepted is what was asked. */
  lemma RunsAcceptRequestIff(c: Config, world: P.World, own: iset<Key>, calls: Calls, args: RequestArgs, env: Env)
    requires Legal(c, world, own, calls) && EnvWithin(env, own) && Key(args.requester, args.key) in own
    ensures RequestedRightly(c, Reached(c, world, calls), args, RequestAction(c, Reached(c, world, calls), args, env))
  {
    hide Ok, RunCalls, AcceptedPolicy, Joins, RequestAction, RequestedRightly;
    EveryRunIsSafe(c, world, own, calls);
    RequestAcceptsIff(c, Reached(c, world, calls), own, args, env);
  }

  /** After every run a request is cancelled exactly when its requester asks and it waits, or is
      authorized and the store cancels its row. */
  lemma RunsCancelIff(c: Config, world: P.World, own: iset<Key>, calls: Calls, id: RequestId, requester: string,
      fate: Fate)
    requires Legal(c, world, own, calls)
    ensures CancelledRightly(c, Reached(c, world, calls), id, requester, fate,
              CancelRequest(c, Reached(c, world, calls), id, requester, fate))
  {
    hide Ok, RunCalls, AcceptedPolicy, Joins, CancelRequest, CancelledRightly;
    EveryRunIsSafe(c, world, own, calls);
    CancelAcceptsIff(c, Reached(c, world, calls), own, id, requester, fate);
  }

  /** In every run, once the engine shows a request as cancelled, with or without an
      authorization, its target has not been run and is not run by anything that follows: no
      broker's dispatch is for it and no direct call. */
  lemma CancelledStaysUndispatched(c: Config, world: P.World, own: iset<Key>, calls: Calls, more: Calls,
      id: RequestId, i: nat)
    requires Legal(c, world, own, calls) && CallsWithin(more, own)
    requires id in Reached(c, world, calls).requests && Reached(c, world, calls).requests[id].state.Cancelled?
    ensures var t := RunCalls(c, Reached(c, world, calls), more);
            && id in t.requests && t.requests[id].state.Cancelled? && id !in t.targetCalls
            && (i < |t.world.dispatches| ==> t.world.dispatches[i].token.claims.requestId != id)
  {
    hide Ok, RunCalls, AcceptedPolicy, Joins;
    EveryRunIsSafe(c, world, own, calls);
    var s := Reached(c, world, calls);
    RunCallsOk(c, s, own, more);
    ClosedAndActiveRequestsStay(c, s, own, more);
    CancelledWasNotRun(c, RunCalls(c, s, more), own, id, i);
  }

  /** After every run the engine accepts exactly the evidence that names the one waiting gate of
      this very request, in time and strong enough, under an unused id, and that its verifier
      trusts; in every other case the ingestion itself leaves the request as it was. */
  lemma RunsAcceptEvidenceIff(c: Config, world: P.World, own: iset<Key>, calls: Calls, id: RequestId,
      e: ApprovalInput, env: Env)
    requires Legal(c, world, own, calls) && EnvWithin(env, own)
    ensures IngestedRightly(c, Reached(c, world, calls), id, e, env,
              IngestApproval(c, Reached(c, world, calls), id, e, env))
  {
    hide Ok, RunCalls, AcceptedPolicy, Joins, IngestApproval, IngestedRightly;
    EveryRunIsSafe(c, world, own, calls);
    IngestAcceptsIff(c, Reached(c, world, calls), own, id, e, env);
  }

  /** If no verifier ingests the evidence it is asked about, no evidence is held by two gates
      after any run. */
  lemma RunsUseEvidenceOnce(c: Config, world: P.World, own: iset<Key>, calls: Calls, n: string, id: RequestId,
      g: string, id2: RequestId, g2: string)
    requires Legal(c, world, own, calls) && Clean(calls)
    requires Held(Reached(c, world, calls), n, id, g) && Held(Reached(c, world, calls), n, id2, g2)
    ensures id == id2 && g == g2 && n in Reached(c, world, calls).consumedApprovals
  {
    hide RunCalls, AcceptedPolicy, Joins, Held;
    EvidenceUsedOnce(c, world, own, calls);
    assert HeldSomewhere(Reached(c, world, calls), n);
  }

  /** And in every such run each body handed to the signer, at the moment it was handed over,
      listed non-empty, distinct evidence ids that key the provenance: those checks of the signer
      cannot fail. */
  lemma RunsBuildDistinctClaims(c: Config, world: P.World, own: iset<Key>, calls: Calls, j: nat)
    requires Legal(c, world, own, calls) && Clean(calls) && j < |Reached(c, world, calls).signed|
    ensures DistinctlyBacked(Reached(c, world, calls).signed[j])
  {
    hide RunCalls, AcceptedPolicy, Joins, UsedOnce, DistinctlyBacked;
    EvidenceUsedOnce(c, world, own, calls);
  }

  /** After any run with two requests waiting, a verifier that ingests for the one the evidence
      id it is asked about for the other breaks single use. */
  lemma ReentrantVerifierBreaksSingleUse(c: Config, world: P.World, own: iset<Key>, calls: Calls, id: RequestId,
      e: ApprovalInput, id2: RequestId, e2: ApprovalInput)
    requires Legal(c, world, own, calls) && id != id2 && e.evidenceId == e2.evidenceId
    requires EvidenceProblem(c, Reached(c, world, calls), id, e).None?
    requires var s := Reached(c, world, calls);
             EvidenceProblem(c, s.(tick := s.tick + 2, active := s.active + {id}), id2, e2).None?
    ensures var inner := Answer(NoCalls, Trusts(true), Quiet);
            var env := Answer(More(IngestCall(id2, e2, inner), NoCalls), Trusts(true), Quiet);
            !UsedOnce(IngestApproval(c, Reached(c, world, calls), id, e, env).state)
  {
    hide Ok, RunCalls, AcceptedPolicy, Joins, UsedOnce, EvidenceProblem, IngestApproval;
    EveryRunIsSafe(c, world, own, calls);
    ReentrantVerifierReusesEvidence(c, Reached(c, world, calls), own, id, e, id2, e2);
  }
}
