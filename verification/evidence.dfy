/** Approval evidence is used once: what the consumed set means, exactly when an ingestion keeps
    it so, the runs that do, and what it gives the signer. */
module EvidenceUse {
  import opened JsonValues
  import opened GateGraph
  import opened Policies
  import opened Claims
  import opened GateEngine
  import opened RequestLifecycle
  import opened EngineSafety
  import opened EngineTheorems
  import S = AuthorizationStore
  import P = ConsumptionProtocol

  /** Gate `g` of request `id` holds an approval on evidence `n`. */
  predicate Held(s: State, n: string, id: RequestId, g: string) {
    id in s.requests && HoldsApproval(s.requests[id], g) && ApprovalOf(s.requests[id], g).evidenceId == n
  }

  ghost predicate HeldSomewhere(s: State, n: string) {
    exists id, g :: Held(s, n, id, g)
  }

  /** The consumed set is exactly the evidence held by approved gates, each by one gate. */
  ghost predicate UsedOnce(s: State) {
    && (forall n :: n in s.consumedApprovals <==> HeldSomewhere(s, n))
    && (forall n, id, g, id2, g2 | Held(s, n, id, g) && Held(s, n, id2, g2) :: id == id2 && g == g2)
  }

  /** The evidence checks of the signer: a non-empty list, no empty id, none twice, and the ids
      are the keys of the provenance. */
  predicate DistinctlyBacked(x: Claims) {
    x.evidenceIds != multiset{} && "" !in x.evidenceIds && UniqueElements(x.evidenceIds) && ProvenanceKeysMatch(x)
  }

  predicate AllBacked(bodies: seq<Claims>) {
    forall j | 0 <= j < |bodies| :: DistinctlyBacked(bodies[j])
  }

  /** Nothing held is let go. */
  ghost predicate Grows(s: State, t: State) {
    forall n, id, g | Held(s, n, id, g) :: Held(t, n, id, g)
  }

  ghost predicate SameApprovals(s: State, t: State) {
    && t.consumedApprovals == s.consumedApprovals
    && forall n, id, g :: Held(s, n, id, g) <==> Held(t, n, id, g)
  }

  /** What a run keeps: single use; with it, the backing of every body handed to the signer; and
      whatever is held. */
  ghost predicate Keeps(s: State, t: State) {
    && (UsedOnce(s) ==> UsedOnce(t))
    && (UsedOnce(s) && AllBacked(s.signed) ==> AllBacked(t.signed))
    && Grows(s, t)
  }

  lemma SameUsedOnce(s: State, t: State)
    requires SameApprovals(s, t) && UsedOnce(s)
    ensures UsedOnce(t)
  {
    forall n ensures HeldSomewhere(s, n) <==> HeldSomewhere(t, n) {
      if HeldSomewhere(s, n) { var id, g :| Held(s, n, id, g); assert Held(t, n, id, g); }
      if HeldSomewhere(t, n) { var id, g :| Held(t, n, id, g); assert Held(s, n, id, g); }
    }
  }

  lemma SameKeeps(s: State, t: State)
    requires SameApprovals(s, t)
    requires UsedOnce(s) && AllBacked(s.signed) ==> AllBacked(t.signed)
    ensures Keeps(s, t)
  {
    hide Held;
    if UsedOnce(s) {
      SameUsedOnce(s, t);
    }
  }

  lemma KeepsTransitive(s: State, t: State, u: State)
    requires Keeps(s, t) && Keeps(t, u)
    ensures Keeps(s, u)
  {
    hide Held, UsedOnce, AllBacked;
  }

  // ---- Firing touches no approval ---------------------------------------------------------------

  /** Gate `g` has fired, and holds no approval. */
  predicate FiredOtherwise(before: Request, after: Request, g: string) {
    GateFired(before, after, g) && !after.gates[g].evidence.ApprovedBy?
  }

  lemma FiringSameApprovals(s: State, t: State, id: RequestId, g: string)
    requires id in s.requests && g in s.requests[id].gates && !s.requests[id].gates[g].evidence.ApprovedBy?
    requires t.consumedApprovals == s.consumedApprovals && id in t.requests
             && t.requests == s.requests[id := t.requests[id]]
    requires FiredOtherwise(s.requests[id], t.requests[id], g)
    ensures SameApprovals(s, t)
  {
    forall n, x, h ensures Held(s, n, x, h) <==> Held(t, n, x, h) { }
  }

  lemma NothingSameApprovals(s: State, t: State)
    requires t.requests == s.requests && t.consumedApprovals == s.consumedApprovals
    ensures SameApprovals(s, t)
  {
    forall n, x, h ensures Held(s, n, x, h) <==> Held(t, n, x, h) { }
  }

  lemma NothingKeeps(s: State, t: State)
    requires t.requests == s.requests && t.consumedApprovals == s.consumedApprovals && t.signed == s.signed
    ensures Keeps(s, t)
  {
    hide Held, UsedOnce, AllBacked;
    NothingSameApprovals(s, t);
    SameKeeps(s, t);
  }

  lemma PendingHoldsNothing(c: Config, id: RequestId, r: Request, g: string)
    requires Firable(c, id, r, g)
    ensures g in r.gates && !r.gates[g].evidence.ApprovedBy?
  {
    hide FlagsOk, HistoryOk, ApprovalsOk, ChecksOk, TokenOk, Lawful;
    assert GateFits(Defs(id)[g], r.gates[g], r.state);
  }

  lemma PrepareTouches(c: Config, s: State, id: RequestId, w: Workflow, g: Gate)
    requires id in s.requests
    ensures var m := Prepare(c, s, id, w, g);
            && m.state.consumedApprovals == s.consumedApprovals && m.state.signed == s.signed
            && m.state.requests == s.requests[id := m.state.requests[id]]
            && (m.Finished? ==> FiredOtherwise(s.requests[id], m.state.requests[id], g.id))
            && (!m.Finished? ==> m.state.requests == s.requests)
  {
    hide PrepareExecute, ResolvePath, Compare, InputResolves;
    if g.body.ExecuteGate? {
      PrepareExecuteTouches(c, s, id, w, g);
    } else {
      assert s.requests == s.requests[id := s.requests[id]];
    }
  }

  lemma PrepareExecuteTouches(c: Config, s: State, id: RequestId, w: Workflow, g: Gate)
    requires id in s.requests && g.body.ExecuteGate?
    ensures var m := PrepareExecute(c, s, id, w, g);
            && m.state.consumedApprovals == s.consumedApprovals && m.state.signed == s.signed
            && m.state.requests == s.requests[id := m.state.requests[id]]
            && (m.Finished? ==> FiredOtherwise(s.requests[id], m.state.requests[id], g.id))
            && (!m.Finished? ==> m.state.requests == s.requests)
  {
    hide PrepareExecute, ExecuteFired;
    PrepareExecuteCases(c, s, id, w, g);
    if PrepareExecute(c, s, id, w, g).Finished? {
      ExecuteFiredIs(s.requests[id], g, PrepareExecute(c, s, id, w, g).state.requests[id]);
    } else {
      assert s.requests == s.requests[id := s.requests[id]];
    }
  }

  lemma ExecuteFiredIs(r: Request, g: Gate, r': Request)
    requires g.body.ExecuteGate? && ExecuteFired(r, g, r')
    ensures FiredOtherwise(r, r', g.id)
  {
  }

  /** Only gate `g` of the request has fired, and not by an approval. */
  predicate Touches(s: State, t: State, id: RequestId, g: string)
    requires id in s.requests
  {
    && t.consumedApprovals == s.consumedApprovals && t.signed == s.signed
    && id in t.requests && t.requests == s.requests[id := t.requests[id]]
    && FiredOtherwise(s.requests[id], t.requests[id], g)
  }

  lemma ConcludeTouches(c: Config, s: State, id: RequestId, g: Gate, reply: Reply)
    requires id in s.requests && (g.body.ToolGate? || g.body.NotifyGate? || g.body.ExecuteGate?)
    ensures Touches(s, Conclude(c, s, id, g, reply), id, g.id)
  {
    hide ConcludeRead, ConcludeNotify, ConcludeTarget, Touches;
    match g.body
    case ToolGate(_, _, _, _, _) => ReadTouches(c, s, id, g, reply);
    case NotifyGate(_, _) => NotifyTouches(c, s, id, g, reply);
    case _ => TargetTouches(s, id, g, reply);
  }

  lemma ReadTouches(c: Config, s: State, id: RequestId, g: Gate, reply: Reply)
    requires id in s.requests && g.body.ToolGate?
    ensures Touches(s, ConcludeRead(c, s, id, g, reply), id, g.id)
  {
    hide Compare, ResolvePath;
  }

  lemma NotifyTouches(c: Config, s: State, id: RequestId, g: Gate, reply: Reply)
    requires id in s.requests && g.body.NotifyGate?
    ensures Touches(s, ConcludeNotify(c, s, id, g, reply), id, g.id)
  {
    hide NoticeBound;
  }

  lemma TargetTouches(s: State, id: RequestId, g: Gate, reply: Reply)
    requires id in s.requests
    ensures Touches(s, ConcludeTarget(s, id, g, reply), id, g.id)
  {
  }

  lemma ConcludeIssueTouches(c: Config, s: State, id: RequestId, w: Workflow, g: Gate, reply: Reply)
    requires id in s.requests && g.body.ExecuteGate?
    ensures var t := ConcludeIssue(c, s, id, w, g, reply);
            var ids := ApprovalAncestors(w.gates, g.id, |w.gates|);
            && t.consumedApprovals == s.consumedApprovals
            && (t.signed == s.signed
                || (reply.Names? && AllHoldApproval(s.requests[id], ids)
                    && t.signed == s.signed
                         + [ClaimsFor(c, id, s.requests[id], g, ids, Now(c, s), reply.authorizationId, reply.nonce)]))
            && t.requests == s.requests[id := t.requests[id]] && FiredOtherwise(s.requests[id], t.requests[id], g.id)
  {
    hide S.Recorded, Issue, ClaimsFor, ApprovalAncestors, AllHoldApproval, SnapshotOf, Grant, BreakExecute,
      FiredOtherwise;
    var r := s.requests[id];
    BrokenIs(r, g.id);
    forall token ensures FiredOtherwise(r, Grant(r, g.id, token), g.id) { GrantedIs(r, g.id, token); }
  }

  lemma BrokenIs(r: Request, g: string)
    ensures FiredOtherwise(r, BreakExecute(r, g), g)
  {
  }

  lemma GrantedIs(r: Request, g: string, token: Token)
    ensures FiredOtherwise(r, Grant(r, g, token), g)
  {
  }

  // ---- The bodies handed to the signer ---------------------------------------------------------

  lemma {:induction false} ListedOnce(gates: seq<Gate>, e: string, k: nat)
    requires k <= |gates| && UniqueIds(gates)
    ensures forall i, j | 0 <= i < j < |ApprovalAncestors(gates, e, k)| ::
              ApprovalAncestors(gates, e, k)[i] != ApprovalAncestors(gates, e, k)[j]
  {
    if k > 0 {
      ListedOnce(gates, e, k - 1);
      var before := ApprovalAncestors(gates, e, k - 1);
      forall i | 0 <= i < |before| ensures before[i] != gates[k - 1].id {
        AncestorsListed(gates, e, k - 1, before[i]);
      }
    }
  }

  lemma {:induction false} DistinctEvidence(s: State, id: RequestId, ids: seq<string>, k: nat)
    requires UsedOnce(s) && id in s.requests && AllHoldApproval(s.requests[id], ids) && k <= |ids|
    requires forall i, j | 0 <= i < j < |ids| :: ids[i] != ids[j]
    ensures UniqueElements(EvidenceIds(s.requests[id], ids, k))
    ensures forall n :: n in EvidenceIds(s.requests[id], ids, k) <==> n in ProvenanceOf(s.requests[id], ids, k)
  {
    var r := s.requests[id];
    if k > 0 {
      DistinctEvidence(s, id, ids, k - 1);
      EvidenceIdsFrom(r, ids, k - 1);
      var n := ApprovalOf(r, ids[k - 1]).evidenceId;
      forall i | 0 <= i < k - 1 ensures ApprovalOf(r, ids[i]).evidenceId != n {
        assert Held(s, ApprovalOf(r, ids[i]).evidenceId, id, ids[i]) && Held(s, n, id, ids[k - 1]);
      }
    }
  }

  /** The evidence list of every token body the engine builds is non-empty, free of empty ids
      and of repetitions, and keys the provenance: those checks of the signer never fail. */
  lemma ClaimsListDistinctEvidence(c: Config, s: State, own: iset<Key>, busy: set<RequestId>, id: RequestId,
      e: string, now: int, a: string, nonce: string)
    requires Ok(c, s, own, busy) && UsedOnce(s) && id in s.requests && e in Defs(id) && Defs(id)[e].body.ExecuteGate?
    requires AllHoldApproval(s.requests[id], Awaited(id, e))
    ensures DistinctlyBacked(ClaimsFor(c, id, s.requests[id], Defs(id)[e], Awaited(id, e), now, a, nonce))
  {
    hide Ok, UsedOnce, Held, ShapeOk, FlagsOk, HistoryOk, ChecksOk, TokenOk, ApprovalsOk, GraphOk, ExecuteOk;
    RequestInvariant(c, s, own, busy, id);
    var r, ids := s.requests[id], Awaited(id, e);
    ListedOnce(id.hash.workflow.gates, e, |id.hash.workflow.gates|);
    DistinctEvidence(s, id, ids, |ids|);
    EvidenceIdsFrom(r, ids, |ids|);
    SomeApprovalAwaited(c, id, e);
    assert HoldsApproval(r, ids[0]);
    assert ApprovalOf(r, ids[0]).evidenceId in EvidenceIds(r, ids, |ids|);
    EvidenceIsNamed(c, id, r, e);
  }

  lemma EvidenceIsNamed(c: Config, id: RequestId, r: Request, e: string)
    requires RequestOk(c, id, r) && AllHoldApproval(r, Awaited(id, e))
    ensures "" !in EvidenceIds(r, Awaited(id, e), |Awaited(id, e)|)
  {
    hide ShapeOk, FlagsOk, HistoryOk, ChecksOk, TokenOk, GraphOk, ExecuteOk;
    var ids := Awaited(id, e);
    EvidenceIdsFrom(r, ids, |ids|);
    forall n | n in EvidenceIds(r, ids, |ids|) ensures n != "" {
      var i :| 0 <= i < |ids| && ApprovalOf(r, ids[i]).evidenceId == n;
      ApprovalsListed(id.hash.workflow, e, ids[i]);
      assert HoldsApproval(r, ids[i]) && ApprovalFits(c, Defs(id)[ids[i]], ApprovalOf(r, ids[i]));
    }
  }

  lemma SomeApprovalAwaited(c: Config, id: RequestId, e: string)
    requires Lawful(c, id) && e in Defs(id) && Defs(id)[e].body.ExecuteGate?
    ensures Awaited(id, e) != []
  {
    var w := id.hash.workflow;
    var f :| ExecuteIs(w, Defs(id), f) && ExecutePathOk(Defs(id), f, c.policy.executionEnabled);
    assert ReachesKind(Defs(id), e, ApprovalKind);
    var n :| n in Defs(id) && Reaches(Requirements(Defs(id)), e, n) && HasKind(Defs(id)[n], ApprovalKind);
    ApprovalsListed(w, e, n);
  }

  /** At the moment the engine is about to sign, while single use holds, the body it builds
      passes the signer's evidence checks. */
  lemma BodyAtIssueIsBacked(c: Config, s: State, own: iset<Key>, busy: set<RequestId>, id: RequestId, g: Gate,
      now: int, a: string, nonce: string)
    requires AboutToFire(c, s, own, busy, id, g) && g.body.ExecuteGate? && UsedOnce(s)
    requires PrepareExecute(c, s, id, id.hash.workflow, g).IssueNow?
    ensures var m := PrepareExecute(c, s, id, id.hash.workflow, g);
            && id in m.state.requests && AllHoldApproval(m.state.requests[id], Awaited(id, g.id))
            && DistinctlyBacked(ClaimsFor(c, id, m.state.requests[id], g, Awaited(id, g.id), now, a, nonce))
  {
    hide Ok, UsedOnce, RequestOk, ClaimsFor;
    ClaimsListDistinctEvidence(c, s, own, busy, id, g.id, now, a, nonce);
  }

  /** Signing keeps what a run keeps. */
  lemma IssueKeeps(c: Config, s: State, own: iset<Key>, busy: set<RequestId>, id: RequestId, g: Gate, reply: Reply)
    requires AboutToFire(c, s, own, busy, id, g) && g.body.ExecuteGate?
    ensures Keeps(s, ConcludeIssue(c, s, id, id.hash.workflow, g, reply))
  {
    hide Ok, RequestOk, UsedOnce, SameApprovals, ConcludeIssue, ClaimsFor, DistinctlyBacked, Held;
    var t := ConcludeIssue(c, s, id, id.hash.workflow, g, reply);
    PendingHoldsNothing(c, id, s.requests[id], g.id);
    ConcludeIssueTouches(c, s, id, id.hash.workflow, g, reply);
    FiringSameApprovals(s, t, id, g.id);
    if UsedOnce(s) && t.signed != s.signed {
      ClaimsListDistinctEvidence(c, s, own, busy, id, g.id, Now(c, s), reply.authorizationId, reply.nonce);
    }
    SameKeeps(s, t);
  }

  // ---- Whole operations ----------------------------------------------------------------------

  /** Some ingestion in the tree carries evidence `n`. */
  predicate EnvCarries(env: Env, n: string) {
    env.Answer? && (Carries(env.nested, n) || EnvCarries(env.rest, n))
  }

  predicate Carries(calls: Calls, n: string) {
    calls.More? && (CallCarries(calls.head, n) || Carries(calls.tail, n))
  }

  predicate CallCarries(call: Call, n: string) {
    match call
    case RequestCall(_, env) => EnvCarries(env, n)
    case IngestCall(_, e, env) => e.evidenceId == Some(n) || EnvCarries(env, n)
    case _ => false
  }

  /** No verifier in the tree causes the ingestion of the very evidence it is asked about. */
  predicate CleanEnv(env: Env) {
    env.Answer? ==> Clean(env.nested) && CleanEnv(env.rest)
  }

  predicate Clean(calls: Calls) {
    calls.More? ==> CleanCall(calls.head) && Clean(calls.tail)
  }

  predicate CleanCall(call: Call) {
    match call
    case RequestCall(_, env) => CleanEnv(env)
    case IngestCall(_, e, env) => CleanEnv(env) && CleanIngest(e, env)
    case _ => true
  }

  predicate CleanIngest(e: ApprovalInput, env: Env) {
    env.Answer? && e.evidenceId.Some? ==> !Carries(env.nested, e.evidenceId.value)
  }

  lemma {:induction false} FireKeeps(c: Config, s: State, own: iset<Key>, id: RequestId, g: Gate, env: Env)
    requires AboutToFire(c, s, own, s.active + {id}, id, g) && id !in s.active && EnvWithin(env, own) && CleanEnv(env)
    ensures var f := Fire(c, s, id, id.hash.workflow, g, env); Keeps(s, f.state) && CleanEnv(f.env)
    decreases env, 1
  {
    hide Ok, RequestOk, Prepare, Conclude, ConcludeIssue, RunCalls, Callback, UsedOnce, SameApprovals, Keeps, AllBacked;
    var w, busy := id.hash.workflow, s.active + {id};
    PrepareOk(c, s, own, busy, id, g);
    MoveKinds(c, s, id, g);
    PrepareTouches(c, s, id, w, g);
    PendingHoldsNothing(c, id, s.requests[id], g.id);
    var m := Prepare(c, s, id, w, g);
    var s' := m.state;
    var reply := if env.Quiet? then Raises else env.reply;
    if m.Finished? {
      FiringSameApprovals(s, s', id, g.id);
      SameKeeps(s, s');
    } else if m.IssueNow? {
      NothingKeeps(s, s');
      IssueKeeps(c, s', own, busy, id, g, reply);
      KeepsTransitive(s, s', ConcludeIssue(c, s', id, w, g, reply));
    } else {
      NothingKeeps(s, s');
      var t := s';
      if env.Answer? {
        CallbackOk(c, s', own, id, env.nested);
        CallbackKeeps(c, s', own, id, env.nested);
        t := Callback(c, s', id, env.nested);
        KeepsTransitive(s, s', t);
      }
      ConcludeKeeps(c, t, id, g, reply);
      KeepsTransitive(s, t, Conclude(c, t, id, g, reply));
    }
  }

  lemma ConcludeKeeps(c: Config, s: State, id: RequestId, g: Gate, reply: Reply)
    requires id in s.requests && (g.body.ToolGate? || g.body.NotifyGate? || g.body.ExecuteGate?)
    requires g.id in s.requests[id].gates && !s.requests[id].gates[g.id].evidence.ApprovedBy?
    ensures Keeps(s, Conclude(c, s, id, g, reply))
  {
    hide Conclude, UsedOnce, SameApprovals, AllBacked, Held;
    ConcludeTouches(c, s, id, g, reply);
    FiringSameApprovals(s, Conclude(c, s, id, g, reply), id, g.id);
    SameKeeps(s, Conclude(c, s, id, g, reply));
  }

  lemma {:induction false} CallbackKeeps(c: Config, s: State, own: iset<Key>, id: RequestId, nested: Calls)
    requires Ok(c, s, own, s.active + {id}) && id in s.requests && id !in s.active && CallsWithin(nested, own)
             && Clean(nested)
    ensures Keeps(s, Callback(c, s, id, nested))
    decreases nested, 1
  {
    hide RequestsOk, IndexOk, RowsOk, CallsOk, NoticesOk, P.Consistent, AcceptedPolicy, Keeps;
    var inside := s.(active := s.active + {id});
    NothingKeeps(s, inside);
    RunCallsKeep(c, inside, own, nested);
    var t := RunCalls(c, inside, nested);
    NothingKeeps(t, t.(active := t.active - {id}));
    KeepsTransitive(s, inside, t);
    KeepsTransitive(s, t, t.(active := t.active - {id}));
  }

  lemma {:induction false} RunCallsKeep(c: Config, s: State, own: iset<Key>, calls: Calls)
    requires Ok(c, s, own, s.active) && CallsWithin(calls, own) && Clean(calls)
    ensures Keeps(s, RunCalls(c, s, calls))
    decreases calls, 0
  {
    hide Ok, Keeps;
    if calls.More? {
      RunCallOk(c, s, own, calls.head);
      RunCallKeeps(c, s, own, calls.head);
      var t := RunCall(c, s, calls.head);
      RunCallsKeep(c, t, own, calls.tail);
      KeepsTransitive(s, t, RunCalls(c, t, calls.tail));
    } else {
      NothingKeeps(s, s);
    }
  }

  lemma {:induction false} RunCallKeeps(c: Config, s: State, own: iset<Key>, call: Call)
    requires Ok(c, s, own, s.active) && CallWithin(call, own) && CleanCall(call)
    ensures Keeps(s, RunCall(c, s, call))
    decreases call, 0
  {
    hide Ok, P.Apply, CancelRequest, RequestAction, IngestApproval, Keeps;
    match call
    case RequestCall(args, env) => RequestKeeps(c, s, own, args, env);
    case CancelCall(id, requester, fate) => CancelKeepsApprovals(c, s, id, requester, fate);
    case IngestCall(id, evidence, env) => IngestKeeps(c, s, own, id, evidence, env);
    case WorldCall(step) => NothingKeeps(s, RunCall(c, s, call));
  }

  lemma CancelKeepsApprovals(c: Config, s: State, id: RequestId, requester: string, fate: Fate)
    ensures Keeps(s, CancelRequest(c, s, id, requester, fate).state)
  {
    hide UsedOnce, P.Apply, AllBacked, Keeps, Held, CancelRequest;
    var t := CancelRequest(c, s, id, requester, fate).state;
    CancelTouches(c, s, id, requester, fate);
    forall n, x, h ensures Held(s, n, x, h) <==> Held(t, n, x, h) { SameGatesHeld(s, t, n, x, h); }
    SameKeeps(s, t);
  }

  lemma CancelTouches(c: Config, s: State, id: RequestId, requester: string, fate: Fate)
    ensures var t := CancelRequest(c, s, id, requester, fate).state;
            && t.consumedApprovals == s.consumedApprovals && t.signed == s.signed && t.requests.Keys == s.requests.Keys
            && forall x | x in s.requests :: t.requests[x].gates == s.requests[x].gates
  {
    hide P.Apply, Terminal, Withdrawable, Release, MarkCancelled, Put;
    if CancelProblem(c, s, id, requester).None? {
      MarkTouches(s, id);
      var a := s.requests[id].authorization;
      if a.Some? {
        var world := if fate.FailsFirst? then s.world else P.Apply(s.world, P.Withdraw(a.value.id, Now(c, s)));
        MarkTouches(s.(tick := s.tick + 1, world := world), id);
      }
    }
  }

  lemma MarkTouches(s: State, id: RequestId)
    requires id in s.requests
    ensures var t := Release(Put(s, id, MarkCancelled(s.requests[id])), id);
            && t.consumedApprovals == s.consumedApprovals && t.signed == s.signed && t.requests.Keys == s.requests.Keys
            && forall x | x in s.requests :: t.requests[x].gates == s.requests[x].gates
  {
  }

  lemma SameGatesHeld(s: State, t: State, n: string, x: RequestId, h: string)
    requires t.requests.Keys == s.requests.Keys && (x in s.requests ==> t.requests[x].gates == s.requests[x].gates)
    ensures Held(s, n, x, h) <==> Held(t, n, x, h)
  {
  }

  lemma {:induction false} AdvanceKeeps(c: Config, s: State, own: iset<Key>, id: RequestId, i: nat, progressed: bool,
      env: Env)
    requires Scanning(c, s, own, id, i, progressed, env) && CleanEnv(env)
    ensures Keeps(s, Advance(c, s, id, id.hash.workflow, i, progressed, env).state)
    decreases env, 2, PendingAt(s, id), if progressed then 1 else 0, |id.hash.workflow.gates| - i
  {
    hide Ok, RequestOk, Fire, Keeps;
    var w := id.hash.workflow;
    BusyRequestOk(c, s, own, id);
    if i == |w.gates| {
      if progressed {
        AdvanceKeeps(c, s, own, id, 0, false, env);
      } else {
        SomeGateReady(c, id, s.requests[id]);
      }
    } else if !Ready(s.requests[id], w.gates[i]) {
      AdvanceKeeps(c, s, own, id, i + 1, progressed, env);
    } else {
      var g := w.gates[i];
      GateDefined(c, id, s.requests[id], i);
      FireOk(c, s, own, id, g, env);
      FireKeeps(c, s, own, id, g, env);
      var f := Fire(c, s, id, w, g, env);
      if f.state.requests[id].state.Processing? {
        AdvanceKeeps(c, f.state, own, id, i + 1, true, f.env);
        KeepsTransitive(s, f.state, Advance(c, f.state, id, w, i + 1, true, f.env).state);
      }
    }
  }

  lemma {:induction false} AdvanceAndReleaseKeeps(c: Config, s: State, own: iset<Key>, id: RequestId, env: Env)
    requires Ok(c, s, own, s.active + {id}) && id in s.requests && id !in s.active && s.requests[id].state.Processing?
    requires EnvWithin(env, own) && CleanEnv(env)
    ensures Keeps(s, AdvanceAndRelease(c, s, id, id.hash.workflow, env).state)
    decreases env, 3, 0
  {
    hide Ok, Advance, Keeps;
    AdvanceKeeps(c, s, own, id, 0, false, env);
    AdvanceOk(c, s, own, id, 0, false, env);
    var t := Advance(c, s, id, id.hash.workflow, 0, false, env).state;
    NothingKeeps(t, Release(t, id));
    KeepsTransitive(s, t, Release(t, id));
  }

  lemma AdmitKeeps(c: Config, s: State, id: RequestId)
    requires id !in s.requests
    ensures Keeps(s, Admit(c, s, id))
  {
    hide UsedOnce, AllBacked;
    var t := Admit(c, s, id);
    forall n, x, h ensures Held(s, n, x, h) <==> Held(t, n, x, h) { }
    SameKeeps(s, t);
  }

  lemma {:induction false} AdmittedKeeps(c: Config, s: State, own: iset<Key>, id: RequestId, env: Env)
    requires Ok(c, Admit(c, s, id), own, s.active + {id}) && id !in s.requests && id !in s.active
    requires EnvWithin(env, own) && CleanEnv(env)
    ensures id in Admit(c, s, id).requests
    ensures Keeps(s, AdvanceAndRelease(c, Admit(c, s, id), id, id.hash.workflow, env).state)
    decreases env, 3, 1
  {
    hide Ok, AdvanceAndRelease, Keeps;
    AdmitKeeps(c, s, id);
    AdvanceAndReleaseKeeps(c, Admit(c, s, id), own, id, env);
    KeepsTransitive(s, Admit(c, s, id), AdvanceAndRelease(c, Admit(c, s, id), id, id.hash.workflow, env).state);
  }

  lemma {:induction false} RequestKeeps(c: Config, s: State, own: iset<Key>, args: RequestArgs, env: Env)
    requires Ok(c, s, own, s.active) && Key(args.requester, args.key) in own && EnvWithin(env, own) && CleanEnv(env)
    ensures Keeps(s, RequestAction(c, s, args, env).state)
    decreases env, 4
  {
    hide Ok, RequestProblem, Lawful, AdvanceAndRelease, IdFor, Admit, KeyOf, Keeps, AcceptedPolicy;
    NothingKeeps(s, s);
    if RequestProblem(c, args).None? {
      PolicyHolds(c, s, own, s.active);
      LawfulRequest(c, args);
      var id := IdFor(c, args);
      if KeyOf(id) !in s.idempotency {
        FreshKeyFreshRequest(c, s, own, s.active, id);
        AdmitOk(c, s, own, id);
        AdmittedKeeps(c, s, own, id, env);
      }
    }
  }

  lemma {:induction false} VerifierKeeps(c: Config, s: State, own: iset<Key>, id: RequestId, env: Env)
    requires Ok(c, s, own, s.active) && id in s.requests && id !in s.active && EnvWithin(env, own)
    requires env.Answer? ==> Clean(env.nested)
    ensures Keeps(s, AfterVerifier(c, s, id, env))
    decreases env, 3
  {
    hide RequestsOk, IndexOk, RowsOk, CallsOk, NoticesOk, P.Consistent, AcceptedPolicy, Callback, Keeps;
    var s' := s.(tick := s.tick + 2);
    NothingKeeps(s, s');
    if env.Answer? {
      BusierIndex(s.requests, s.workflows, s.idempotency, s.active, id);
      CallbackKeeps(c, s', own, id, env.nested);
      KeepsTransitive(s, s', Callback(c, s', id, env.nested));
    }
  }

  // ---- Recording evidence ----------------------------------------------------------------------

  lemma HeldAfter(s: State, u: State, v: string, id: RequestId, g: string, n: string)
    requires forall m, x, h :: Held(u, m, x, h) <==> Held(s, m, x, h) || (m == v && x == id && h == g)
    ensures HeldSomewhere(u, n) <==> HeldSomewhere(s, n) || n == v
  {
    hide Held;
    if HeldSomewhere(s, n) {
      var x, h :| Held(s, n, x, h);
      assert Held(u, n, x, h);
    }
    assert n == v ==> Held(u, n, id, g);
    if HeldSomewhere(u, n) {
      var x, h :| Held(u, n, x, h);
      assert n == v || Held(s, n, x, h);
    }
  }

  lemma UnapprovedHoldsNothing(s: State, n: string, id: RequestId, g: string)
    requires id in s.requests && g in s.requests[id].gates && !s.requests[id].gates[g].evidence.ApprovedBy?
    ensures !Held(s, n, id, g)
  {
  }

  /** Recording evidence on a waiting gate adds exactly that holding. */
  lemma ConsumeHolds(c: Config, s: State, id: RequestId, g: Gate, e: ApprovalInput)
    requires id in s.requests && g.id in s.requests[id].gates && !s.requests[id].gates[g.id].evidence.ApprovedBy?
    requires e.evidenceId.Some? && e.actor.Some? && e.assurance.Some? && e.expiresAt.Some?
    ensures var u := Consume(c, s, id, g, e);
            && u.consumedApprovals == s.consumedApprovals + {e.evidenceId.value} && u.signed == s.signed
            && forall n, x, h ::
                 Held(u, n, x, h) <==> Held(s, n, x, h) || (n == e.evidenceId.value && x == id && h == g.id)
  {
    var u := Consume(c, s, id, g, e);
    forall n, x, h
      ensures Held(u, n, x, h) <==> Held(s, n, x, h) || (n == e.evidenceId.value && x == id && h == g.id)
    {
    }
  }

  /** Single use survives the recording of evidence exactly when it is unused at that moment. */
  lemma ConsumeKeepsSingleUseIff(c: Config, s: State, id: RequestId, g: Gate, e: ApprovalInput)
    requires UsedOnce(s)
    requires id in s.requests && g.id in s.requests[id].gates && !s.requests[id].gates[g.id].evidence.ApprovedBy?
    requires e.evidenceId.Some? && e.actor.Some? && e.assurance.Some? && e.expiresAt.Some?
    ensures UsedOnce(Consume(c, s, id, g, e)) <==> e.evidenceId.value !in s.consumedApprovals
  {
    hide Held, Consume;
    var u := Consume(c, s, id, g, e);
    var v := e.evidenceId.value;
    ConsumeHolds(c, s, id, g, e);
    assert !Held(s, v, id, g.id) by { UnapprovedHoldsNothing(s, v, id, g.id); }
    assert Held(u, v, id, g.id);
    if v in s.consumedApprovals {
      var x, h :| Held(s, v, x, h);
      assert Held(u, v, x, h);
    } else {
      forall n ensures n in u.consumedApprovals <==> HeldSomewhere(u, n) {
        HeldAfter(s, u, v, id, g.id, n);
      }
      assert !HeldSomewhere(s, v);
    }
  }

  /** Once two gates hold the evidence it stays so. */
  lemma ReusedStaysReused(c: Config, s: State, u: State, later: State, id: RequestId, g: Gate, e: ApprovalInput)
    requires id in s.requests && g.id in s.requests[id].gates && !s.requests[id].gates[g.id].evidence.ApprovedBy?
    requires e.evidenceId.Some? && e.actor.Some? && e.assurance.Some? && e.expiresAt.Some?
    requires UsedOnce(s) && Grows(u, later) && u == Consume(c, s, id, g, e) && e.evidenceId.value in s.consumedApprovals
    ensures !UsedOnce(later)
  {
    hide Held, Consume;
    var v := e.evidenceId.value;
    ConsumeHolds(c, s, id, g, e);
    assert !Held(s, v, id, g.id) by { UnapprovedHoldsNothing(s, v, id, g.id); }
    var x, h :| Held(s, v, x, h);
    assert Held(u, v, x, h) && Held(u, v, id, g.id);
    assert Held(later, v, x, h) && Held(later, v, id, g.id);
  }

  /** A waiting gate holds no approval. */
  lemma WaitingHoldsNothing(c: Config, s: State, own: iset<Key>, id: RequestId, g: string)
    requires Ok(c, s, own, s.active) && id in s.requests && g in s.requests[id].gates
             && s.requests[id].gates[g].status.Waiting?
    ensures !s.requests[id].gates[g].evidence.ApprovedBy?
  {
    hide Ok, FlagsOk, HistoryOk, ApprovalsOk, ChecksOk, TokenOk, Lawful;
    RequestInvariant(c, s, own, s.active, id);
    assert GateFits(Defs(id)[g], s.requests[id].gates[g], s.requests[id].state);
  }

  lemma UnusedEvidence(c: Config, s: State, id: RequestId, e: ApprovalInput)
    requires EvidenceProblem(c, s, id, e).None?
    ensures e.evidenceId.Some? && e.evidenceId.value !in s.consumedApprovals
  {
  }

  lemma ConsumeKeeps(c: Config, t: State, own: iset<Key>, id: RequestId, g: Gate, e: ApprovalInput)
    requires Ok(c, t, own, t.active) && id in t.requests && g.id in t.requests[id].gates
             && t.requests[id].gates[g.id].status.Waiting?
    requires e.evidenceId.Some? && e.actor.Some? && e.assurance.Some? && e.expiresAt.Some?
    ensures Grows(t, Consume(c, t, id, g, e))
    ensures e.evidenceId.value !in t.consumedApprovals ==> Keeps(t, Consume(c, t, id, g, e))
  {
    hide Ok, Consume, UsedOnce, Held, AllBacked;
    WaitingHoldsNothing(c, t, own, id, g.id);
    ConsumeHolds(c, t, id, g, e);
    if UsedOnce(t) {
      ConsumeKeepsSingleUseIff(c, t, id, g, e);
    }
  }

  /** An ingestion that its own verifier does not repeat keeps single use. */
  lemma {:induction false} IngestKeeps(c: Config, s: State, own: iset<Key>, id: RequestId, e: ApprovalInput, env: Env)
    requires Ok(c, s, own, s.active) && EnvWithin(env, own) && CleanEnv(env) && CleanIngest(e, env)
    ensures Keeps(s, IngestApproval(c, s, id, e, env).state)
    decreases env, 4
  {
    hide Ok, EvidenceProblem, AdvanceAndRelease, AfterVerifier, Consume, ApprovalFits, Keeps, Grows, Carries;
    NothingKeeps(s, s);
    if EvidenceProblem(c, s, id, e).None? {
      EvidenceFits(c, s, s.(tick := s.tick + 2), own, id, e);
      VerifierOk(c, s, own, id, env);
      VerifierKeeps(c, s, own, id, env);
      var t := AfterVerifier(c, s, id, env);
      if env.Answer? && env.reply.Trusts? && env.reply.verdict {
        EvidenceFits(c, s, t, own, id, e);
        UnusedEvidence(c, s, id, e);
        VerifierLeavesUnused(c, s, id, env, e.evidenceId.value);
        var g := WaitingGate(s.workflows[id].gates, s.requests[id], 0).value;
        var u := Consume(c, t, id, g, e);
        ConsumeOk(c, t, own, id, g, e);
        ConsumedFrame(c, t, id, g, e);
        ConsumeKeeps(c, t, own, id, g, e);
        KeepsTransitive(s, t, u);
        AdvanceAndReleaseKeeps(c, u, own, id, env.rest);
        KeepsTransitive(s, u, AdvanceAndRelease(c, u, id, id.hash.workflow, env.rest).state);
      }
    }
  }

  /** For a whole ingestion that is accepted: single use survives exactly when, once the verifier
      has run, the evidence is still unused. */
  lemma IngestKeepsSingleUseIff(c: Config, s: State, own: iset<Key>, id: RequestId, e: ApprovalInput, env: Env)
    requires Ok(c, s, own, s.active) && EnvWithin(env, own) && UsedOnce(s) && EvidenceProblem(c, s, id, e).None?
    requires env.Answer? && env.reply == Trusts(true) && CleanEnv(env)
    ensures e.evidenceId.Some?
    ensures UsedOnce(IngestApproval(c, s, id, e, env).state) <==>
              e.evidenceId.value !in AfterVerifier(c, s, id, env).consumedApprovals
  {
    hide Ok, EvidenceProblem, AdvanceAndRelease, AfterVerifier, Consume, ApprovalFits, UsedOnce, AllBacked, Grows;
    EvidenceFits(c, s, s.(tick := s.tick + 2), own, id, e);
    VerifierOk(c, s, own, id, env);
    VerifierKeeps(c, s, own, id, env);
    var t := AfterVerifier(c, s, id, env);
    EvidenceFits(c, s, t, own, id, e);
    var g := WaitingGate(s.workflows[id].gates, s.requests[id], 0).value;
    var u := Consume(c, t, id, g, e);
    ConsumeOk(c, t, own, id, g, e);
    ConsumedFrame(c, t, id, g, e);
    WaitingHoldsNothing(c, t, own, id, g.id);
    ConsumeKeepsSingleUseIff(c, t, id, g, e);
    AdvanceAndReleaseKeeps(c, u, own, id, env.rest);
    if e.evidenceId.value in t.consumedApprovals {
      ReusedStaysReused(c, t, u, AdvanceAndRelease(c, u, id, id.hash.workflow, env.rest).state, id, g, e);
    }
  }

  /** What a host can check beforehand: if nothing the verifier causes ingests that very id,
      single use survives. */
  lemma UncarriedEvidenceStaysSingle(c: Config, s: State, own: iset<Key>, id: RequestId, e: ApprovalInput, env: Env)
    requires Ok(c, s, own, s.active) && EnvWithin(env, own) && UsedOnce(s)
    requires CleanEnv(env) && CleanIngest(e, env)
    ensures UsedOnce(IngestApproval(c, s, id, e, env).state)
  {
    hide Ok, IngestApproval, UsedOnce, CleanEnv, CleanIngest, EnvWithin;
    IngestKeeps(c, s, own, id, e, env);
  }

  /** If no verifier ingests the evidence it is asked about, over every run the consumed set is
      exactly the evidence held by approved gates, no evidence is held by two gates, and every
      body handed to the signer passed its evidence checks. */
  lemma EvidenceUsedOnce(c: Config, world: P.World, own: iset<Key>, calls: Calls)
    requires AcceptedPolicy(c.policy) && Joins(world, own) && CallsWithin(calls, own)
    requires Clean(calls)
    ensures UsedOnce(RunCalls(c, Initial(world), calls)) && AllBacked(RunCalls(c, Initial(world), calls).signed)
  {
    hide Ok, Joins, RunCalls;
    StartsOk(c, world, own);
    RunCallsKeep(c, Initial(world), own, calls);
  }

  // ---- Evidence nobody carries is consumed by nobody ----------------------------------------------

  lemma {:induction false} VerifierLeavesUnused(c: Config, s: State, id: RequestId, env: Env, n: string)
    requires n !in s.consumedApprovals && (env.Answer? ==> !Carries(env.nested, n))
    ensures n !in AfterVerifier(c, s, id, env).consumedApprovals
    decreases env, 3
  {
    hide Callback, Carries;
    if env.Answer? {
      CallbackLeavesUnused(c, s.(tick := s.tick + 2), id, env.nested, n);
    }
  }

  lemma {:induction false} CallbackLeavesUnused(c: Config, s: State, id: RequestId, nested: Calls, n: string)
    requires n !in s.consumedApprovals && !Carries(nested, n)
    ensures n !in Callback(c, s, id, nested).consumedApprovals
    decreases nested, 1
  {
    hide RunCalls, Carries;
    RunCallsLeaveUnused(c, s.(active := s.active + {id}), nested, n);
  }

  lemma {:induction false} RunCallsLeaveUnused(c: Config, s: State, calls: Calls, n: string)
    requires n !in s.consumedApprovals && !Carries(calls, n)
    ensures n !in RunCalls(c, s, calls).consumedApprovals
    decreases calls, 0
  {
    hide RunCall;
    if calls.More? {
      RunCallLeavesUnused(c, s, calls.head, n);
      RunCallsLeaveUnused(c, RunCall(c, s, calls.head), calls.tail, n);
    }
  }

  lemma {:induction false} RunCallLeavesUnused(c: Config, s: State, call: Call, n: string)
    requires n !in s.consumedApprovals && !CallCarries(call, n)
    ensures n !in RunCall(c, s, call).consumedApprovals
    decreases call, 0
  {
    hide RequestAction, IngestApproval, P.Apply;
    match call
    case RequestCall(args, env) => RequestLeavesUnused(c, s, args, env, n);
    case CancelCall(id, requester, fate) => CancelLeavesUnused(c, s, id, requester, fate);
    case IngestCall(id, e, env) => IngestLeavesUnused(c, s, id, e, env, n);
    case WorldCall(step) =>
  }

  lemma CancelLeavesUnused(c: Config, s: State, id: RequestId, requester: string, fate: Fate)
    ensures CancelRequest(c, s, id, requester, fate).state.consumedApprovals == s.consumedApprovals
  {
    hide P.Apply;
  }

  lemma {:induction false} RequestLeavesUnused(c: Config, s: State, args: RequestArgs, env: Env, n: string)
    requires n !in s.consumedApprovals && !EnvCarries(env, n)
    ensures n !in RequestAction(c, s, args, env).state.consumedApprovals
    decreases env, 4
  {
    hide RequestProblem, AdvanceAndRelease, EnvCarries;
    if RequestProblem(c, args).None? && KeyOf(IdFor(c, args)) !in s.idempotency {
      var id := IdFor(c, args);
      AdvanceAndReleaseLeavesUnused(c, Admit(c, s, id), id, id.hash.workflow, env, n);
    }
  }

  lemma {:induction false} IngestLeavesUnused(c: Config, s: State, id: RequestId, e: ApprovalInput, env: Env, n: string)
    requires n !in s.consumedApprovals && e.evidenceId != Some(n) && !EnvCarries(env, n)
    ensures n !in IngestApproval(c, s, id, e, env).state.consumedApprovals
    decreases env, 4
  {
    hide AdvanceAndRelease, AfterVerifier, Carries;
    if EvidenceProblem(c, s, id, e).None? {
      VerifierLeavesUnused(c, s, id, env, n);
      var t := AfterVerifier(c, s, id, env);
      if env.Answer? && env.reply.Trusts? && env.reply.verdict {
        var g := WaitingGate(s.workflows[id].gates, s.requests[id], 0).value;
        AdvanceAndReleaseLeavesUnused(c, Consume(c, t, id, g, e), id, s.workflows[id], env.rest, n);
      }
    }
  }

  lemma {:induction false} AdvanceAndReleaseLeavesUnused(c: Config, s: State, id: RequestId, w: Workflow, env: Env,
      n: string)
    requires id in s.requests && n !in s.consumedApprovals && !EnvCarries(env, n)
    ensures n !in AdvanceAndRelease(c, s, id, w, env).state.consumedApprovals
    decreases env, 3
  {
    hide Advance, EnvCarries;
    AdvanceLeavesUnused(c, s, id, w, 0, false, env, n);
  }

  lemma {:induction false} AdvanceLeavesUnused(c: Config, s: State, id: RequestId, w: Workflow, i: nat,
      progressed: bool, env: Env, n: string)
    requires id in s.requests && i <= |w.gates| && n !in s.consumedApprovals && !EnvCarries(env, n)
    ensures n !in Advance(c, s, id, w, i, progressed, env).state.consumedApprovals
    decreases env, 2, PendingSet(s.requests[id]), if progressed then 1 else 0, |w.gates| - i
  {
    hide Fire, EnvCarries;
    if i == |w.gates| {
      if progressed {
        AdvanceLeavesUnused(c, s, id, w, 0, false, env, n);
      }
    } else if !Ready(s.requests[id], w.gates[i]) {
      AdvanceLeavesUnused(c, s, id, w, i + 1, progressed, env, n);
    } else {
      FireLeavesUnused(c, s, id, w, w.gates[i], env, n);
      var f := Fire(c, s, id, w, w.gates[i], env);
      if f.state.requests[id].state.Processing? {
        AdvanceLeavesUnused(c, f.state, id, w, i + 1, true, f.env, n);
      }
    }
  }

  lemma {:induction false} FireLeavesUnused(c: Config, s: State, id: RequestId, w: Workflow, g: Gate, env: Env,
      n: string)
    requires id in s.requests && Ready(s.requests[id], g) && n !in s.consumedApprovals && !EnvCarries(env, n)
    ensures var f := Fire(c, s, id, w, g, env); n !in f.state.consumedApprovals && !EnvCarries(f.env, n)
    decreases env, 1
  {
    hide Prepare, Conclude, ConcludeIssue, Callback, Carries;
    PrepareShrinks(c, s, id, w, g);
    PrepareTouches(c, s, id, w, g);
    MoveKindsFor(c, s, id, w, g);
    var m := Prepare(c, s, id, w, g);
    var reply := if env.Quiet? then Raises else env.reply;
    if m.IssueNow? {
      ConcludeIssueTouches(c, m.state, id, w, g, reply);
    } else if m.CallOut? {
      var t := m.state;
      if env.Answer? {
        CallbackLeavesUnused(c, t, id, env.nested, n);
        t := Callback(c, t, id, env.nested);
      }
      ConcludeTouches(c, t, id, g, reply);
    }
  }

  lemma MoveKindsFor(c: Config, s: State, id: RequestId, w: Workflow, g: Gate)
    requires id in s.requests
    ensures var m := Prepare(c, s, id, w, g);
            && (m.IssueNow? ==> g.body.ExecuteGate?)
            && (m.CallOut? ==> g.body.ToolGate? || g.body.NotifyGate? || g.body.ExecuteGate?)
  {
  }

  // ---- A verifier that ingests approvals itself ----------------------------------------------

  /** The gate that waited holds the evidence in `u`. */
  predicate HeldWhereChecked(s: State, id: RequestId, e: ApprovalInput, u: State) {
    && e.evidenceId.Some? && id in s.requests && id in s.workflows
    && var gate := WaitingGate(s.workflows[id].gates, s.requests[id], 0);
       gate.Some? && Held(u, e.evidenceId.value, id, gate.value.id)
  }

  /** Accepted evidence is held by the gate it was checked against, whatever else is held. */
  lemma AcceptedEvidenceIsHeld(c: Config, s: State, own: iset<Key>, id: RequestId, e: ApprovalInput, env: Env)
    requires Ok(c, s, own, s.active) && EnvWithin(env, own) && EvidenceProblem(c, s, id, e).None?
    requires env.Answer? && env.reply == Trusts(true) && CleanEnv(env.rest)
    ensures var u := IngestApproval(c, s, id, e, env).state;
            && HeldWhereChecked(s, id, e, u)
            && forall n, x, h | Held(AfterVerifier(c, s, id, env), n, x, h) :: Held(u, n, x, h)
  {
    hide Ok, EvidenceProblem, AdvanceAndRelease, AfterVerifier, Consume, ApprovalFits, Held, UsedOnce;
    EvidenceFits(c, s, s.(tick := s.tick + 2), own, id, e);
    VerifierOk(c, s, own, id, env);
    var t := AfterVerifier(c, s, id, env);
    EvidenceFits(c, s, t, own, id, e);
    var g := WaitingGate(s.workflows[id].gates, s.requests[id], 0).value;
    var u := Consume(c, t, id, g, e);
    ConsumeOk(c, t, own, id, g, e);
    ConsumedFrame(c, t, id, g, e);
    WaitingHoldsNothing(c, t, own, id, g.id);
    ConsumeHolds(c, t, id, g, e);
    AdvanceAndReleaseKeeps(c, u, own, id, env.rest);
  }

  /** Why the condition on verifiers is needed: the check that evidence is unused comes before
      the verifier and is not repeated after it. For any two waiting requests, a verifier that
      ingests the same evidence id for the second while it is asked about the first leaves both
      approved on that one id. */
  lemma ReentrantVerifierReusesEvidence(c: Config, s: State, own: iset<Key>, id: RequestId, e: ApprovalInput,
      id2: RequestId, e2: ApprovalInput)
    requires Ok(c, s, own, s.active) && id != id2 && e.evidenceId == e2.evidenceId
    requires EvidenceProblem(c, s, id, e).None?
    requires EvidenceProblem(c, s.(tick := s.tick + 2, active := s.active + {id}), id2, e2).None?
    ensures var inner := Answer(NoCalls, Trusts(true), Quiet);
            var env := Answer(More(IngestCall(id2, e2, inner), NoCalls), Trusts(true), Quiet);
            !UsedOnce(IngestApproval(c, s, id, e, env).state)
  {
    hide Ok, EvidenceProblem, IngestApproval, Held;
    var inner := Answer(NoCalls, Trusts(true), Quiet);
    var env := Answer(More(IngestCall(id2, e2, inner), NoCalls), Trusts(true), Quiet);
    var inside := s.(tick := s.tick + 2, active := s.active + {id});
    EvidenceFits(c, s, s.(tick := s.tick + 2), own, id, e);
    InsideOk(c, s, own, id);
    assert EnvWithin(Quiet, own) && CallsWithin(NoCalls, own) && EnvWithin(inner, own);
    assert CallWithin(IngestCall(id2, e2, inner), own) && EnvWithin(env, own);
    AcceptedEvidenceIsHeld(c, inside, own, id2, e2, inner);
    AcceptedEvidenceIsHeld(c, s, own, id, e, env);
    var u := IngestApproval(c, inside, id2, e2, inner).state;
    OneNestedIngest(c, s, id, id2, e2, inner, Trusts(true), Quiet);
    NothingSameApprovals(u, AfterVerifier(c, s, id, env));
  }

  lemma OneNestedIngest(c: Config, s: State, id: RequestId, id2: RequestId, e2: ApprovalInput, inner: Env,
      reply: Reply, rest: Env)
    ensures var inside := s.(tick := s.tick + 2, active := s.active + {id});
            var u := IngestApproval(c, inside, id2, e2, inner).state;
            AfterVerifier(c, s, id, Answer(More(IngestCall(id2, e2, inner), NoCalls), reply, rest))
              == u.(active := u.active - {id})
  {
    hide IngestApproval;
    var inside := s.(tick := s.tick + 2, active := s.active + {id});
    var u := IngestApproval(c, inside, id2, e2, inner).state;
    assert RunCalls(c, u, NoCalls) == u;
    assert RunCall(c, inside, IngestCall(id2, e2, inner)) == u;
    assert s.(tick := s.tick + 2).(active := s.active + {id}) == inside;
    assert RunCalls(c, inside, More(IngestCall(id2, e2, inner), NoCalls)) == u;
  }

  lemma InsideOk(c: Config, s: State, own: iset<Key>, id: RequestId)
    requires Ok(c, s, own, s.active) && id in s.requests
    ensures var inside := s.(tick := s.tick + 2, active := s.active + {id}); Ok(c, inside, own, inside.active)
  {
    hide RequestsOk, IndexOk, RowsOk, CallsOk, P.Consistent, AcceptedPolicy;
    BusierIndex(s.requests, s.workflows, s.idempotency, s.active, id);
  }
}
