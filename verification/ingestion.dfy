/** Trusted ingestion of approval evidence: exactly which evidence the engine accepts, what it
    then holds, and that nothing else changes the request. */
module ApprovalIngestion {
  import opened JsonValues
  import opened Policies
  import opened Claims
  import opened GateEngine
  import opened RequestLifecycle
  import opened EngineSafety
  import opened EngineTheorems
  import U = EvidenceUse
  import P = ConsumptionProtocol

  /** A waiting request has exactly one waiting gate, and its record carries the gate's terms. */
  lemma WaitingGateTerms(c: Config, id: RequestId, r: Request)
    requires RequestOk(c, id, r) && r.state.WaitingForApproval?
    ensures var gate := WaitingGate(id.hash.workflow.gates, r, 0);
            && gate.Some? && gate.value.body.ApprovalGate? && gate.value.body.ttl >= 1
            && gate.value.id in r.gates
            && r.gates[gate.value.id] == GateRecord(Waiting, Awaiting(gate.value.body.level, gate.value.body.ttl))
            && LevelControl(gate.value.body.level) == id.hash.control
            && forall h | h in r.gates && r.gates[h].status.Waiting? :: h == gate.value.id
  {
    hide FlagsOk, HistoryOk, ApprovalsOk, ChecksOk, TokenOk, GraphOk, ExecuteOk, ControlMatches;
    var gates := id.hash.workflow.gates;
    WaitingGateFound(gates, r, 0);
    DefinitionsLookup(gates);
    var h :| h in r.gates && r.gates[h].status.Waiting?;
    assert GateFits(Defs(id)[h], r.gates[h], r.state);
    var j :| 0 <= j < |gates| && gates[j] == Defs(id)[h];
    var g := WaitingGate(gates, r, 0).value;
    assert GateFits(Defs(id)[g.id], r.gates[g.id], r.state);
    ApprovalGateControl(c, id, g.id);
  }

  lemma WaitingWorkflow(c: Config, s: State, own: iset<Key>, busy: set<RequestId>, id: RequestId)
    requires Ok(c, s, own, busy) && id in s.requests && s.requests[id].state.WaitingForApproval?
    ensures id in s.workflows && s.workflows[id] == id.hash.workflow && RequestOk(c, id, s.requests[id])
  {
    hide RequestOk, RowsOk, CallsOk, P.Consistent, AcceptedPolicy;
  }

  // ---- An approval, once given, stays with its gate ---------------------------------------------------

  predicate KeepsGate(s: State, t: State, id: RequestId, g: string) {
    id in s.requests && id in t.requests && g in s.requests[id].gates && g in t.requests[id].gates
      && t.requests[id].gates[g] == s.requests[id].gates[g]
  }

  lemma FiringKeepsGate(s: State, t: State, id: RequestId, g: string, a: string)
    requires id in s.requests && id in t.requests && a in s.requests[id].gates && a != g
    requires GateFired(s.requests[id], t.requests[id], g)
    ensures KeepsGate(s, t, id, a)
  {
  }

  lemma FireKeepsGate(c: Config, s: State, own: iset<Key>, id: RequestId, g: Gate, env: Env, a: string)
    requires AboutToFire(c, s, own, s.active + {id}, id, g) && id !in s.active && EnvWithin(env, own)
    requires a in s.requests[id].gates && a != g.id
    ensures KeepsGate(s, Fire(c, s, id, id.hash.workflow, g, env).state, id, a)
  {
    hide Ok, RequestOk, Prepare, Conclude, ConcludeIssue, Callback;
    var w := id.hash.workflow;
    PrepareOk(c, s, own, s.active + {id}, id, g);
    MoveKinds(c, s, id, g);
    U.PrepareTouches(c, s, id, w, g);
    var m := Prepare(c, s, id, w, g);
    var reply := if env.Quiet? then Raises else env.reply;
    if m.Finished? {
      FiringKeepsGate(s, m.state, id, g.id, a);
    } else if m.IssueNow? {
      U.ConcludeIssueTouches(c, m.state, id, w, g, reply);
      FiringKeepsGate(m.state, ConcludeIssue(c, m.state, id, w, g, reply), id, g.id, a);
    } else if m.CallOut? {
      var t := m.state;
      if env.Answer? {
        CallbackOk(c, t, own, id, env.nested);
        t := Callback(c, t, id, env.nested);
      }
      U.ConcludeTouches(c, t, id, g, reply);
      FiringKeepsGate(t, Conclude(c, t, id, g, reply), id, g.id, a);
    }
  }

  lemma {:induction false} AdvanceKeepsGate(c: Config, s: State, own: iset<Key>, id: RequestId, i: nat,
      progressed: bool, env: Env, a: string)
    requires Scanning(c, s, own, id, i, progressed, env)
    requires a in s.requests[id].gates && !s.requests[id].gates[a].status.Pending?
    ensures KeepsGate(s, Advance(c, s, id, id.hash.workflow, i, progressed, env).state, id, a)
    decreases env, PendingAt(s, id), if progressed then 1 else 0, |id.hash.workflow.gates| - i
  {
    hide Ok, RequestOk, Fire;
    var w := id.hash.workflow;
    BusyRequestOk(c, s, own, id);
    if i == |w.gates| {
      if progressed {
        AdvanceKeepsGate(c, s, own, id, 0, false, env, a);
      } else {
        SomeGateReady(c, id, s.requests[id]);
      }
    } else if !Ready(s.requests[id], w.gates[i]) {
      AdvanceKeepsGate(c, s, own, id, i + 1, progressed, env, a);
    } else {
      var g := w.gates[i];
      GateDefined(c, id, s.requests[id], i);
      FireOk(c, s, own, id, g, env);
      FireKeepsGate(c, s, own, id, g, env, a);
      var f := Fire(c, s, id, w, g, env);
      if f.state.requests[id].state.Processing? {
        AdvanceKeepsGate(c, f.state, own, id, i + 1, true, f.env, a);
      }
    }
  }

  // ---- Which evidence is accepted ---------------------------------------------------------------------

  /** Evidence the engine takes to its verifier: the request waits and is in no callback; the
      evidence approves, under an id not used before; it names this request, its hash and the
      gate that waits; it expires after the first reading of the clock and within the gate's
      window of the second; its actor is named and its assurance as strong as the gate asks. */
  ghost predicate Presentable(c: Config, s: State, id: RequestId, e: ApprovalInput) {
    && id in s.requests && id !in s.active && s.requests[id].state.WaitingForApproval?
    && e.approves
    && e.evidenceId.Some? && e.evidenceId.value != "" && e.evidenceId.value !in s.consumedApprovals
    && e.requestId == Some(id) && e.requestHash == Some(id.hash)
    && e.gateId.Some? && e.actor.Some? && e.actor.value != "" && e.assurance.Some? && e.expiresAt.Some?
    && var g := e.gateId.value;
       && g in s.requests[id].gates && s.requests[id].gates[g].status.Waiting?
       && g in Defs(id) && Defs(id)[g].body.ApprovalGate?
       && (Defs(id)[g].body.level.HumanStepUp? ==> e.assurance.value.StepUp?)
       && c.clock(s.tick) < e.expiresAt.value <= c.clock(s.tick + 1) + Defs(id)[g].body.ttl
  }

  /** The verifier answers, and says yes. */
  predicate Trusted(env: Env) { env.Answer? && env.reply == Trusts(true) }

  /** The gate that waited holds exactly the evidence, consumed at `at`. */
  predicate HoldsEvidence(t: State, id: RequestId, e: ApprovalInput, at: int) {
    && e.evidenceId.Some? && e.gateId.Some? && e.actor.Some? && e.assurance.Some? && e.expiresAt.Some?
    && id in t.requests && e.gateId.value in t.requests[id].gates
    && var record := t.requests[id].gates[e.gateId.value];
       && record.status.Approved?
       && record.evidence == ApprovedBy(Approval(e.evidenceId.value, e.actor.value, e.assurance.value,
                                                 e.expiresAt.value, at, e.provenance))
  }

  /** The checks of the engine, one after the other, refuse exactly what is not presentable. */
  lemma PresentableIff(c: Config, s: State, own: iset<Key>, id: RequestId, e: ApprovalInput)
    requires Ok(c, s, own, s.active)
    ensures EvidenceProblem(c, s, id, e).None? <==> Presentable(c, s, id, e)
  {
    hide Ok, RequestOk, WaitingGate;
    if id in s.requests && id !in s.active && s.requests[id].state.WaitingForApproval? {
      WaitingWorkflow(c, s, own, s.active, id);
      WaitingGateTerms(c, id, s.requests[id]);
      WaitingGateDefined(c, id, s.requests[id]);
    }
  }

  lemma WaitingGateDefined(c: Config, id: RequestId, r: Request)
    requires RequestOk(c, id, r) && r.state.WaitingForApproval?
    requires WaitingGate(id.hash.workflow.gates, r, 0).Some?
    ensures var g := WaitingGate(id.hash.workflow.gates, r, 0).value; g.id in Defs(id) && Defs(id)[g.id] == g
  {
    hide FlagsOk, HistoryOk, ApprovalsOk, ChecksOk, TokenOk, GraphOk, ExecuteOk, ControlMatches;
    WaitingGateFound(id.hash.workflow.gates, r, 0);
    DefinitionsLookup(id.hash.workflow.gates);
  }

  /** What one ingestion does: accepted exactly when the evidence is presentable and the verifier
      trusts it, and then it sits on its gate whatever the later gates do; otherwise it raises,
      and apart from what the verifier itself caused nothing has changed. */
  ghost predicate IngestedRightly(c: Config, s: State, id: RequestId, e: ApprovalInput, env: Env, res: Result) {
    && (res.response == Accepts(id) <==> Presentable(c, s, id, e) && Trusted(env))
    && (res.response != Accepts(id) ==> res.response.Raised?)
    && (!Presentable(c, s, id, e) ==> res.state == s)
    && (Presentable(c, s, id, e) && !Trusted(env) ==>
          && res.state == AfterVerifier(c, s, id, env)
          && id in res.state.requests && res.state.requests[id] == s.requests[id])
    && (Presentable(c, s, id, e) && Trusted(env) ==>
          HoldsEvidence(res.state, id, e, c.clock(AfterVerifier(c, s, id, env).tick)))
  }

  lemma IngestAcceptsIff(c: Config, s: State, own: iset<Key>, id: RequestId, e: ApprovalInput, env: Env)
    requires Ok(c, s, own, s.active) && EnvWithin(env, own)
    ensures IngestedRightly(c, s, id, e, env, IngestApproval(c, s, id, e, env))
  {
    hide Ok, EvidenceProblem, AdvanceAndRelease, ApprovalFits, WaitingGate, AfterVerifier, Consume, Presentable,
      HoldsEvidence;
    PresentableIff(c, s, own, id, e);
    if EvidenceProblem(c, s, id, e).None? {
      EvidenceFits(c, s, s.(tick := s.tick + 2), own, id, e);
      VerifierOk(c, s, own, id, env);
      if Trusted(env) {
        TrustedIsAccepted(c, s, own, id, e, env);
      }
    }
  }

  /** Evidence that passes the engine's checks and satisfies its verifier is accepted, and its
      gate then carries exactly it. */
  lemma TrustedIsAccepted(c: Config, s: State, own: iset<Key>, id: RequestId, e: ApprovalInput, env: Env)
    requires Ok(c, s, own, s.active) && EnvWithin(env, own) && EvidenceProblem(c, s, id, e).None? && Trusted(env)
    ensures IngestApproval(c, s, id, e, env).response == Accepts(id)
    ensures HoldsEvidence(IngestApproval(c, s, id, e, env).state, id, e, c.clock(AfterVerifier(c, s, id, env).tick))
  {
    hide Ok, EvidenceProblem, AdvanceAndRelease, ApprovalFits, WaitingGate, AfterVerifier, Consume;
    var t := AfterVerifier(c, s, id, env);
    EvidenceFits(c, s, s.(tick := s.tick + 2), own, id, e);
    VerifierOk(c, s, own, id, env);
    EvidenceFits(c, s, t, own, id, e);
    NamesWaitingGate(c, s, id, e);
    ConsumedIsAccepted(c, t, own, id, WaitingGate(s.workflows[id].gates, s.requests[id], 0).value, e, env.rest);
  }

  lemma NamesWaitingGate(c: Config, s: State, id: RequestId, e: ApprovalInput)
    requires EvidenceProblem(c, s, id, e).None?
    ensures id in s.requests && id in s.workflows && WaitingGate(s.workflows[id].gates, s.requests[id], 0).Some?
    ensures e.gateId == Some(WaitingGate(s.workflows[id].gates, s.requests[id], 0).value.id)
  {
  }

  lemma ConsumedIsAccepted(c: Config, t: State, own: iset<Key>, id: RequestId, g: Gate, e: ApprovalInput, rest: Env)
    requires Ok(c, t, own, t.active) && EnvWithin(rest, own) && id in t.requests && id !in t.active
    requires t.requests[id].state.WaitingForApproval? && e.gateId == Some(g.id)
    requires g.id in t.requests[id].gates && t.requests[id].gates[g.id].status.Waiting? && g.id in Defs(id)
             && Defs(id)[g.id] == g
    requires e.evidenceId.Some? && e.actor.Some? && e.assurance.Some? && e.expiresAt.Some?
    requires ApprovalFits(c, g, ApprovalFrom(e, Now(c, t)))
    ensures id in Consume(c, t, id, g, e).requests
    ensures var res := AdvanceAndRelease(c, Consume(c, t, id, g, e), id, id.hash.workflow, rest);
            res.response == Accepts(id) && HoldsEvidence(res.state, id, e, c.clock(t.tick))
  {
    hide Ok, Advance, ApprovalFits, Consume;
    ConsumeOk(c, t, own, id, g, e);
    var u := Consume(c, t, id, g, e);
    ConsumedFrame(c, t, id, g, e);
    ConsumedGate(c, t, id, g, e);
    AdvanceAndReleaseOk(c, u, own, id, rest);
    AdvanceKeepsGate(c, u, own, id, 0, false, rest, g.id);
  }

  lemma ConsumedGate(c: Config, s: State, id: RequestId, g: Gate, e: ApprovalInput)
    requires id in s.requests && e.evidenceId.Some? && e.actor.Some? && e.assurance.Some? && e.expiresAt.Some?
    requires e.gateId == Some(g.id)
    ensures HoldsEvidence(Consume(c, s, id, g, e), id, e, c.clock(s.tick))
  {
  }

  lemma QuietVerifier(c: Config, s: State, id: RequestId, reply: Reply, rest: Env)
    requires id !in s.active
    ensures AfterVerifier(c, s, id, Answer(NoCalls, reply, rest)) == s.(tick := s.tick + 2)
  {
    assert RunCalls(c, s.(tick := s.tick + 2, active := s.active + {id}), NoCalls)
      == s.(tick := s.tick + 2, active := s.active + {id});
    assert s.active + {id} - {id} == s.active;
  }
}
