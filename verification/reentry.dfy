/** One concrete policy, and the concrete run in which a re-entrant verifier has one piece of
    approval evidence accepted twice. */
module ReentrantApproval {
  import opened JsonValues
  import opened GateGraph
  import opened Policies
  import opened Claims
  import opened GateEngine
  import opened EngineSafety
  import opened EngineTheorems
  import opened EvidenceUse
  import opened EngineRuns
  import S = AuthorizationStore
  import P = ConsumptionProtocol

  const ASK: Gate := Gate("ask", ["tell"], ApprovalGate(HumanApproveOnce, 100))
  const TELL: Gate := Gate("tell", [], NotifyGate("ops", "please look"))
  const RUN: Gate := Gate("run", ["ask"], ExecuteGate("tool", true))
  const FLOW: Workflow := Workflow(["*"], "tool", ParameterSchema([], map[]), [TELL, ASK, RUN])
  const POLICY: Policy := Policy(1, false, false, "", 0, map["mail.send" := FLOW])

  function Setting(): Config { Config(POLICY, "hash", false, None, false, (k: nat) => 0) }

  function EmptyWorld(): P.World { P.World(S.Db(map[], map[]), map[], [], []) }

  // ---- The policy is accepted ------------------------------------------------------------------

  lemma FlowDefinitions()
    ensures Definitions(FLOW.gates) == map["tell" := TELL, "ask" := ASK, "run" := RUN]
    ensures Requirements(Definitions(FLOW.gates)) == map["tell" := [], "ask" := ["tell"], "run" := ["ask"]]
  {
    var gates := FLOW.gates;
    assert DefinitionsUpTo(gates, 1) == map["tell" := TELL];
    assert DefinitionsUpTo(gates, 2) == map["tell" := TELL, "ask" := ASK];
    assert DefinitionsUpTo(gates, 3) == map["tell" := TELL, "ask" := ASK, "run" := RUN];
  }

  lemma FlowGraph()
    ensures var g := Requirements(Definitions(FLOW.gates));
            && Closed(g) && Acyclic(g)
            && Reaches(g, "ask", "tell") && Reaches(g, "run", "ask") && Reaches(g, "run", "tell")
  {
    FlowDefinitions();
    var g := Requirements(Definitions(FLOW.gates));
    EdgeReaches(g, "ask", "tell");
    EdgeReaches(g, "run", "ask");
    ReachesTransitive(g, "run", "ask", "tell");
    forall u ensures !Reaches(g, "tell", u) {
      if Reaches(g, "tell", u) { FirstStep(g, "tell", u); }
    }
    forall u | Reaches(g, "ask", u) ensures u == "tell" { FirstStep(g, "ask", u); }
    forall u | Reaches(g, "run", u) ensures u == "ask" || u == "tell" { FirstStep(g, "run", u); }
  }

  lemma FlowPaths()
    ensures var defs := Definitions(FLOW.gates);
            && "ask" in defs && ReachesKind(defs, "ask", NotifyKind)
            && ExecuteIs(FLOW, defs, "run") && ExecutePathOk(defs, "run", false)
  {
    FlowDefinitions();
    FlowGraph();
    var defs := Definitions(FLOW.gates);
    assert HasKind(defs["tell"], NotifyKind) && HasKind(defs["ask"], ApprovalKind);
    assert ReachesKind(defs, "run", NotifyKind) && ReachesKind(defs, "run", ApprovalKind);
  }

  lemma FlowAccepted()
    ensures AcceptedWorkflow(FLOW, false)
  {
    hide Reaches, ReachesKind, ExecutePathOk;
    FlowDefinitions();
    FlowGraph();
    FlowPaths();
    assert !Blank("ops") && !Blank("please look") by { assert "ops"[0] == 'o' && "please look"[0] == 'p'; }
  }

  lemma PolicyAccepted()
    ensures AcceptedPolicy(POLICY)
  {
    hide AcceptedWorkflow;
    FlowAccepted();
    assert "mail.send" in POLICY.workflows;
  }

  // ---- A request waits -----------------------------------------------------------------------------

  function ArgsFor(key: string): RequestArgs {
    RequestArgs("mail.send", map[], Obj(map[]), Obj(map[]), "alice", key, PolicyDecides)
  }

  function RequestFor(key: string): RequestId {
    RequestId(RequestBody(1, "mail.send", map[], Obj(map[]), Obj(map[]), "alice", key, PolicyDecides, Ask, Ask, FLOW))
  }

  function NoticeFor(key: string): Notice {
    Notice(Some(RequestFor(key)), Some(RequestFor(key).hash), Some("tell"), Some("ops"), Some("please look"),
      Some(key), Some(0), false)
  }

  /** The request once its notice was simulated and it waits for the approval. */
  function WaitingRequest(key: string): Request {
    Request(WaitingForApproval,
            map["tell" := GateRecord(Rehearsed, Notified(NoticeFor(key))),
                "ask" := GateRecord(Waiting, Awaiting(HumanApproveOnce, 100)),
                "run" := GateRecord(Pending, NoEvidence)],
            None, false, false, false, 0, None, None, [Fired("tell"), Satisfied("tell"), Fired("ask")])
  }

  function AfterRequest(s: State, key: string): State {
    var id := RequestFor(key);
    s.(requests := s.requests[id := WaitingRequest(key)], workflows := s.workflows[id := FLOW],
       idempotency := s.idempotency[KeyOf(id) := id], consumedNotices := s.consumedNotices + {key}, tick := s.tick + 1)
  }

  function RequestEnv(key: string): Env { Answer(NoCalls, Sends(NoticeFor(key)), Quiet) }

  lemma RequestIsLawful(key: string)
    requires key != ""
    ensures RequestProblem(Setting(), ArgsFor(key)).None? && IdFor(Setting(), ArgsFor(key)) == RequestFor(key)
  {
    assert FLOW.gates[1].body.ApprovalGate?;
  }

  lemma RequestWaits(s: State, key: string)
    requires key != "" && Key("alice", key) !in s.idempotency && RequestFor(key) !in s.active
             && key !in s.consumedNotices
    ensures RequestAction(Setting(), s, ArgsFor(key), RequestEnv(key)).state == AfterRequest(s, key)
  {
    hide Advance;
    var c, id := Setting(), RequestFor(key);
    RequestIsLawful(key);
    var admitted := Admit(c, s, id);
    AdvanceToWaiting(admitted, s, key);
    assert Advance(c, admitted, id, FLOW, 0, false, RequestEnv(key)) == Advanced(AfterRequest(s, key), false);
    assert !Terminal(AfterRequest(s, key).requests[id].state);
  }

  /** After the notice. */
  function ToldRequest(key: string): Request {
    Request(Processing,
            map["tell" := GateRecord(Rehearsed, Notified(NoticeFor(key))), "ask" := GateRecord(Pending, NoEvidence),
                "run" := GateRecord(Pending, NoEvidence)],
            None, false, false, false, 0, None, None, [Fired("tell"), Satisfied("tell")])
  }

  lemma AdvanceToWaiting(t: State, s: State, key: string)
    requires t == Admit(Setting(), s, RequestFor(key)) && RequestFor(key) !in s.active && key != ""
             && key !in s.consumedNotices
    ensures RequestFor(key) in t.requests
    ensures Advance(Setting(), t, RequestFor(key), FLOW, 0, false, RequestEnv(key))
            == Advanced(AfterRequest(s, key), false)
  {
    hide Fire, Pass, Wait;
    var c, id := Setting(), RequestFor(key);
    FlowDefinitions();
    var told := t.(requests := t.requests[id := ToldRequest(key)], consumedNotices := s.consumedNotices + {key});
    TellFires(t, s, key);
    AskFires(told, key);
    AskGateNext(told, s, key);
    assert Ready(t.requests[id], TELL);
    assert FLOW.gates[0] == TELL;
  }

  lemma TellFires(t: State, s: State, key: string)
    requires t == Admit(Setting(), s, RequestFor(key)) && RequestFor(key) !in s.active && key != ""
             && key !in s.consumedNotices
    ensures RequestFor(key) in t.requests && Ready(t.requests[RequestFor(key)], TELL)
    ensures Fire(Setting(), t, RequestFor(key), FLOW, TELL, RequestEnv(key))
            == Firing(t.(requests := t.requests[RequestFor(key) := ToldRequest(key)],
              consumedNotices := s.consumedNotices + {key}), Quiet)
  {
    var c, id := Setting(), RequestFor(key);
    FlowDefinitions();
    hide Callback, RunCalls, ConcludeIssue, ConcludeRead, ConcludeTarget, PrepareExecute, FireCondition, ResolvePath,
      Compare;
    NoCallbackCalls(c, t, id);
    assert NoticeBound(t, id, TELL, NoticeFor(key));
    assert Pass(t.requests[id].(notificationDelivered := false), "tell", Rehearsed, Notified(NoticeFor(key)))
      == ToldRequest(key);
  }

  lemma NoCallbackCalls(c: Config, t: State, id: RequestId)
    requires id !in t.active
    ensures Callback(c, t, id, NoCalls) == t
  {
    assert RunCalls(c, t.(active := t.active + {id}), NoCalls) == t.(active := t.active + {id});
    assert t.active + {id} - {id} == t.active;
  }

  lemma AskFires(told: State, key: string)
    requires RequestFor(key) in told.requests && told.requests[RequestFor(key)] == ToldRequest(key)
    ensures Ready(told.requests[RequestFor(key)], ASK)
    ensures Fire(Setting(), told, RequestFor(key), FLOW, ASK, Quiet)
            == Firing(told.(requests := told.requests[RequestFor(key) := WaitingRequest(key)]), Quiet)
  {
    assert Wait(ToldRequest(key), "ask", HumanApproveOnce, 100) == WaitingRequest(key);
  }

  lemma AskGateNext(told: State, s: State, key: string)
    requires RequestFor(key) in told.requests && told.requests[RequestFor(key)] == ToldRequest(key)
    requires told.(requests := told.requests[RequestFor(key) := WaitingRequest(key)]) == AfterRequest(s, key)
    ensures Advance(Setting(), told, RequestFor(key), FLOW, 1, true, Quiet) == Advanced(AfterRequest(s, key), false)
  {
    hide Fire;
    AskFires(told, key);
    assert FLOW.gates[1] == ASK;
  }

  // ---- The run -------------------------------------------------------------------------------------

  function EvidenceFor(key: string): ApprovalInput {
    ApprovalInput(true, Some("evidence"), Some(RequestFor(key)), Some(RequestFor(key).hash), Some("ask"), Some(50),
      Some("human:bob"), Some(Ask), Obj(map[]))
  }

  function TwoRequests(): Calls {
    More(RequestCall(ArgsFor("one"), RequestEnv("one")), More(RequestCall(ArgsFor("two"), RequestEnv("two")), NoCalls))
  }

  ghost function TwoWaiting(): State { AfterRequest(AfterRequest(Initial(EmptyWorld()), "one"), "two") }

  lemma BothWait()
    ensures Reached(Setting(), EmptyWorld(), TwoRequests()) == TwoWaiting()
  {
    hide RequestAction, AfterRequest;
    var c, s := Setting(), Initial(EmptyWorld());
    RequestWaits(s, "one");
    var t := AfterRequest(s, "one");
    OtherKeyFree(s);
    RequestWaits(t, "two");
    assert RunCall(c, s, RequestCall(ArgsFor("one"), RequestEnv("one"))) == t;
    var rest := More(RequestCall(ArgsFor("two"), RequestEnv("two")), NoCalls);
    assert RunCalls(c, s, TwoRequests()) == RunCalls(c, t, rest);
    assert RunCall(c, t, RequestCall(ArgsFor("two"), RequestEnv("two"))) == AfterRequest(t, "two");
    assert RunCalls(c, t, rest) == RunCalls(c, AfterRequest(t, "two"), NoCalls);
  }

  lemma OtherKeyFree(s: State)
    requires s == Initial(EmptyWorld())
    ensures var t := AfterRequest(s, "one");
            Key("alice", "two") !in t.idempotency && RequestFor("two") !in t.active && "two" !in t.consumedNotices
  {
    assert "one"[0] == 'o' && "two"[0] == 't';
  }

  lemma EvidencePasses(s: State, key: string)
    requires RequestFor(key) !in s.active && RequestFor(key) in s.requests && RequestFor(key) in s.workflows
    requires s.requests[RequestFor(key)] == WaitingRequest(key) && s.workflows[RequestFor(key)] == FLOW
             && s.consumedApprovals == {}
    ensures EvidenceProblem(Setting(), s, RequestFor(key), EvidenceFor(key)).None?
  {
    var r := WaitingRequest(key);
    assert FLOW.gates[1] == ASK && FLOW.gates[0] == TELL;
    assert WaitingGate(FLOW.gates, r, 1) == Some(ASK);
    assert WaitingGate(FLOW.gates, r, 0) == Some(ASK);
  }

  /** The run: two requests wait; the verifier asked about the first ingests the same evidence
      for the second. Both gates are then approved on it. */
  lemma OneEvidenceApprovesTwoRequests()
    ensures var world, own := EmptyWorld(), AllKeys;
            var inner := Answer(NoCalls, Trusts(true), Quiet);
            var nested := More(IngestCall(RequestFor("two"), EvidenceFor("two"), inner), NoCalls);
            var env := Answer(nested, Trusts(true), Quiet);
            && Legal(Setting(), world, own, TwoRequests())
            && !UsedOnce(IngestApproval(Setting(), Reached(Setting(), world, TwoRequests()), RequestFor("one"),
                 EvidenceFor("one"), env).state)
  {
    hide Reached, UsedOnce, IngestApproval, EvidenceProblem, AcceptedPolicy, CallsWithin;
    PolicyAccepted();
    FreshStoreJoins(EmptyWorld(), TwoRequests());
    BothWait();
    var s := TwoWaiting();
    WaitingBoth();
    EvidencePasses(s, "one");
    EvidencePasses(s.(tick := s.tick + 2, active := s.active + {RequestFor("one")}), "two");
    ReentrantVerifierBreaksSingleUse(Setting(), EmptyWorld(), AllKeys, TwoRequests(), RequestFor("one"),
      EvidenceFor("one"), RequestFor("two"), EvidenceFor("two"));
  }

  lemma WaitingBoth()
    ensures var s := TwoWaiting();
            && RequestFor("one") != RequestFor("two") && s.active == {} && s.consumedApprovals == {}
            && (forall key | key in {"one", "two"} ::
                  && RequestFor(key) in s.requests && RequestFor(key) in s.workflows
                  && s.requests[RequestFor(key)] == WaitingRequest(key) && s.workflows[RequestFor(key)] == FLOW)
  {
    assert "one"[0] == 'o' && "two"[0] == 't';
    assert RequestFor("one").hash.idempotencyKey != RequestFor("two").hash.idempotencyKey;
  }
}
