/** That the steps of the whole system leave nothing out: what an engine, a broker, an operator
    or a controller's ledger does by itself is one of them, or a few in a row. */
module SystemCoverage {
  import opened Policies
  import opened Claims
  import opened GateEngine
  import opened EngineSafety
  import opened Ledgers
  import opened EndToEnd
  import S = AuthorizationStore
  import T = EngineTheorems
  import P = ConsumptionProtocol

  // ---- Engines ----------------------------------------------------------------------------------

  /** A started engine knows nothing but the store. */
  lemma EnginesStart(sys: System, i: nat, config: Config)
    requires i !in sys.engines && AcceptedPolicy(config.policy)
    ensures var t := Apply(sys, StartEngine(i, config));
            && i in t.engines && t.engines[i].config == config && t.engines[i].keys == {}
            && t.engines[i].state == State(map[], map[], map[], {}, {}, {}, 0, sys.world, [], [])
            && t == sys.(engines := t.engines) && t.engines == sys.engines[i := t.engines[i]]
  {
  }

  /** Nothing but engine `i` and the shared store has moved. */
  ghost predicate OnlyEngineMoved(sys: System, t: System, i: nat, u: State) {
    && i in sys.engines && t == sys.(engines := t.engines, world := u.world)
    && t.engines == sys.engines[i := Engine(sys.engines[i].config, u, sys.engines[i].keys)]
  }

  /** Any cancellation or ingestion by any engine, its callbacks and their store calls included. */
  lemma EngineCallsAreSteps(sys: System, i: nat, call: Call) returns (step: Step)
    requires i in sys.engines && (call.CancelCall? || call.IngestCall?) && CallWithin(call, Own(sys.engines[i]))
    ensures OnlyEngineMoved(sys, Apply(sys, step), i,
              RunCall(sys.engines[i].config, sys.engines[i].state.(world := sys.world), call))
  {
    hide GateEngine.CancelRequest, GateEngine.IngestApproval;
    match call
    case CancelCall(id, requester, fate) => step := CancelAt(i, id, requester, fate);
    case IngestCall(id, evidence, env) => step := IngestAt(i, id, evidence, env);
  }

  // ---- The store -----------------------------------------------------------------------------------

  /** Any run of brokers and operators. */
  lemma {:induction false} StoreRunsAreSteps(sys: System, steps: seq<P.Step>) returns (mine: seq<Step>)
    requires forall i | 0 <= i < |steps| :: !steps[i].Record?
    ensures Execute(sys, mine) == sys.(world := P.Execute(sys.world, steps))
    decreases |steps|
  {
    hide P.Apply;
    if steps == [] {
      mine := [];
    } else {
      var first := StoreStep(steps[0]);
      var rest := StoreRunsAreSteps(Apply(sys, first), steps[1..]);
      mine := [first] + rest;
      assert mine[1..] == rest;
    }
  }

  // ---- Controllers ------------------------------------------------------------------------------------

  /** Any write to the request table of the ledger. */
  lemma LedgerWritesAreSteps(sys: System, call: LedgerCall) returns (step: Step)
    requires call.SwapRow? || call.WriteRow?
    ensures var tables := Enact(Tables(sys.bindings, sys.world.db.requests), call);
            && tables.bindings == sys.bindings
            && Apply(sys, step) == sys.(world := sys.world.(db := S.Db(sys.world.db.rows, tables.requests)))
  {
    match call
    case SwapRow(expected, replacement) => step := SwapLedger(expected, replacement);
    case WriteRow(s) => step := WriteLedger(s);
  }

  /** A controller that calls its engine from inside a callback: the key is reserved, and from
      then on this engine's callbacks may submit it. */
  lemma NestedCallsStart(sys: System, n: nat, i: nat, args: RequestArgs)
    requires i in sys.engines && n !in sys.submissions
    requires args.requester != "" && args.key != "" && Key(args.requester, args.key) !in sys.bindings
    ensures var t, key := Execute(sys, [ReserveFor(n, i, args), EnterNested(n)]), Key(args.requester, args.key);
            && n in t.submissions && t.submissions[n] == Submission(i, args, Nested)
            && key in t.bindings && t.bindings[key] == Reserved(FingerprintOf(args))
            && i in t.engines && t.engines[i].keys == sys.engines[i].keys + {key}
            && t.submitted == sys.submitted + [key]
  {
    hide GateEngine.CancelRequest, GateEngine.IngestApproval, GateEngine.RequestAction, P.Apply;
    var steps := [ReserveFor(n, i, args), EnterNested(n)];
    var first := Apply(sys, steps[0]);
    var second := Apply(first, steps[1]);
    assert steps[1..] == [steps[1]] && [steps[1]][1..] == [];
    assert Execute(sys, steps) == Execute(first, [steps[1]]) == Execute(second, []);
  }

  /** Once the engine holds the request submitted, the controller completes with its snapshot. */
  lemma NestedCallsComplete(sys: System, n: nat, snapshot: S.Snapshot)
    requires SystemOk(sys) && n in sys.submissions && sys.submissions[n].stage.Nested?
    requires var sub := sys.submissions[n];
             var e := sys.engines[sub.engine];
             && snapshot.requestId in e.state.requests && T.AsAsked(e.config, snapshot.requestId, sub.args)
    requires snapshot.requestId !in sys.world.db.requests
    ensures var t, args := Execute(sys, [ReturnNested(n, snapshot), CompleteRequest(n)]), sys.submissions[n].args;
            var key := Key(args.requester, args.key);
            && n in t.submissions && t.submissions[n].stage.Over?
            && key in t.bindings && t.bindings[key] == Bound(FingerprintOf(args), snapshot.requestId)
            && t.world.db == S.Db(sys.world.db.rows, sys.world.db.requests[snapshot.requestId := snapshot])
  {
    hide SystemOk, GateEngine.CancelRequest, GateEngine.IngestApproval, GateEngine.RequestAction, P.Apply, NestedAnswer,
      T.AsAsked;
    var steps := [ReturnNested(n, snapshot), CompleteRequest(n)];
    NestedIsAnswered(sys, n, snapshot);
    var first := Apply(sys, steps[0]);
    assert first == Returned(sys, n, snapshot);
    NestedIsReserved(sys, n);
    var second := Apply(first, steps[1]);
    assert steps[1..] == [steps[1]] && [steps[1]][1..] == [];
    assert Execute(sys, steps) == Execute(first, [steps[1]]) == Execute(second, []);
  }

  lemma NestedIsReserved(sys: System, n: nat)
    requires SystemOk(sys) && n in sys.submissions && sys.submissions[n].stage.Nested?
    ensures var args := sys.submissions[n].args;
            && KeyFor(args) in sys.bindings && sys.bindings[KeyFor(args)] == Reserved(FingerprintOf(args))
  {
    hide EnginesOk, WorldOk, KeysOk, LedgerOk;
  }

  lemma NestedIsAnswered(sys: System, n: nat, snapshot: S.Snapshot)
    requires SystemOk(sys) && n in sys.submissions && sys.submissions[n].stage.Nested?
    requires var sub := sys.submissions[n];
             var e := sys.engines[sub.engine];
             && snapshot.requestId in e.state.requests && T.AsAsked(e.config, snapshot.requestId, sub.args)
    ensures NestedAnswer(sys, n, snapshot)
  {
    hide WorldOk, KeysOk, LedgerOk, Ok, T.AsAsked;
    var sub := sys.submissions[n];
    var e := sys.engines[sub.engine];
    assert EngineOk(e, sys.world);
    T.HeldIsAsked(e.config, With(e, sys.world), Own(e), {}, sub.args, snapshot.requestId);
  }

  /** A controller may stop anywhere after its reservation; the reservation stays. */
  lemma ControllersMayStop(sys: System, n: nat)
    requires n in sys.submissions
    ensures var t := Apply(sys, AbandonRequest(n));
            && t.bindings == sys.bindings && t.world == sys.world && t.engines == sys.engines
            && t.submissions == sys.submissions[n := t.submissions[n]] && t.submissions[n].stage.Over?
  {
  }
}
