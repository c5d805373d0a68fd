/** The whole system as one step system: controllers over one ledger, any number of engines
    (a restarted engine is a new one), brokers and operators over one authorization store,
    crashes anywhere. The result: the target of one (principal, idempotency key) runs at most
    once, whatever the interleaving. */
module EndToEnd {
  import opened Policies
  import opened Claims
  import opened GateEngine
  import opened RequestLifecycle
  import opened EngineSafety
  import opened Ledgers
  import S = AuthorizationStore
  import T = EngineTheorems
  import P = ConsumptionProtocol

  /** `keys` are the keys whose reservation sent them to this engine. The engine's own `world`
      is replaced by the shared one at every call. */
  datatype Engine = Engine(config: Config, state: State, keys: set<Key>)

  /** A controller's request, from its reservation on; `Nested` when it calls its engine from
      inside a callback of that engine. */
  datatype Stage = Holding | Nested | Answered(snapshot: S.Snapshot) | Over

  datatype Submission = Submission(engine: nat, args: RequestArgs, stage: Stage)

  /** `submitted` is history: the keys the backend was called for. */
  datatype System = System(
    bindings: Bindings, world: P.World, engines: map<nat, Engine>, submissions: map<nat, Submission>,
    submitted: seq<Key>)

  datatype Step =
    | StartEngine(engine: nat, config: Config)
    | ReserveFor(n: nat, engine: nat, args: RequestArgs)
    | CallBackend(n: nat, env: Env, at: int)
    | EnterNested(n: nat)
    | ReturnNested(n: nat, snapshot: S.Snapshot)
    | CompleteRequest(n: nat)
    | AbandonRequest(n: nat)
    | CancelAt(engine: nat, id: RequestId, requester: string, fate: Fate)
    | IngestAt(engine: nat, id: RequestId, evidence: ApprovalInput, env: Env)
    | StoreStep(step: P.Step)
    | WriteLedger(snapshot: S.Snapshot)
    | SwapLedger(expected: S.Snapshot, replacement: S.Snapshot)

  function KeyFor(args: RequestArgs): Key { Key(args.requester, args.key) }

  function FingerprintOf(args: RequestArgs): Fingerprint {
    Fingerprint(args.action, args.parameters, args.context, args.key, args.floor, args.trustedContext)
  }

  function Own(e: Engine): iset<Key> { iset k | k in e.keys }

  function With(e: Engine, world: P.World): State { e.state.(world := world) }

  function WithRequests(w: P.World, requests: Snapshots): P.World { w.(db := w.db.(requests := requests)) }

  /** Engine `i` has moved to `s`. */
  function Moved(sys: System, i: nat, s: State): System
    requires i in sys.engines
  {
    sys.(engines := sys.engines[i := sys.engines[i].(state := s)], world := s.world)
  }

  /** Submission `n` holds its reservation and has not called its engine. */
  predicate HasTurn(sys: System, n: nat) {
    n in sys.submissions && sys.submissions[n].stage.Holding? && sys.submissions[n].engine in sys.engines
  }

  ghost predicate Callable(sys: System, n: nat, env: Env) {
    && HasTurn(sys, n)
    && EnvWithin(env, Own(sys.engines[sys.submissions[n].engine]) + iset{KeyFor(sys.submissions[n].args)})
  }

  ghost function Submitted(sys: System, n: nat, env: Env, at: int): System
    requires n in sys.submissions && sys.submissions[n].engine in sys.engines
  {
    var sub := sys.submissions[n];
    var e := sys.engines[sub.engine];
    var res := RequestAction(e.config, With(e, sys.world), sub.args, env);
    var stage :=
      if res.response.Accepts? && res.response.id in res.state.requests then
        Answered(SnapshotOf(res.response.id, res.state.requests[res.response.id]).(updatedAt := at))
      else Over;
    sys.(engines := sys.engines[sub.engine := Engine(e.config, res.state, e.keys + {KeyFor(sub.args)})],
         world := res.state.world,
         submissions := sys.submissions[n := sub.(stage := stage)],
         submitted := sys.submitted + [KeyFor(sub.args)])
  }

  /** The engine may answer for the key from here on: its next callbacks make the call. */
  function Entered(sys: System, n: nat): System
    requires n in sys.submissions && sys.submissions[n].engine in sys.engines
  {
    var sub := sys.submissions[n];
    var e := sys.engines[sub.engine];
    sys.(engines := sys.engines[sub.engine := Engine(e.config, With(e, sys.world), e.keys + {KeyFor(sub.args)})],
         submissions := sys.submissions[n := sub.(stage := Nested)],
         submitted := sys.submitted + [KeyFor(sub.args)])
  }

  /** The nested call has been made and accepted; the snapshot is the request's at some moment of it. */
  predicate NestedAnswer(sys: System, n: nat, snapshot: S.Snapshot) {
    && n in sys.submissions && sys.submissions[n].stage.Nested? && sys.submissions[n].engine in sys.engines
    && var sub, e := sys.submissions[n], sys.engines[sys.submissions[n].engine];
       && RequestProblem(e.config, sub.args).None? && KeyFor(sub.args) in e.state.idempotency
       && e.state.idempotency[KeyFor(sub.args)] == IdFor(e.config, sub.args) == snapshot.requestId
  }

  function Returned(sys: System, n: nat, snapshot: S.Snapshot): System
    requires n in sys.submissions
  {
    sys.(submissions := sys.submissions[n := sys.submissions[n].(stage := Answered(snapshot))])
  }

  function Completed(sys: System, n: nat): System
    requires n in sys.submissions && sys.submissions[n].stage.Answered?
  {
    var sub := sys.submissions[n];
    var (bindings, requests) :=
      WithCompletion(sys.bindings, sys.world.db.requests, KeyFor(sub.args), FingerprintOf(sub.args),
        sub.stage.snapshot);
    sys.(bindings := bindings, world := WithRequests(sys.world, requests),
      submissions := sys.submissions[n := sub.(stage := Over)])
  }

  function WithSubmission(sys: System, n: nat, i: nat, args: RequestArgs): System {
    sys.(bindings := sys.bindings[KeyFor(args) := Reserved(FingerprintOf(args))],
         submissions := sys.submissions[n := Submission(i, args, Holding)])
  }

  function Abandoned(sys: System, n: nat): System
    requires n in sys.submissions
  {
    sys.(submissions := sys.submissions[n := sys.submissions[n].(stage := Over)])
  }

  /** A step that is not enabled changes nothing. */
  ghost function Apply(sys: System, step: Step): System {
    match step
    case StartEngine(i, config) =>
      if i in sys.engines || !AcceptedPolicy(config.policy) then sys
      else sys.(engines := sys.engines[i := Engine(config, Initial(sys.world), {})])
    case ReserveFor(n, i, args) =>
      if n in sys.submissions || i !in sys.engines
         || !Reservable(sys.bindings, KeyFor(args), FingerprintOf(args)).Fresh? then sys
      else WithSubmission(sys, n, i, args)
    case CallBackend(n, env, at) =>
      if Callable(sys, n, env) then Submitted(sys, n, env, at) else sys
    case EnterNested(n) =>
      if HasTurn(sys, n) then Entered(sys, n) else sys
    case ReturnNested(n, snapshot) =>
      if NestedAnswer(sys, n, snapshot) then Returned(sys, n, snapshot) else sys
    case CompleteRequest(n) =>
      if n in sys.submissions && sys.submissions[n].stage.Answered? then Completed(sys, n) else sys
    case AbandonRequest(n) =>
      if n in sys.submissions then Abandoned(sys, n) else sys
    case CancelAt(i, id, requester, fate) =>
      if i !in sys.engines then sys
      else
        var e := sys.engines[i];
        Moved(sys, i, CancelRequest(e.config, With(e, sys.world), id, requester, fate).state)
    case IngestAt(i, id, evidence, env) =>
      if i !in sys.engines || !EnvWithin(env, Own(sys.engines[i])) then sys
      else
        var e := sys.engines[i];
        Moved(sys, i, IngestApproval(e.config, With(e, sys.world), id, evidence, env).state)
    case StoreStep(step) =>
      if step.Record? then sys else sys.(world := P.Apply(sys.world, step))
    case WriteLedger(s) => sys.(world := WithRequests(sys.world, sys.world.db.requests[s.requestId := s]))
    case SwapLedger(expected, replacement) =>
      sys.(world := WithRequests(sys.world, Swapped(sys.world.db.requests, expected, replacement)))
  }

  ghost function Execute(sys: System, steps: seq<Step>): System
    decreases |steps|
  {
    if steps == [] then sys else Execute(Apply(sys, steps[0]), steps[1..])
  }

  function Empty(): System {
    System(map[], P.World(S.Db(map[], map[]), map[], [], []), map[], map[], [])
  }

  // ---- Invariant -----------------------------------------------------------------------------

  ghost predicate EngineOk(e: Engine, world: P.World) {
    e.state.active == {} && Ok(e.config, With(e, world), Own(e), {})
  }

  ghost predicate EnginesOk(engines: map<nat, Engine>, world: P.World) {
    && (forall i | i in engines :: EngineOk(engines[i], world))
    && (forall i, j, k | i in engines && j in engines && k in engines[i].keys && k in engines[j].keys :: i == j)
  }

  predicate Owned(engines: map<nat, Engine>, k: Key) {
    exists i | i in engines :: k in engines[i].keys
  }

  ghost predicate WorldOk(engines: map<nat, Engine>, world: P.World) {
    && P.Consistent(world)
    && forall a | a in world.db.rows ::
         RowNamed(a, world.db.rows[a]) && Owned(engines, KeyOf(world.db.rows[a].requestId))
  }

  /** A controller past its reservation still holds it, alone, and not yet used. */
  ghost predicate SubmissionsOk(sys: System) {
    && (forall n | n in sys.submissions && !sys.submissions[n].stage.Over? ::
          && sys.submissions[n].engine in sys.engines
          && KeyFor(sys.submissions[n].args) in sys.bindings
          && sys.bindings[KeyFor(sys.submissions[n].args)] == Reserved(FingerprintOf(sys.submissions[n].args)))
    && (forall n, m | n in sys.submissions && m in sys.submissions
                      && !sys.submissions[n].stage.Over? && !sys.submissions[m].stage.Over?
                      && KeyFor(sys.submissions[n].args) == KeyFor(sys.submissions[m].args) :: n == m)
    && (forall n | n in sys.submissions && sys.submissions[n].stage.Holding? ::
           !Owned(sys.engines, KeyFor(sys.submissions[n].args)))
    && (forall n | n in sys.submissions && sys.submissions[n].stage.Answered? ::
          KeyOf(sys.submissions[n].stage.snapshot.requestId) == KeyFor(sys.submissions[n].args))
  }

  ghost predicate KeysOk(sys: System) {
    && (forall i, k | i in sys.engines && k in sys.engines[i].keys :: k in sys.bindings)
    && (forall j | 0 <= j < |sys.submitted| :: Owned(sys.engines, sys.submitted[j]))
    && (forall i, j | 0 <= i < j < |sys.submitted| :: sys.submitted[i] != sys.submitted[j])
  }

  ghost predicate LedgerOk(sys: System) {
    forall k | k in sys.bindings && sys.bindings[k].Bound? ::
      sys.bindings[k].id in sys.world.db.requests && KeyOf(sys.bindings[k].id) == k
  }

  ghost predicate SystemOk(sys: System) {
    EnginesOk(sys.engines, sys.world) && WorldOk(sys.engines, sys.world) && SubmissionsOk(sys) && KeysOk(sys)
      && LedgerOk(sys)
  }

  // ---- Each step keeps it ---------------------------------------------------------------------

  /** What another party may do to the store without disturbing an engine. */
  ghost predicate StoreGrows(before: P.World, after: P.World, own: iset<Key>) {
    && P.Consistent(after)
    && (forall a | a in before.db.rows :: a in after.db.rows && RowCarried(before.db.rows[a], after.db.rows[a]))
    && (forall a | a in after.db.rows && a !in before.db.rows ::
          RowNamed(a, after.db.rows[a]) && KeyOf(after.db.rows[a].requestId) !in own)
  }

  lemma OthersRows(c: Config, requests: Requests, before: P.World, after: P.World, own: iset<Key>)
    requires RowsOk(c, requests, before.db.rows, own) && StoreGrows(before, after, own)
    ensures RowsOk(c, requests, after.db.rows, own)
  {
    hide TokenBinds, P.Consistent;
    var old', new' := before.db.rows, after.db.rows;
    forall a | a in new' ensures RowNamed(a, new'[a]) {
      if a in old' { assert RowNamed(a, old'[a]) && RowCarried(old'[a], new'[a]); }
    }
    forall a | a in new' && KeyOf(new'[a].requestId) in own
      ensures a in old' && new'[a].requestId in requests && RowMatches(c, requests[new'[a].requestId], a, new'[a])
              && TokenBinds(c, new'[a].requestId, requests[new'[a].requestId], new'[a].token.claims)
    {
      assert RowCarried(old'[a], new'[a]);
      assert RowMatches(c, requests[old'[a].requestId], a, old'[a]);
    }
    forall id | id in requests && requests[id].state.Authorized? ensures Recorded(requests[id], id, new') {
      assert Recorded(requests[id], id, old');
    }
  }

  lemma OthersOk(e: Engine, before: P.World, after: P.World)
    requires EngineOk(e, before) && StoreGrows(before, after, Own(e))
    ensures EngineOk(e, after)
  {
    hide RequestsOk, IndexOk, RowsOk, CallsOk, P.Consistent, AcceptedPolicy;
    OthersRows(e.config, e.state.requests, before, after, Own(e));
  }

  lemma GrowOwn(c: Config, s: State, own: iset<Key>, k: Key)
    requires Ok(c, s, own, {}) && forall a | a in s.world.db.rows :: KeyOf(s.world.db.rows[a].requestId) != k
    ensures Ok(c, s, own + iset{k}, {})
  {
    hide IndexOk, CallsOk, P.Consistent, AcceptedPolicy, RequestOk, TokenBinds, RowMatches;
  }

  /** Engine `i` runs an operation that ends in `t`. */
  ghost predicate Ran(sys: System, i: nat, keys: set<Key>, t: State) {
    && i in sys.engines && sys.engines[i].keys <= keys
    && EngineOk(Engine(sys.engines[i].config, t, keys), t.world)
    && StoreCarried(sys.world.db, t.world.db, t.requests)
    && forall j, k | j in sys.engines && j != i && k in keys :: k !in sys.engines[j].keys
  }

  lemma EngineRan(sys: System, i: nat, keys: set<Key>, t: State)
    requires EnginesOk(sys.engines, sys.world) && WorldOk(sys.engines, sys.world) && Ran(sys, i, keys, t)
    ensures var engines := sys.engines[i := Engine(sys.engines[i].config, t, keys)];
            EnginesOk(engines, t.world) && WorldOk(engines, t.world)
  {
    hide EngineOk, P.Consistent, StoreCarried;
    var e' := Engine(sys.engines[i].config, t, keys);
    var engines := sys.engines[i := e'];
    RanRows(sys, i, keys, t);
    forall j | j in sys.engines && j != i ensures EngineOk(sys.engines[j], t.world) {
      assert forall a | a in t.world.db.rows && a !in sys.world.db.rows ::
        KeyOf(t.world.db.rows[a].requestId) !in Own(sys.engines[j]);
      RanGrows(sys, i, keys, t, sys.engines[j]);
      OthersOk(sys.engines[j], sys.world, t.world);
    }
    forall a | a in t.world.db.rows ensures Owned(engines, KeyOf(t.world.db.rows[a].requestId)) {
      var k := KeyOf(t.world.db.rows[a].requestId);
      if k in keys {
        assert k in engines[i].keys;
      } else {
        assert Owned(sys.engines, k);
        var j :| j in sys.engines && k in sys.engines[j].keys;
        assert k in engines[j].keys;
      }
    }
  }

  /** The rows after an engine's operation: the old ones, and new ones for its own keys. */
  lemma RanRows(sys: System, i: nat, keys: set<Key>, t: State)
    requires WorldOk(sys.engines, sys.world) && Ran(sys, i, keys, t)
    ensures P.Consistent(t.world)
    ensures forall a | a in t.world.db.rows :: RowNamed(a, t.world.db.rows[a])
    ensures forall a | a in t.world.db.rows && a !in sys.world.db.rows :: KeyOf(t.world.db.rows[a].requestId) in keys
    ensures forall a | a in t.world.db.rows && a in sys.world.db.rows ::
              Owned(sys.engines, KeyOf(t.world.db.rows[a].requestId))
  {
    hide P.Consistent, IndexOk, CallsOk, RequestOk, AcceptedPolicy, Owned, RowMatches, TokenBinds;
    forall a | a in t.world.db.rows && a in sys.world.db.rows
      ensures Owned(sys.engines, KeyOf(t.world.db.rows[a].requestId))
    {
      assert RowCarried(sys.world.db.rows[a], t.world.db.rows[a]);
    }
  }

  lemma RanGrows(sys: System, i: nat, keys: set<Key>, t: State, other: Engine)
    requires StoreCarried(sys.world.db, t.world.db, t.requests) && P.Consistent(t.world)
    requires forall a | a in t.world.db.rows :: RowNamed(a, t.world.db.rows[a])
    requires forall a | a in t.world.db.rows && a !in sys.world.db.rows ::
               KeyOf(t.world.db.rows[a].requestId) !in Own(other)
    ensures StoreGrows(sys.world, t.world, Own(other))
  {
    hide P.Consistent;
  }

  /** The store moves by itself: rows are carried, none appears. */
  lemma StoreMoved(sys: System, after: P.World)
    requires EnginesOk(sys.engines, sys.world) && WorldOk(sys.engines, sys.world)
    requires P.Consistent(after) && RowsCarried(sys.world.db.rows, after.db.rows)
    ensures EnginesOk(sys.engines, after) && WorldOk(sys.engines, after)
  {
    hide EngineOk, P.Consistent, Owned;
    forall i | i in sys.engines ensures EngineOk(sys.engines[i], after) {
      OthersOk(sys.engines[i], sys.world, after);
    }
    forall a | a in after.db.rows
      ensures RowNamed(a, after.db.rows[a]) && Owned(sys.engines, KeyOf(after.db.rows[a].requestId))
    {
      assert RowCarried(sys.world.db.rows[a], after.db.rows[a]) && RowNamed(a, sys.world.db.rows[a]);
    }
  }

  /** Writing the ledger's request table concerns no engine and no broker. */
  lemma LedgerWritten(sys: System, requests: Snapshots)
    requires EnginesOk(sys.engines, sys.world) && WorldOk(sys.engines, sys.world)
    ensures var after := WithRequests(sys.world, requests); EnginesOk(sys.engines, after) && WorldOk(sys.engines, after)
  {
    hide EnginesOk, P.RunOk, P.OneHolder, P.DispatchOk;
    var after := WithRequests(sys.world, requests);
    WriteIsHarmless(sys.world.db, requests);
    P.DatabaseStep(sys.world, after);
    StoreMoved(sys, after);
  }

  lemma WriteIsHarmless(db: S.Db, requests: Snapshots)
    requires S.IssuedUnclaimed(db)
    ensures P.Harmless(db, db.(requests := requests))
  {
  }

  /** With the bindings and submissions untouched and no key more, only the ledger rows count. */
  lemma SameSubmissions(sys: System, after: System)
    requires SubmissionsOk(sys) && KeysOk(sys) && LedgerOk(sys)
    requires after.bindings == sys.bindings && after.submissions == sys.submissions && after.submitted == sys.submitted
    requires sys.engines.Keys <= after.engines.Keys
    requires forall i | i in after.engines ::
               after.engines[i].keys == if i in sys.engines then sys.engines[i].keys else {}
    requires forall id | id in sys.world.db.requests :: id in after.world.db.requests
    ensures SubmissionsOk(after) && KeysOk(after) && LedgerOk(after)
  {
    forall k ensures Owned(after.engines, k) <==> Owned(sys.engines, k) {
      if Owned(after.engines, k) {
        var i :| i in after.engines && k in after.engines[i].keys;
        assert k in sys.engines[i].keys;
      }
      if Owned(sys.engines, k) {
        var i :| i in sys.engines && k in sys.engines[i].keys;
        assert k in after.engines[i].keys;
      }
    }
  }

  lemma OwnIs(e: Engine, s: State)
    ensures Own(e.(state := s)) == Own(e)
  {
    assert e.(state := s).keys == e.keys;
  }

  /** A public call on engine `i` that adds no key. */
  lemma MovedOk(sys: System, i: nat, t: State)
    requires SystemOk(sys) && i in sys.engines
    requires Ok(sys.engines[i].config, t, Own(sys.engines[i]), {}) && t.active == {}
    requires StoreCarried(sys.world.db, t.world.db, t.requests)
    ensures SystemOk(Moved(sys, i, t))
  {
    hide Ok, WorldOk, SubmissionsOk, KeysOk, LedgerOk;
    var e := sys.engines[i];
    OwnIs(e, t);
    assert With(e.(state := t), t.world) == t;
    assert Engine(e.config, t, e.keys) == e.(state := t);
    EngineRan(sys, i, e.keys, t);
    SameSubmissions(sys, Moved(sys, i, t));
  }

  lemma CancelAtOk(sys: System, i: nat, id: RequestId, requester: string, fate: Fate)
    requires SystemOk(sys)
    ensures SystemOk(Apply(sys, CancelAt(i, id, requester, fate)))
  {
    hide Ok, StoreCarried, WorldOk, SubmissionsOk, KeysOk, LedgerOk, CancelRequest;
    if i in sys.engines {
      var e := sys.engines[i];
      assert EngineOk(e, sys.world);
      CancelOk(e.config, With(e, sys.world), Own(e), id, requester, fate);
      MovedOk(sys, i, CancelRequest(e.config, With(e, sys.world), id, requester, fate).state);
    }
  }

  lemma IngestAtOk(sys: System, i: nat, id: RequestId, evidence: ApprovalInput, env: Env)
    requires SystemOk(sys)
    ensures SystemOk(Apply(sys, IngestAt(i, id, evidence, env)))
  {
    hide Ok, StoreCarried, WorldOk, SubmissionsOk, KeysOk, LedgerOk, IngestApproval;
    if i in sys.engines && EnvWithin(env, Own(sys.engines[i])) {
      var e := sys.engines[i];
      assert EngineOk(e, sys.world);
      IngestOk(e.config, With(e, sys.world), Own(e), id, evidence, env);
      MovedOk(sys, i, IngestApproval(e.config, With(e, sys.world), id, evidence, env).state);
    }
  }

  lemma StartEngineOk(sys: System, i: nat, config: Config)
    requires SystemOk(sys)
    ensures SystemOk(Apply(sys, StartEngine(i, config)))
  {
    hide Ok, SubmissionsOk, KeysOk, LedgerOk, P.Consistent, AcceptedPolicy;
    if i !in sys.engines && AcceptedPolicy(config.policy) {
      var e := Engine(config, Initial(sys.world), {});
      StartsOk(config, sys.world, Own(e));
      assert With(e, sys.world) == Initial(sys.world);
      var after := Apply(sys, StartEngine(i, config));
      forall k | Owned(sys.engines, k) ensures Owned(after.engines, k) {
        var j :| j in sys.engines && k in sys.engines[j].keys;
        assert k in after.engines[j].keys;
      }
      SameSubmissions(sys, after);
    }
  }

  lemma StoreStepOk(sys: System, step: P.Step)
    requires SystemOk(sys)
    ensures SystemOk(Apply(sys, StoreStep(step)))
  {
    hide EnginesOk, SubmissionsOk, KeysOk, LedgerOk, P.Consistent, P.Apply, RowsCarried;
    if !step.Record? {
      P.ApplyKeepsConsistent(sys.world, step);
      StepCarriesRows(sys.world, step);
      StoreMoved(sys, P.Apply(sys.world, step));
      SameSubmissions(sys, Apply(sys, StoreStep(step)));
    }
  }

  lemma LedgerStepOk(sys: System, requests: Snapshots)
    requires SystemOk(sys) && forall id | id in sys.world.db.requests :: id in requests
    ensures SystemOk(sys.(world := WithRequests(sys.world, requests)))
  {
    hide EnginesOk, WorldOk, SubmissionsOk, KeysOk, LedgerOk;
    LedgerWritten(sys, requests);
    SameSubmissions(sys, sys.(world := WithRequests(sys.world, requests)));
  }

  lemma ReserveOk(sys: System, n: nat, i: nat, args: RequestArgs)
    requires SystemOk(sys) && n !in sys.submissions && i in sys.engines
    requires Reservable(sys.bindings, KeyFor(args), FingerprintOf(args)).Fresh?
    ensures SystemOk(WithSubmission(sys, n, i, args))
  {
    hide EnginesOk, WorldOk;
    assert !Owned(sys.engines, KeyFor(args));
  }

  lemma AbandonOk(sys: System, n: nat)
    requires SystemOk(sys) && n in sys.submissions
    ensures SystemOk(Abandoned(sys, n))
  {
    hide EnginesOk, WorldOk;
  }

  lemma CompleteOk(sys: System, n: nat)
    requires SystemOk(sys) && n in sys.submissions && sys.submissions[n].stage.Answered?
    ensures SystemOk(Completed(sys, n))
  {
    hide EnginesOk, WorldOk;
    LedgerWritten(sys, Completed(sys, n).world.db.requests);
  }

  lemma AcceptsOwnKey(c: Config, s: State, args: RequestArgs, env: Env)
    ensures var res := RequestAction(c, s, args, env); res.response.Accepts? ==> KeyOf(res.response.id) == KeyFor(args)
  {
    hide Advance, RequestProblem;
  }

  lemma CallBackendOk(sys: System, n: nat, env: Env, at: int)
    requires SystemOk(sys)
    ensures SystemOk(Apply(sys, CallBackend(n, env, at)))
  {
    hide Ok, EnginesOk, WorldOk, SubmissionsOk, KeysOk, LedgerOk, RequestAction;
    if Apply(sys, CallBackend(n, env, at)) != sys {
      BackendRan(sys, n, env, at);
      var sub := sys.submissions[n];
      EngineRan(sys, sub.engine, sys.engines[sub.engine].keys + {KeyFor(sub.args)},
        Submitted(sys, n, env, at).engines[sub.engine].state);
      BackendUses(sys, n, env, at);
      UsedUpKeeps(sys, n, Submitted(sys, n, env, at));
    }
  }

  /** The key is nobody's yet, so the engine may answer for it. */
  lemma BackendRan(sys: System, n: nat, env: Env, at: int)
    requires SystemOk(sys) && Callable(sys, n, env)
    ensures var sub := sys.submissions[n];
            var e := sys.engines[sub.engine];
            var t := RequestAction(e.config, With(e, sys.world), sub.args, env).state;
            Ran(sys, sub.engine, e.keys + {KeyFor(sub.args)}, t)
  {
    hide Ok, RequestAction, LedgerOk, KeysOk, P.Consistent;
    var sub := sys.submissions[n];
    var e := sys.engines[sub.engine];
    var k := KeyFor(sub.args);
    assert !Owned(sys.engines, k);
    assert EngineOk(e, sys.world);
    GrowOwn(e.config, With(e, sys.world), Own(e), k);
    RequestOkay(e.config, With(e, sys.world), Own(e) + iset{k}, sub.args, env);
    var t := RequestAction(e.config, With(e, sys.world), sub.args, env).state;
    var e' := Engine(e.config, t, e.keys + {k});
    assert Own(e') == Own(e) + iset{k};
    assert With(e', t.world) == t;
  }

  /** Submission `n` used its reservation at its engine, which answers for the key from here on. */
  ghost predicate UsedUp(sys: System, n: nat, after: System) {
    && HasTurn(sys, n) && n in after.submissions
    && var sub, stage := sys.submissions[n], after.submissions[n].stage;
       && after.bindings == sys.bindings && after.submissions == sys.submissions[n := sub.(stage := stage)]
       && !stage.Holding? && (stage.Answered? ==> KeyOf(stage.snapshot.requestId) == KeyFor(sub.args))
       && after.engines.Keys == sys.engines.Keys
       && (forall i | i in sys.engines ::
             after.engines[i].keys == if i == sub.engine then sys.engines[i].keys + {KeyFor(sub.args)}
               else sys.engines[i].keys)
       && after.submitted == sys.submitted + [KeyFor(sub.args)]
       && (forall id | id in sys.world.db.requests :: id in after.world.db.requests)
  }

  lemma UsedUpKeeps(sys: System, n: nat, after: System)
    requires SubmissionsOk(sys) && KeysOk(sys) && LedgerOk(sys) && UsedUp(sys, n, after)
    ensures SubmissionsOk(after) && KeysOk(after) && LedgerOk(after)
  {
    var sub := sys.submissions[n];
    var k := KeyFor(sub.args);
    assert k in after.engines[sub.engine].keys;
    forall x ensures Owned(after.engines, x) <==> Owned(sys.engines, x) || x == k {
      if Owned(sys.engines, x) {
        var i :| i in sys.engines && x in sys.engines[i].keys;
        assert x in after.engines[i].keys;
      }
      if Owned(after.engines, x) && x != k {
        var i :| i in after.engines && x in after.engines[i].keys;
        assert x in sys.engines[i].keys;
      }
    }
  }

  lemma BackendUses(sys: System, n: nat, env: Env, at: int)
    requires Callable(sys, n, env)
    requires StoreCarried(sys.world.db, Submitted(sys, n, env, at).world.db,
               Submitted(sys, n, env, at).engines[sys.submissions[n].engine].state.requests)
    ensures UsedUp(sys, n, Submitted(sys, n, env, at))
  {
    hide RequestAction, RowCarried;
    var sub := sys.submissions[n];
    var e := sys.engines[sub.engine];
    AcceptsOwnKey(e.config, With(e, sys.world), sub.args, env);
  }

  /** Nothing has run yet, but the key may be used by the engine's callbacks. */
  lemma EnterNestedOk(sys: System, n: nat)
    requires SystemOk(sys) && HasTurn(sys, n)
    ensures SystemOk(Entered(sys, n))
  {
    hide Ok, LedgerOk, KeysOk, P.Consistent;
    var sub := sys.submissions[n];
    var e := sys.engines[sub.engine];
    var k := KeyFor(sub.args);
    var t := With(e, sys.world);
    assert !Owned(sys.engines, k) && EngineOk(e, sys.world);
    GrowOwn(e.config, t, Own(e), k);
    var e' := Engine(e.config, t, e.keys + {k});
    assert Own(e') == Own(e) + iset{k} && With(e', t.world) == t;
    assert Ran(sys, sub.engine, e.keys + {k}, t);
    EngineRan(sys, sub.engine, e.keys + {k}, t);
    assert UsedUp(sys, n, Entered(sys, n));
    UsedUpKeeps(sys, n, Entered(sys, n));
  }

  lemma ReturnNestedOk(sys: System, n: nat, snapshot: S.Snapshot)
    requires SystemOk(sys) && NestedAnswer(sys, n, snapshot)
    ensures SystemOk(Returned(sys, n, snapshot))
  {
    hide EnginesOk, WorldOk, RequestProblem, IdFor;
    IdKeepsKey(sys.engines[sys.submissions[n].engine].config, sys.submissions[n].args);
  }

  lemma IdKeepsKey(c: Config, args: RequestArgs)
    requires RequestProblem(c, args).None?
    ensures KeyOf(IdFor(c, args)) == KeyFor(args)
  {
    hide RequestProblem;
  }

  lemma ApplyOk(sys: System, step: Step)
    requires SystemOk(sys)
    ensures SystemOk(Apply(sys, step))
  {
    hide SystemOk, CancelRequest, IngestApproval, P.Apply, Submitted, Swapped;
    match step
    case StartEngine(i, config) => StartEngineOk(sys, i, config);
    case ReserveFor(n, i, args) =>
      if n !in sys.submissions && i in sys.engines
         && Reservable(sys.bindings, KeyFor(args), FingerprintOf(args)).Fresh? {
        ReserveOk(sys, n, i, args);
      }
    case CallBackend(n, env, at) => CallBackendOk(sys, n, env, at);
    case EnterNested(n) => if HasTurn(sys, n) { EnterNestedOk(sys, n); }
    case ReturnNested(n, snapshot) => if NestedAnswer(sys, n, snapshot) { ReturnNestedOk(sys, n, snapshot); }
    case CompleteRequest(n) =>
      if n in sys.submissions && sys.submissions[n].stage.Answered? { CompleteOk(sys, n); }
    case AbandonRequest(n) => if n in sys.submissions { AbandonOk(sys, n); }
    case CancelAt(i, id, requester, fate) => CancelAtOk(sys, i, id, requester, fate);
    case IngestAt(i, id, evidence, env) => IngestAtOk(sys, i, id, evidence, env);
    case StoreStep(p) => StoreStepOk(sys, p);
    case WriteLedger(s) => LedgerStepOk(sys, sys.world.db.requests[s.requestId := s]);
    case SwapLedger(expected, replacement) =>
      SwapKeepsRows(sys.world.db.requests, expected, replacement);
      LedgerStepOk(sys, Swapped(sys.world.db.requests, expected, replacement));
  }

  lemma SwapKeepsRows(requests: Snapshots, expected: S.Snapshot, replacement: S.Snapshot)
    ensures Swapped(requests, expected, replacement).Keys == requests.Keys
  {
  }

  lemma {:induction false} EveryRunIsOk(sys: System, steps: seq<Step>)
    requires SystemOk(sys)
    ensures SystemOk(Execute(sys, steps))
    decreases |steps|
  {
    hide SystemOk, Apply;
    if steps != [] {
      ApplyOk(sys, steps[0]);
      EveryRunIsOk(Apply(sys, steps[0]), steps[1..]);
    }
  }

  // ---- What follows ------------------------------------------------------------------------------

  /** One run of a target: a broker's dispatch, or a direct call by a version 1 engine. */
  datatype Effect = Dispatched(index: nat) | CalledBy(engine: nat, index: nat)

  predicate Occurred(sys: System, x: Effect) {
    match x
    case Dispatched(i) => i < |sys.world.dispatches|
    case CalledBy(e, i) => e in sys.engines && i < |sys.engines[e].state.targetCalls|
  }

  function RequestOf(sys: System, x: Effect): RequestId
    requires Occurred(sys, x)
  {
    match x
    case Dispatched(i) => sys.world.dispatches[i].token.claims.requestId
    case CalledBy(e, i) => sys.engines[e].state.targetCalls[i]
  }

  predicate Happened(sys: System, x: Effect, k: Key) { Occurred(sys, x) && KeyOf(RequestOf(sys, x)) == k }

  lemma EmptyOk()
    ensures SystemOk(Empty())
  {
  }

  /** A dispatch belongs to the one row of the one request of its key. */
  lemma DispatchedRow(sys: System, i: nat, e: nat, k: Key) returns (a: string)
    requires SystemOk(sys) && Happened(sys, Dispatched(i), k) && e in sys.engines && k in sys.engines[e].keys
    ensures a == sys.world.dispatches[i].id && a in sys.world.db.rows
    ensures KeyOf(sys.world.db.rows[a].requestId) == k
            && sys.world.db.rows[a].requestId in sys.engines[e].state.requests
    ensures sys.engines[e].state.targetCalls == []
  {
    hide RequestsOk, IndexOk, AcceptedPolicy, TokenBinds, P.RunOk, P.OneHolder, SubmissionsOk, KeysOk, LedgerOk;
    P.ConsistentDispatches(sys.world);
    var d := sys.world.dispatches[i];
    a := d.id;
    assert P.DispatchOk(sys.world, d);
    assert RowNamed(a, sys.world.db.rows[a]);
    assert EngineOk(sys.engines[e], sys.world);
    var id := sys.world.db.rows[a].requestId;
    assert KeyOf(id) in Own(sys.engines[e]);
    assert RowMatches(sys.engines[e].config, sys.engines[e].state.requests[id], a, sys.world.db.rows[a]);
  }

  lemma OwnerOfDispatch(sys: System, i: nat, k: Key) returns (e: nat)
    requires SystemOk(sys) && Happened(sys, Dispatched(i), k)
    ensures e in sys.engines && k in sys.engines[e].keys
  {
    hide EnginesOk, SubmissionsOk, KeysOk, LedgerOk, P.RunOk, P.OneHolder;
    P.ConsistentDispatches(sys.world);
    var d := sys.world.dispatches[i];
    assert P.DispatchOk(sys.world, d);
    assert RowNamed(d.id, sys.world.db.rows[d.id]);
    assert Owned(sys.engines, k);
    e :| e in sys.engines && k in sys.engines[e].keys;
  }

  /** An engine has one request per key. */
  lemma OneRequestPerKey(sys: System, e: nat, x: RequestId, y: RequestId)
    requires SystemOk(sys) && e in sys.engines && x in sys.engines[e].state.requests
             && y in sys.engines[e].state.requests
    requires KeyOf(x) == KeyOf(y)
    ensures x == y && KeyOf(x) in sys.engines[e].keys
  {
    hide RowsOk, CallsOk, AcceptedPolicy, RequestOk, P.Consistent, SubmissionsOk, KeysOk, LedgerOk, WorldOk;
    assert EngineOk(sys.engines[e], sys.world);
    assert KeyOf(x) in Own(sys.engines[e]);
  }

  lemma SameDispatch(sys: System, i: nat, j: nat, k: Key)
    requires SystemOk(sys) && Happened(sys, Dispatched(i), k) && Happened(sys, Dispatched(j), k)
    ensures i == j
  {
    hide EnginesOk, SubmissionsOk, KeysOk, LedgerOk, P.Consistent;
    var e := OwnerOfDispatch(sys, i, k);
    var a := DispatchedRow(sys, i, e, k);
    var b := DispatchedRow(sys, j, e, k);
    OneRequestPerKey(sys, e, sys.world.db.rows[a].requestId, sys.world.db.rows[b].requestId);
    OneRowPerRequest(sys, e, a, b);
    P.ConsistentDispatches(sys.world);
  }

  lemma OneRowPerRequest(sys: System, e: nat, a: string, b: string)
    requires SystemOk(sys) && e in sys.engines && a in sys.world.db.rows && b in sys.world.db.rows
    requires sys.world.db.rows[a].requestId == sys.world.db.rows[b].requestId
             && KeyOf(sys.world.db.rows[a].requestId) in sys.engines[e].keys
    ensures a == b
  {
    hide RequestsOk, IndexOk, CallsOk, AcceptedPolicy, P.Consistent, SubmissionsOk, KeysOk, LedgerOk, TokenBinds,
      RowMatches;
    assert EngineOk(sys.engines[e], sys.world);
    assert KeyOf(sys.world.db.rows[a].requestId) in Own(sys.engines[e]);
  }

  /** A version 1 engine calls the target for its own keys, each request once. */
  lemma CalledOwn(sys: System, e: nat, i: nat)
    requires SystemOk(sys) && e in sys.engines && i < |sys.engines[e].state.targetCalls|
    ensures var calls := sys.engines[e].state.targetCalls;
            && calls[i] in sys.engines[e].state.requests
            && forall j | 0 <= j < |calls| && calls[j] == calls[i] :: j == i
  {
    hide RequestsOk, IndexOk, RowsOk, AcceptedPolicy, P.Consistent, SubmissionsOk, KeysOk, LedgerOk, WorldOk;
    assert EngineOk(sys.engines[e], sys.world);
  }

  lemma SameCaller(sys: System, e: nat, f: nat, k: Key)
    requires SystemOk(sys) && e in sys.engines && f in sys.engines && k in sys.engines[e].keys
             && k in sys.engines[f].keys
    ensures e == f
  {
    hide EngineOk, WorldOk, SubmissionsOk, KeysOk, LedgerOk;
  }

  /** The main result. Over every interleaving of controllers, engines and their restarts,
      brokers, operators and crashes, at most one target run has happened for any one
      principal and idempotency key. */
  lemma TargetRunsOncePerKey(steps: seq<Step>, x: Effect, y: Effect, k: Key)
    requires Happened(Execute(Empty(), steps), x, k) && Happened(Execute(Empty(), steps), y, k)
    ensures x == y
  {
    hide SystemOk, Execute;
    EmptyOk();
    EveryRunIsOk(Empty(), steps);
    EffectsAgree(Execute(Empty(), steps), x, y, k);
  }

  lemma EffectsAgree(sys: System, x: Effect, y: Effect, k: Key)
    requires SystemOk(sys) && Happened(sys, x, k) && Happened(sys, y, k)
    ensures x == y
  {
    hide SystemOk;
    match (x, y)
    case (Dispatched(i), Dispatched(j)) => SameDispatch(sys, i, j, k);
    case (CalledBy(e, i), CalledBy(f, j)) =>
      CallerOwns(sys, e, i, k);
      CallerOwns(sys, f, j, k);
      SameCaller(sys, e, f, k);
      OneRequestPerKey(sys, e, sys.engines[e].state.targetCalls[i], sys.engines[e].state.targetCalls[j]);
    case (Dispatched(i), CalledBy(e, j)) => NotBoth(sys, i, e, j, k);
    case (CalledBy(e, j), Dispatched(i)) => NotBoth(sys, i, e, j, k);
  }

  lemma CallerOwns(sys: System, e: nat, i: nat, k: Key)
    requires SystemOk(sys) && Happened(sys, CalledBy(e, i), k)
    ensures k in sys.engines[e].keys
    ensures var calls := sys.engines[e].state.targetCalls;
            calls[i] in sys.engines[e].state.requests && forall j | 0 <= j < |calls| && calls[j] == calls[i] :: j == i
  {
    hide SystemOk;
    CalledOwn(sys, e, i);
    var id := sys.engines[e].state.targetCalls[i];
    OneRequestPerKey(sys, e, id, id);
  }

  /** Brokers and version 1 engines never both run the target of one key. */
  lemma NotBoth(sys: System, i: nat, e: nat, j: nat, k: Key)
    requires SystemOk(sys) && Happened(sys, Dispatched(i), k)
    ensures !Happened(sys, CalledBy(e, j), k)
  {
    hide SystemOk;
    if Happened(sys, CalledBy(e, j), k) {
      CallerOwns(sys, e, j, k);
      var a := DispatchedRow(sys, i, e, k);
      assert false;
    }
  }

  /** Whatever the interleaving, no target is run for a request that only rehearses: each effect
      is one its engine's policy means for real, and a broker's is the one the policy declares. */
  lemma EffectsAreMeantForReal(steps: seq<Step>, x: Effect) returns (e: nat)
    requires Occurred(Execute(Empty(), steps), x)
    ensures var sys := Execute(Empty(), steps);
            && e in sys.engines && RequestOf(sys, x) in sys.engines[e].state.requests
            && T.MeantForReal(sys.engines[e].config, RequestOf(sys, x))
            && (x.Dispatched? ==> T.RunsAsDeclared(sys.engines[e].config, sys.world.dispatches[x.index]))
            && (x.CalledBy? ==> x.engine == e)
  {
    hide SystemOk, Execute, T.MeantForReal, T.RunsAsDeclared;
    EmptyOk();
    EveryRunIsOk(Empty(), steps);
    var sys := Execute(Empty(), steps);
    match x
    case Dispatched(i) => e := DispatchMeant(sys, i);
    case CalledBy(f, i) =>
      e := f;
      CallMeant(sys, e, i);
  }

  lemma CallMeant(sys: System, e: nat, i: nat)
    requires SystemOk(sys) && e in sys.engines && i < |sys.engines[e].state.targetCalls|
    ensures sys.engines[e].state.targetCalls[i] in sys.engines[e].state.requests
    ensures T.MeantForReal(sys.engines[e].config, sys.engines[e].state.targetCalls[i])
  {
    hide Ok, WorldOk, SubmissionsOk, KeysOk, LedgerOk, T.MeantForReal;
    assert EngineOk(sys.engines[e], sys.world);
    T.CallMeant(sys.engines[e].config, With(sys.engines[e], sys.world), Own(sys.engines[e]), i);
  }

  lemma DispatchMeant(sys: System, i: nat) returns (e: nat)
    requires SystemOk(sys) && i < |sys.world.dispatches|
    ensures e in sys.engines && sys.world.dispatches[i].token.claims.requestId in sys.engines[e].state.requests
    ensures T.MeantForReal(sys.engines[e].config, sys.world.dispatches[i].token.claims.requestId)
    ensures T.RunsAsDeclared(sys.engines[e].config, sys.world.dispatches[i])
  {
    hide Ok, WorldOk, SubmissionsOk, KeysOk, LedgerOk, T.MeantForReal, T.RunsAsDeclared;
    e := OwnerOfDispatch(sys, i, KeyOf(sys.world.dispatches[i].token.claims.requestId));
    assert EngineOk(sys.engines[e], sys.world);
    T.DispatchMeant(sys.engines[e].config, With(sys.engines[e], sys.world), Own(sys.engines[e]), i);
  }

  /** The backend is called at most once per key, however often and through whichever
      controller the key is submitted; and a complete binding always has its request's row. */
  lemma SubmittedOncePerKey(steps: seq<Step>)
    ensures var sys := Execute(Empty(), steps);
            && (forall i, j | 0 <= i < j < |sys.submitted| :: sys.submitted[i] != sys.submitted[j])
            && LedgerOk(sys)
  {
    hide EnginesOk, WorldOk, SubmissionsOk, Execute;
    EmptyOk();
    EveryRunIsOk(Empty(), steps);
  }

  /** Dispatch `i` was for a request of engine `e`, inside the windows of its token and of its
      approval gate `a`. */
  ghost predicate WithinWindows(sys: System, i: nat, e: nat, a: string)
    requires i < |sys.world.dispatches|
    requires Gated(sys.world.dispatches[i].token.claims.requestId, a)
  {
    var d := sys.world.dispatches[i];
    var id := d.token.claims.requestId;
    && e in sys.engines && id in sys.engines[e].state.requests
    && d.checkedAt < d.token.claims.expiresAt && d.consumer == id.hash.requester
    && T.ApprovedUntil(sys.engines[e].config, id, sys.engines[e].state.requests[id], a, d.token.claims.expiresAt)
  }

  /** `a` is an approval the request's execute gate waits for. */
  ghost predicate Gated(id: RequestId, a: string) {
    && a in Defs(id) && Defs(id)[a].body.ApprovalGate?
    && exists x :: x in Defs(id) && Defs(id)[x].body.ExecuteGate? && Gating(id, x, a)
  }

  /** Whatever the interleaving, a target a broker called belongs to a request some engine holds,
      and the broker's last check fell inside the token's window and before the end of every
      approval the request waits for, itself within the window of the policy's own gate under a
      monotone clock. */
  lemma DispatchesRespectApprovals(steps: seq<Step>, i: nat, a: string) returns (e: nat)
    requires i < |Execute(Empty(), steps).world.dispatches|
    requires Gated(Execute(Empty(), steps).world.dispatches[i].token.claims.requestId, a)
    ensures WithinWindows(Execute(Empty(), steps), i, e, a)
  {
    hide SystemOk, Execute;
    EmptyOk();
    EveryRunIsOk(Empty(), steps);
    e := WindowsOf(Execute(Empty(), steps), i, a);
  }

  lemma WindowsOf(sys: System, i: nat, a: string) returns (e: nat)
    requires SystemOk(sys) && i < |sys.world.dispatches|
    requires Gated(sys.world.dispatches[i].token.claims.requestId, a)
    ensures WithinWindows(sys, i, e, a)
  {
    hide Ok, SubmissionsOk, KeysOk, LedgerOk, P.RunOk, P.OneHolder, Monotone, Gating;
    var d := sys.world.dispatches[i];
    var id := d.token.claims.requestId;
    var x :| x in Defs(id) && Defs(id)[x].body.ExecuteGate? && Gating(id, x, a);
    e := OwnerOfDispatch(sys, i, KeyOf(id));
    var row := DispatchedRow(sys, i, e, KeyOf(id));
    P.ConsistentDispatches(sys.world);
    assert P.DispatchOk(sys.world, d) && RowNamed(row, sys.world.db.rows[row]);
    assert EngineOk(sys.engines[e], sys.world);
    BoundRow(sys, e, row, x);
    T.DispatchWithinWindows(sys.engines[e].config, With(sys.engines[e], sys.world), Own(sys.engines[e]), i, x, a);
  }

  /** The row of an engine's key was granted to that very request. */
  lemma BoundRow(sys: System, e: nat, row: string, x: string)
    requires SystemOk(sys) && e in sys.engines && row in sys.world.db.rows
             && KeyOf(sys.world.db.rows[row].requestId) in sys.engines[e].keys
    requires x in Defs(sys.world.db.rows[row].requestId) && Defs(sys.world.db.rows[row].requestId)[x].body.ExecuteGate?
    ensures sys.world.db.rows[row].token.claims.requester == sys.world.db.rows[row].requestId.hash.requester
  {
    hide RequestsOk, IndexOk, CallsOk, AcceptedPolicy, P.Consistent, SubmissionsOk, KeysOk, LedgerOk, WorldOk,
      NoticesOk, TokenBinds;
    assert EngineOk(sys.engines[e], sys.world);
    var id := sys.world.db.rows[row].requestId;
    assert KeyOf(id) in Own(sys.engines[e]);
    T.BoundCopies(sys.engines[e].config, id, sys.engines[e].state.requests[id], sys.world.db.rows[row].token.claims, x);
  }
}
