/** Consumption of authorizations by any number of brokers at once.

    Each `consume_id` call is a run with a program counter. Steps are as fine as the database
    makes them: `record_issued`, `begin_consumption` and bulk revocation are one transaction
    each; every other transition is a conditional UPDATE with its projection left outstanding,
    to happen at any later time or, after a crash, never. A disabled step changes nothing, so
    every list of steps is an interleaving. */
module ConsumptionProtocol {
  import opened JsonValues
  import opened Claims
  import opened AuthorizationStore

  /** An action's entry in a broker's registry: its fixed target and its outcome contract. */
  datatype Spec = Spec(target: string, contract: string)

  /** `issuer` names the host's execution authority in receipts. */
  datatype Broker = Broker(
    name: string, issuer: string, authority: Authority, policyHash: string, actions: map<string, Spec>)

  datatype Pc =
    | Start | Loaded | Admitted | Holding | Rechecked | Cleared(at: int)
    | Aborting | Called | Returned | Reported | Doubtful | Done

  datatype Run = Run(
    broker: Broker, id: string, consumer: string, token: Option<Token>, pc: Pc, begun: bool, dispatched: bool)

  /** A target call: who called, under which token, after a last check at what time. */
  datatype Dispatch = Dispatch(id: string, run: nat, consumer: string, token: Token, target: string, checkedAt: int)

  datatype Projection = Projection(id: string, state: RowState, receipt: Option<Receipt>, now: int)

  datatype World = World(db: Db, runs: map<nat, Run>, outstanding: seq<Projection>, dispatches: seq<Dispatch>)

  datatype Step =
    | Record(token: Token, snapshot: Snapshot)
    | Launch(run: nat, broker: Broker, id: string, consumer: string)
    | Load(run: nat)
    | Admit(run: nat, at: int, live: bool)
    | Begin(run: nat, at: int)
    | Recheck(run: nat, eligible: bool)
    | Clear(run: nat, at: int, live: bool)
    | Abort(run: nat, info: Json, at: int)
    | Simulate(run: nat, info: Json, at: int)
    | CallTarget(run: nat)
    | Return(run: nat, ok: bool)
    | Report(run: nat, info: Json, at: int)
    | ReportFails(run: nat)
    | Doubt(run: nat, info: Json, at: int)
    | Crash(run: nat)
    | Withdraw(id: string, at: int)
    | Recover(id: string, actor: string, at: int)
    | Settle(id: string, outcome: RowState, actor: string, info: Json, at: int)
    | RevokeAll(ids: seq<string>, actor: string, at: int)
    | DoProjection(index: nat)
    | DropProjection(index: nat)

  /** The checks of `_verify_active` before it asks the revocation checker. */
  predicate Current(b: Broker, token: Token, now: int) {
    Verifies(b.authority, token, b.name, now) && token.claims.policyHash == b.policyHash
  }

  /** `_verify_active`; `live` is the revocation checker's answer. */
  predicate Active(b: Broker, token: Token, now: int, live: bool) { Current(b, token, now) && live }

  /** The claim checks of `consume_id` before it reserves the row. */
  predicate ClaimsFit(run: Run, c: Claims) {
    && c.authorizationId == run.id && c.requester == run.consumer
    && c.action in run.broker.actions && run.broker.actions[c.action].target == c.target
  }

  predicate OnlySimulates(c: Claims) { c.simulationOnly || !c.executionEnabled }

  predicate At(w: World, n: nat, pc: Pc) { n in w.runs && w.runs[n].pc == pc && w.runs[n].token.Some? }

  function Goto(w: World, n: nat, pc: Pc): World
    requires n in w.runs
  {
    w.(runs := w.runs[n := w.runs[n].(pc := pc)])
  }

  /** A conditional UPDATE whose projection stays outstanding. */
  function Transition(w: World, id: string, from: RowState, to: RowState, receipt: Option<Receipt>,
      now: int): Option<World> {
    match Move(w.db, id, from, to, receipt, now)
    case None => None
    case Some(moved) => Some(w.(db := moved, outstanding := w.outstanding + [Projection(id, to, receipt, now)]))
  }

  function Attempt(w: World, id: string, from: RowState, to: RowState, receipt: Option<Receipt>, now: int): World {
    var t := Transition(w, id, from, to, receipt, now);
    if t.Some? then t.value else w
  }

  function Apply(w: World, step: Step): World {
    match step
    case Record(token, snapshot) => w.(db := Recorded(w.db, token, snapshot).db)
    case Launch(n, broker, id, consumer) =>
      if n in w.runs || id == "" then w
      else w.(runs := w.runs[n := Run(broker, id, consumer, None, Start, false, false)])
    case Load(n) =>
      if n !in w.runs || w.runs[n].pc != Start then w
      else
        var run := w.runs[n];
        if run.id !in w.db.rows then Goto(w, n, Done)
        else w.(runs := w.runs[n := run.(token := Some(w.db.rows[run.id].token), pc := Loaded)])
    case Admit(n, at, live) =>
      if !At(w, n, Loaded) then w
      else
        var run := w.runs[n];
        var admitted := Active(run.broker, run.token.value, at, live) && ClaimsFit(run, run.token.value.claims);
        Goto(w, n, if admitted then Admitted else Done)
    case Begin(n, at) =>
      if !At(w, n, Admitted) then w
      else
        var run := w.runs[n];
        (match Begun(w.db, run.id, run.consumer, at)
         case Stored(db) => w.(db := db, runs := w.runs[n := run.(pc := Holding, begun := true)])
         case Refused(db) => Goto(w.(db := db), n, Done))
    case Recheck(n, eligible) =>
      if !At(w, n, Holding) then w else Goto(w, n, if eligible then Rechecked else Aborting)
    case Clear(n, at, live) =>
      if !At(w, n, Rechecked) then w
      else Goto(w, n, if Active(w.runs[n].broker, w.runs[n].token.value, at, live) then Cleared(at) else Aborting)
    case Abort(n, info, at) =>
      if !At(w, n, Aborting) then w
      else Goto(Attempt(w, w.runs[n].id, Executing, RowState.Failed, Some(Completion(info)), at), n, Done)
    case Simulate(n, info, at) =>
      if n in w.runs && w.runs[n].pc.Cleared? && w.runs[n].token.Some?
         && OnlySimulates(w.runs[n].token.value.claims) then
        Goto(Attempt(w, w.runs[n].id, Executing, RowState.Simulated, Some(Completion(info)), at), n, Done)
      else w
    case CallTarget(n) =>
      if n in w.runs && w.runs[n].pc.Cleared? && w.runs[n].token.Some?
         && !OnlySimulates(w.runs[n].token.value.claims) then
        var run := w.runs[n];
        w.(runs := w.runs[n := run.(pc := Called, dispatched := true)],
           dispatches := w.dispatches
             + [Dispatch(run.id, n, run.consumer, run.token.value, run.token.value.claims.target, run.pc.at)])
      else w
    case Return(n, ok) =>
      if !At(w, n, Called) then w else Goto(w, n, if ok then Returned else Doubtful)
    case Report(n, info, at) =>
      if !At(w, n, Returned) then w
      else
        (match Transition(w, w.runs[n].id, Executing, RowState.Executed, Some(Completion(info)), at)
         case Some(t) => Goto(t, n, Reported)
         case None => Goto(w, n, Doubtful))
    case ReportFails(n) =>
      if !At(w, n, Reported) then w else Goto(w, n, Doubtful)
    case Doubt(n, info, at) =>
      if !At(w, n, Doubtful) then w
      else Goto(Attempt(w, w.runs[n].id, Executing, Unknown, Some(Completion(info)), at), n, Done)
    case Crash(n) =>
      if n in w.runs then Goto(w, n, Done) else w
    case Withdraw(id, at) =>
      if id in w.db.rows && w.db.rows[id].state.Cancelled? then
        w.(outstanding := w.outstanding + [Projection(id, RowState.Cancelled, None, at)])
      else Attempt(w, id, Issued, RowState.Cancelled, None, at)
    case Recover(id, actor, at) =>
      if actor == "" then w else Attempt(w, id, Executing, Unknown, Some(Interrupted(actor)), at)
    case Settle(id, outcome, actor, info, at) =>
      if actor == "" || !(outcome.Executed? || outcome.Failed?) then w
      else Attempt(w, id, Unknown, outcome, Some(Reconciliation(actor, outcome, info)), at)
    case RevokeAll(ids, actor, at) => w.(db := RevokedFirst(w.db, ids, |ids|, actor, at))
    case DoProjection(i) =>
      if i < |w.outstanding| && w.outstanding[i].id in w.db.rows then
        var p := w.outstanding[i];
        w.(db := Projected(w.db, p.id, p.state, p.receipt, p.now),
           outstanding := w.outstanding[..i] + w.outstanding[i + 1..])
      else w
    case DropProjection(i) =>
      if i < |w.outstanding| then w.(outstanding := w.outstanding[..i] + w.outstanding[i + 1..]) else w
  }

  function Execute(w: World, steps: seq<Step>): World
    decreases |steps|
  {
    if steps == [] then w else Execute(Apply(w, steps[0]), steps[1..])
  }

  // ---- Invariant -----------------------------------------------------------------------

  /** States a row can be in once its target may have been called. */
  predicate MayHaveRun(row: Row) {
    || row.state.Executing? || row.state.Unknown? || row.state.Executed?
    || (row.state.Failed? && row.receipt.Some? && row.receipt.value.Reconciliation?)
  }

  predicate BeforeCall(pc: Pc) { pc.Holding? || pc.Rechecked? || pc.Cleared? || pc.Aborting? }

  predicate AfterCall(pc: Pc) { pc.Called? || pc.Returned? || pc.Reported? || pc.Doubtful? }

  predicate RunOk(db: Db, run: Run) {
    && (run.token.Some? ==> run.id in db.rows && db.rows[run.id].token == run.token.value)
    && (!run.pc.Start? && !run.pc.Done? ==> run.token.Some?)
    && (run.begun ==>
           run.token.Some? && !db.rows[run.id].state.Issued? && db.rows[run.id].consumer == Some(run.consumer))
    && (BeforeCall(run.pc) || AfterCall(run.pc) ==> run.begun)
    && (BeforeCall(run.pc) || run.dispatched ==> run.begun && MayHaveRun(db.rows[run.id]))
    && (AfterCall(run.pc) ==> run.dispatched)
    && (run.dispatched ==> AfterCall(run.pc) || run.pc.Done?)
    && (run.pc.Admitted? || run.begun ==> run.token.Some? && ClaimsFit(run, run.token.value.claims))
    && (run.pc.Cleared? ==> run.token.Some? && Active(run.broker, run.token.value, run.pc.at, true))
  }

  ghost predicate OneHolder(runs: map<nat, Run>) {
    forall m, n | m in runs && n in runs && runs[m].begun && runs[n].begun && runs[m].id == runs[n].id :: m == n
  }

  /** The broker that called a target was entitled to: the token is its authority's, for it and
      for its policy, asks for a real call, and names a target of its registry. */
  predicate Entitled(b: Broker, d: Dispatch) {
    && d.token.signature == Signature(b.authority.key, d.token.claims)
    && d.token.claims.issuer == b.authority.issuer && d.token.claims.audience == b.name
    && d.token.claims.policyHash == b.policyHash
    && d.token.claims.executionEnabled && !d.token.claims.simulationOnly
    && d.token.claims.action in b.actions && b.actions[d.token.claims.action].target == d.target
  }

  /** What is known of a recorded target call. */
  predicate DispatchOk(w: World, d: Dispatch) {
    && d.run in w.runs && w.runs[d.run].dispatched && w.runs[d.run].id == d.id
    && d.id in w.db.rows && w.db.rows[d.id].token == d.token
    && d.token.claims.authorizationId == d.id
    && d.consumer == d.token.claims.requester && d.target == d.token.claims.target
    && d.token.claims.issuedAt <= d.checkedAt < d.token.claims.expiresAt
    && Entitled(w.runs[d.run].broker, d)
  }

  ghost predicate Consistent(w: World) {
    && (forall n | n in w.runs :: RunOk(w.db, w.runs[n]))
    && OneHolder(w.runs)
    && (forall i | 0 <= i < |w.dispatches| :: DispatchOk(w, w.dispatches[i]))
    && (forall i, j | 0 <= i < j < |w.dispatches| :: w.dispatches[i].run != w.dispatches[j].run)
    && IssuedUnclaimed(w.db)
  }

  /** Row changes that no run has to notice. */
  ghost predicate Harmless(before: Db, after: Db) {
    && Lifecycle(before, after) && IssuedUnclaimed(after)
    && forall id | id in before.rows && MayHaveRun(before.rows[id]) :: MayHaveRun(after.rows[id])
  }

  lemma HarmlessKeepsRun(before: Db, after: Db, run: Run)
    requires Harmless(before, after) && RunOk(before, run)
    ensures RunOk(after, run)
  {
    if run.token.Some? {
      assert RowStep(before.rows[run.id], after.rows[run.id]);
    }
  }

  /** A recorded call stays accounted for while its run and row do. */
  lemma DispatchStays(w: World, w': World, d: Dispatch)
    requires DispatchOk(w, d) && Harmless(w.db, w'.db)
    requires forall n | n in w.runs ::
               && n in w'.runs && w'.runs[n].id == w.runs[n].id && w'.runs[n].dispatched == w.runs[n].dispatched
               && w'.runs[n].broker == w.runs[n].broker
    ensures DispatchOk(w', d)
  {
    assert RowStep(w.db.rows[d.id], w'.db.rows[d.id]);
  }

  /** The database changes harmlessly, no run moves. */
  lemma DatabaseStep(w: World, w': World)
    requires Consistent(w) && Harmless(w.db, w'.db)
    requires w'.runs == w.runs && w'.dispatches == w.dispatches
    ensures Consistent(w')
  {
    forall n | n in w.runs ensures RunOk(w'.db, w.runs[n]) { HarmlessKeepsRun(w.db, w'.db, w.runs[n]); }
    forall i | 0 <= i < |w.dispatches| ensures DispatchOk(w', w.dispatches[i]) {
      DispatchStays(w, w', w.dispatches[i]);
    }
  }

  /** One run moves, keeping what it holds; the others see at most a harmless change. */
  lemma RunStep(w: World, w': World, n: nat, run: Run)
    requires Consistent(w) && Harmless(w.db, w'.db)
    requires w'.runs == w.runs[n := run] && w'.dispatches == w.dispatches
    requires RunOk(w'.db, run)
    requires n in w.runs ==>
               && run.id == w.runs[n].id && run.begun == w.runs[n].begun && run.dispatched == w.runs[n].dispatched
               && run.broker == w.runs[n].broker
    requires n !in w.runs ==> !run.begun && !run.dispatched
    ensures Consistent(w')
  {
    forall m | m in w'.runs ensures RunOk(w'.db, w'.runs[m]) {
      if m != n { HarmlessKeepsRun(w.db, w'.db, w.runs[m]); }
    }
    forall i | 0 <= i < |w.dispatches| ensures DispatchOk(w', w.dispatches[i]) {
      DispatchStays(w, w', w.dispatches[i]);
    }
  }

  lemma Unchanged(db: Db)
    requires IssuedUnclaimed(db)
    ensures Harmless(db, db)
  {
  }

  lemma MoveIsHarmless(db: Db, id: string, from: RowState, to: RowState, receipt: Option<Receipt>, now: int)
    requires IssuedUnclaimed(db) && Edge(from, to) && Move(db, id, from, to, receipt, now).Some?
    requires from.Issued? || to.Unknown? || to.Executed?
             || (to.Failed? && receipt.Some? && receipt.value.Reconciliation?)
    ensures Harmless(db, Move(db, id, from, to, receipt, now).value)
  {
  }

  lemma ProjectionIsHarmless(db: Db, p: Projection)
    requires IssuedUnclaimed(db) && p.id in db.rows
    ensures Harmless(db, Projected(db, p.id, p.state, p.receipt, p.now))
  {
  }

  lemma RecordIsHarmless(db: Db, token: Token, snapshot: Snapshot)
    requires IssuedUnclaimed(db)
    ensures Harmless(db, Recorded(db, token, snapshot).db)
  {
    RecordFollowsLifecycle(db, token, snapshot);
  }

  lemma RevocationIsHarmless(db: Db, ids: seq<string>, actor: string, now: int)
    requires IssuedUnclaimed(db)
    ensures Harmless(db, RevokedFirst(db, ids, |ids|, actor, now))
  {
    var after := RevokedFirst(db, ids, |ids|, actor, now);
    RevocationTouches(db, ids, |ids|, actor, now, "");
    forall id | id in db.rows
      ensures RowStep(db.rows[id], after.rows[id])
      ensures MayHaveRun(db.rows[id]) ==> MayHaveRun(after.rows[id])
      ensures after.rows[id].state.Issued? ==> after.rows[id].consumer.None?
    {
      RevocationTouches(db, ids, |ids|, actor, now, id);
    }
  }

  lemma AttemptIsHarmless(w: World, id: string, from: RowState, to: RowState, receipt: Option<Receipt>, now: int)
    requires IssuedUnclaimed(w.db) && Edge(from, to)
    requires from.Issued? || to.Unknown? || to.Executed?
             || (to.Failed? && receipt.Some? && receipt.value.Reconciliation?)
    ensures Harmless(w.db, Attempt(w, id, from, to, receipt, now).db)
  {
    if Move(w.db, id, from, to, receipt, now).Some? {
      MoveIsHarmless(w.db, id, from, to, receipt, now);
    } else {
      Unchanged(w.db);
    }
  }

  /** Reserving an issued row makes this run its one holder. */
  lemma BeginStep(w: World, n: nat, at: int)
    requires Consistent(w) && At(w, n, Admitted)
    ensures Consistent(Apply(w, Begin(n, at)))
  {
    hide Recorded, RevokedFirst, Transition, OneHolder, DispatchOk, Active, OnlySimulates, Harmless, Show, Names, Base;
    var run := w.runs[n];
    BeginIsHarmless(w.db, run.id, run.consumer, at);
    assert RunOk(w.db, run);
    var o := Begun(w.db, run.id, run.consumer, at);
    if o.Refused? {
      HarmlessKeepsRun(w.db, o.db, run);
      RunStep(w, Apply(w, Begin(n, at)), n, run.(pc := Done));
    } else {
      HolderStep(w, n, o.db);
    }
  }

  lemma HolderStep(w: World, n: nat, db: Db)
    requires Consistent(w) && At(w, n, Admitted) && Harmless(w.db, db)
    requires w.runs[n].id in w.db.rows && w.db.rows[w.runs[n].id].state.Issued?
    requires RunOk(db, w.runs[n].(pc := Holding, begun := true))
    ensures Consistent(w.(db := db, runs := w.runs[n := w.runs[n].(pc := Holding, begun := true)]))
  {
    hide DispatchOk, RunOk, Lifecycle, MayHaveRun, IssuedUnclaimed;
    var run := w.runs[n];
    var w' := w.(db := db, runs := w.runs[n := run.(pc := Holding, begun := true)]);
    NobodyHolds(w, n);
    forall m | m in w'.runs ensures RunOk(w'.db, w'.runs[m]) {
      if m != n { HarmlessKeepsRun(w.db, db, w.runs[m]); }
    }
    forall i | 0 <= i < |w.dispatches| ensures DispatchOk(w', w.dispatches[i]) {
      DispatchStays(w, w', w.dispatches[i]);
    }
  }

  /** An issued row is held by no run. */
  lemma NobodyHolds(w: World, n: nat)
    requires Consistent(w) && n in w.runs
    requires w.runs[n].id in w.db.rows && w.db.rows[w.runs[n].id].state.Issued?
    ensures forall m | m in w.runs && w.runs[m].id == w.runs[n].id :: !w.runs[m].begun
  {
    hide DispatchOk, OneHolder, Active, ClaimsFit;
    forall m | m in w.runs && w.runs[m].id == w.runs[n].id ensures !w.runs[m].begun {
      assert RunOk(w.db, w.runs[m]);
    }
  }

  lemma BeginIsHarmless(db: Db, id: string, consumer: string, now: int)
    requires IssuedUnclaimed(db)
    ensures Harmless(db, Begun(db, id, consumer, now).db)
  {
    hide Show, Names, Base;
    var o := Begun(db, id, consumer, now);
    if o.Stored? {
      BeginFollowsLifecycle(db, id, consumer, now);
    } else {
      MoveFollowsLifecycle(db, id, Issued, RowState.Expired, None, now);
    }
  }

  /** A run that has not called its target closes the row; no other run holds it. */
  lemma CloseStep(w: World, n: nat, to: RowState, info: Json, now: int)
    requires Consistent(w) && n in w.runs && BeforeCall(w.runs[n].pc)
    requires to.Failed? || to.Simulated?
    ensures Consistent(Goto(Attempt(w, w.runs[n].id, Executing, to, Some(Completion(info)), now), n, Done))
  {
    hide Active, OnlySimulates, Entitled, Begun, Recorded, RevokedFirst, Projected;
    var run := w.runs[n];
    assert RunOk(w.db, run);
    var mid := Attempt(w, run.id, Executing, to, Some(Completion(info)), now);
    var w' := Goto(mid, n, Done);
    forall m | m in w'.runs ensures RunOk(w'.db, w'.runs[m]) {
      assert RunOk(w.db, w.runs[m]);
      if m != n && w.runs[m].id == run.id {
        assert !w.runs[m].begun;
      }
    }
    forall i | 0 <= i < |w.dispatches| ensures DispatchOk(w', w.dispatches[i]) {
      assert DispatchOk(w, w.dispatches[i]);
    }
  }

  lemma CallStep(w: World, n: nat)
    requires Consistent(w) && n in w.runs && w.runs[n].pc.Cleared? && w.runs[n].token.Some?
    requires !OnlySimulates(w.runs[n].token.value.claims)
    ensures Consistent(Apply(w, CallTarget(n)))
  {
    hide Transition, Attempt, Begun, Recorded, RevokedFirst, Projected;
    var run := w.runs[n];
    var w' := Apply(w, CallTarget(n));
    assert RunOk(w.db, run);
    forall i | 0 <= i < |w.dispatches| ensures DispatchOk(w', w.dispatches[i]) && w.dispatches[i].run != n {
      assert DispatchOk(w, w.dispatches[i]);
    }
  }

  /** A step that only moves one run's program counter. */
  lemma CounterStep(w: World, n: nat, pc: Pc)
    requires Consistent(w) && n in w.runs && RunOk(w.db, w.runs[n].(pc := pc))
    ensures Consistent(Goto(w, n, pc))
  {
    Unchanged(w.db);
    RunStep(w, Goto(w, n, pc), n, w.runs[n].(pc := pc));
  }

  predicate EntryStep(step: Step) { step.Launch? || step.Load? || step.Admit? || step.Crash? }

  predicate WaitingStep(step: Step) { step.Recheck? || step.Clear? || step.Return? || step.ReportFails? }

  /** A run arrives, is admitted or turned away, or crashes. */
  lemma EntryKeepsConsistent(w: World, step: Step)
    requires Consistent(w) && EntryStep(step)
    ensures Consistent(Apply(w, step))
  {
    hide Consistent, Apply;
    match step
    case Launch(n, broker, id, consumer) => LaunchKeepsConsistent(w, n, broker, id, consumer);
    case Load(n) => LoadKeepsConsistent(w, n);
    case Admit(n, at, live) => AdmitKeepsConsistent(w, n, at, live);
    case Crash(n) => CrashKeepsConsistent(w, n);
  }

  lemma LaunchKeepsConsistent(w: World, n: nat, broker: Broker, id: string, consumer: string)
    requires Consistent(w)
    ensures Consistent(Apply(w, Launch(n, broker, id, consumer)))
  {
    hide OneHolder, DispatchOk, Begun, Recorded, Projected, RevokedFirst, Transition, Active;
    if n !in w.runs && id != "" {
      Unchanged(w.db);
      RunStep(w, Apply(w, Launch(n, broker, id, consumer)), n, Run(broker, id, consumer, None, Start, false, false));
    }
  }

  lemma LoadKeepsConsistent(w: World, n: nat)
    requires Consistent(w)
    ensures Consistent(Apply(w, Load(n)))
  {
    hide OneHolder, DispatchOk, Begun, Recorded, Projected, RevokedFirst, Transition, Active;
    if n in w.runs && w.runs[n].pc == Start {
      assert RunOk(w.db, w.runs[n]);
      if w.runs[n].id in w.db.rows {
        Unchanged(w.db);
        RunStep(w, Apply(w, Load(n)), n, w.runs[n].(token := Some(w.db.rows[w.runs[n].id].token), pc := Loaded));
      } else {
        CounterStep(w, n, Done);
      }
    }
  }

  lemma AdmitKeepsConsistent(w: World, n: nat, at: int, live: bool)
    requires Consistent(w)
    ensures Consistent(Apply(w, Admit(n, at, live)))
  {
    hide OneHolder, DispatchOk, Begun, Recorded, Projected, RevokedFirst, Transition, Active;
    if At(w, n, Loaded) {
      assert RunOk(w.db, w.runs[n]);
      CounterStep(w, n, Apply(w, Admit(n, at, live)).runs[n].pc);
    }
  }

  lemma CrashKeepsConsistent(w: World, n: nat)
    requires Consistent(w)
    ensures Consistent(Apply(w, Crash(n)))
  {
    hide OneHolder, DispatchOk, Begun, Recorded, Projected, RevokedFirst, Transition, Active;
    if n in w.runs {
      assert RunOk(w.db, w.runs[n]);
      CounterStep(w, n, Done);
    }
  }

  /** A holding run hears from a check or from its target. */
  lemma WaitingKeepsConsistent(w: World, step: Step)
    requires Consistent(w) && WaitingStep(step)
    ensures Consistent(Apply(w, step))
  {
    hide OneHolder, DispatchOk, Begun, Recorded, Projected, RevokedFirst, Transition;
    var w' := Apply(w, step);
    if w' != w {
      var n := step.run;
      assert RunOk(w.db, w.runs[n]);
      CounterStep(w, n, w'.runs[n].pc);
    }
  }

  /** A run that has called its target records what it knows. */
  lemma OutcomeStep(w: World, n: nat, to: RowState, info: Json, now: int, pc: Pc)
    requires Consistent(w) && n in w.runs && AfterCall(w.runs[n].pc)
    requires to.Executed? || to.Unknown?
    requires AfterCall(pc) || pc.Done?
    ensures Consistent(Goto(Attempt(w, w.runs[n].id, Executing, to, Some(Completion(info)), now), n, pc))
  {
    var run := w.runs[n];
    var mid := Attempt(w, run.id, Executing, to, Some(Completion(info)), now);
    AttemptIsHarmless(w, run.id, Executing, to, Some(Completion(info)), now);
    assert RunOk(w.db, run);
    HarmlessKeepsRun(w.db, mid.db, run);
    RunStep(w, Goto(mid, n, pc), n, run.(pc := pc));
  }

  lemma DoubtStep(w: World, n: nat)
    requires Consistent(w) && At(w, n, Returned)
    ensures Consistent(Goto(w, n, Doubtful))
  {
    hide OneHolder, DispatchOk, Active;
    assert RunOk(w.db, w.runs[n]);
    CounterStep(w, n, Doubtful);
  }

  lemma RunSideStep(w: World, step: Step)
    requires Consistent(w)
    requires step.Begin? || step.Abort? || step.Simulate? || step.CallTarget? || step.Report? || step.Doubt?
    ensures Consistent(Apply(w, step))
  {
    hide Consistent, RunOk, Begun, Recorded, RevokedFirst, Projected, Active, ClaimsFit, OnlySimulates;
    match step
    case Begin(n, at) => if At(w, n, Admitted) { BeginStep(w, n, at); }
    case Abort(n, info, at) => if At(w, n, Aborting) { CloseStep(w, n, RowState.Failed, info, at); }
    case Simulate(n, info, at) => if Apply(w, step) != w { CloseStep(w, n, RowState.Simulated, info, at); }
    case CallTarget(n) => if Apply(w, step) != w { CallStep(w, n); }
    case Report(n, info, at) =>
      if At(w, n, Returned) {
        if Transition(w, w.runs[n].id, Executing, RowState.Executed, Some(Completion(info)), at).Some? {
          OutcomeStep(w, n, RowState.Executed, info, at, Reported);
        } else {
          DoubtStep(w, n);
        }
      }
    case Doubt(n, info, at) => if At(w, n, Doubtful) { OutcomeStep(w, n, Unknown, info, at, Done); }
  }

  predicate OperatorStep(step: Step) { step.Withdraw? || step.Recover? || step.Settle? }

  lemma OperatorIsHarmless(w: World, step: Step)
    requires IssuedUnclaimed(w.db) && OperatorStep(step)
    ensures Harmless(w.db, Apply(w, step).db)
  {
    hide Harmless, Begun, Recorded, RevokedFirst, Projected, Attempt, Active, ClaimsFit;
    Unchanged(w.db);
    match step {
      case Withdraw(id, at) => AttemptIsHarmless(w, id, Issued, RowState.Cancelled, None, at);
      case Recover(id, actor, at) => AttemptIsHarmless(w, id, Executing, Unknown, Some(Interrupted(actor)), at);
      case Settle(id, outcome, actor, info, at) =>
        if outcome.Executed? || outcome.Failed? {
          AttemptIsHarmless(w, id, Unknown, outcome, Some(Reconciliation(actor, outcome, info)), at);
        }
    }
  }

  predicate TableStep(step: Step) { step.Record? || step.RevokeAll? || step.DoProjection? || step.DropProjection? }

  lemma TableIsHarmless(w: World, step: Step)
    requires IssuedUnclaimed(w.db) && TableStep(step)
    ensures Harmless(w.db, Apply(w, step).db)
  {
    hide Harmless, Recorded, RevokedFirst, Projected;
    Unchanged(w.db);
    match step {
      case Record(token, snapshot) => RecordIsHarmless(w.db, token, snapshot);
      case RevokeAll(ids, actor, at) => RevocationIsHarmless(w.db, ids, actor, at);
      case DoProjection(i) =>
        if i < |w.outstanding| && w.outstanding[i].id in w.db.rows { ProjectionIsHarmless(w.db, w.outstanding[i]); }
      case DropProjection(_) =>
    }
  }

  lemma ApplyKeepsConsistent(w: World, step: Step)
    requires Consistent(w)
    ensures Consistent(Apply(w, step))
  {
    hide RunOk, OneHolder, DispatchOk, Harmless, Begun, Recorded, RevokedFirst, Projected, Active, ClaimsFit,
      OnlySimulates;
    if EntryStep(step) {
      EntryKeepsConsistent(w, step);
    } else if WaitingStep(step) {
      WaitingKeepsConsistent(w, step);
    } else if step.Begin? || step.Abort? || step.Simulate? || step.CallTarget? || step.Report? || step.Doubt? {
      RunSideStep(w, step);
    } else {
      if OperatorStep(step) { OperatorIsHarmless(w, step); } else { TableIsHarmless(w, step); }
      DatabaseStep(w, Apply(w, step));
    }
  }

  /** The lifecycle holds at this grain too: every single step moves rows along its edges. */
  lemma StepsFollowLifecycle(w: World, step: Step)
    requires IssuedUnclaimed(w.db)
    ensures Lifecycle(w.db, Apply(w, step).db)
  {
    hide Lifecycle, Begun, Recorded, Projected, RevokedFirst, Transition, Active, ClaimsFit, OnlySimulates;
    Unchanged(w.db);
    match step
    case Record(token, snapshot) => RecordIsHarmless(w.db, token, snapshot);
    case Begin(n, at) => if At(w, n, Admitted) { BeginIsHarmless(w.db, w.runs[n].id, w.runs[n].consumer, at); }
    case RevokeAll(ids, actor, at) => RevocationIsHarmless(w.db, ids, actor, at);
    case DoProjection(i) =>
      if i < |w.outstanding| && w.outstanding[i].id in w.db.rows { ProjectionIsHarmless(w.db, w.outstanding[i]); }
    case Abort(n, info, at) =>
      if At(w, n, Aborting) {
        AttemptLifecycle(w, w.runs[n].id, Executing, RowState.Failed, Some(Completion(info)), at);
      }
    case Simulate(n, info, at) =>
      if n in w.runs { AttemptLifecycle(w, w.runs[n].id, Executing, RowState.Simulated, Some(Completion(info)), at); }
    case Report(n, info, at) =>
      if n in w.runs { AttemptLifecycle(w, w.runs[n].id, Executing, RowState.Executed, Some(Completion(info)), at); }
    case Doubt(n, info, at) =>
      if n in w.runs { AttemptLifecycle(w, w.runs[n].id, Executing, Unknown, Some(Completion(info)), at); }
    case Withdraw(id, at) => AttemptLifecycle(w, id, Issued, RowState.Cancelled, None, at);
    case Recover(id, actor, at) => AttemptLifecycle(w, id, Executing, Unknown, Some(Interrupted(actor)), at);
    case Settle(id, outcome, actor, info, at) =>
      if outcome.Executed? || outcome.Failed? {
        AttemptLifecycle(w, id, Unknown, outcome, Some(Reconciliation(actor, outcome, info)), at);
      }
    case _ =>
  }

  lemma AttemptLifecycle(w: World, id: string, from: RowState, to: RowState, receipt: Option<Receipt>, now: int)
    requires Edge(from, to)
    ensures Lifecycle(w.db, Attempt(w, id, from, to, receipt, now).db)
  {
  }

  // ---- Over whole runs ------------------------------------------------------------------

  /** A database as a fresh set of brokers finds it. */
  ghost predicate Fresh(w: World) {
    w.runs == map[] && w.dispatches == [] && w.outstanding == [] && IssuedUnclaimed(w.db)
  }

  lemma {:induction false} EveryInterleavingIsConsistent(w: World, steps: seq<Step>)
    requires Consistent(w)
    ensures Consistent(Execute(w, steps))
    decreases |steps|
  {
    if steps != [] {
      ApplyKeepsConsistent(w, steps[0]);
      EveryInterleavingIsConsistent(Apply(w, steps[0]), steps[1..]);
    }
  }

  /** However brokers, operators, crashes and late projections interleave: each
      authorization's target is called at most once, by a run whose last check fell before the
      token's expiry, for the token's own requester and target; and its row is executing,
      executed, unknown, or failed by an operator's reconciliation. */
  lemma AtMostOnce(w: World, steps: seq<Step>)
    requires Fresh(w)
    ensures var d := Execute(w, steps).dispatches;
            && (forall i, j | 0 <= i < j < |d| :: d[i].id != d[j].id)
            && (forall i | 0 <= i < |d| ::
                  && DispatchOk(Execute(w, steps), d[i])
                  && d[i].token.claims.executionEnabled && !d[i].token.claims.simulationOnly
                  && MayHaveRun(Execute(w, steps).db.rows[d[i].id]))
  {
    EveryInterleavingIsConsistent(w, steps);
    ConsistentDispatches(Execute(w, steps));
  }

  lemma ConsistentDispatches(w: World)
    requires Consistent(w)
    ensures forall i, j | 0 <= i < j < |w.dispatches| :: w.dispatches[i].id != w.dispatches[j].id
    ensures forall i | 0 <= i < |w.dispatches| ::
              DispatchOk(w, w.dispatches[i]) && MayHaveRun(w.db.rows[w.dispatches[i].id])
  {
    forall i | 0 <= i < |w.dispatches|
      ensures DispatchOk(w, w.dispatches[i]) && MayHaveRun(w.db.rows[w.dispatches[i].id])
              && w.runs[w.dispatches[i].run].begun
    {
      assert DispatchOk(w, w.dispatches[i]);
      assert RunOk(w.db, w.runs[w.dispatches[i].run]);
    }
  }

  predicate WasCalled(w: World, id: string) {
    exists i | 0 <= i < |w.dispatches| :: w.dispatches[i].id == id
  }

  lemma {:induction false} ExecuteJoined(w: World, first: seq<Step>, second: seq<Step>)
    ensures Execute(w, first + second) == Execute(Execute(w, first), second)
    decreases |first|
  {
    if first == [] {
      assert first + second == second;
    } else {
      assert (first + second)[1..] == first[1..] + second;
      ExecuteJoined(Apply(w, first[0]), first[1..], second);
    }
  }

  // ---- What a call of a target was preceded by ------------------------------------------

  /** What run `n` has been through, in this order, by the end of `steps`: admitted under a live
      token, the row reserved, the recheck passed, the token found live again at `at`. */
  ghost predicate WasAdmitted(steps: seq<Step>, n: nat) {
    exists i | 0 <= i < |steps| :: steps[i].Admit? && steps[i].run == n && steps[i].live
  }

  ghost predicate ThenReserved(steps: seq<Step>, n: nat) {
    exists i | 0 <= i < |steps| :: steps[i].Begin? && steps[i].run == n && WasAdmitted(steps[..i], n)
  }

  ghost predicate ThenRechecked(steps: seq<Step>, n: nat) {
    exists i | 0 <= i < |steps| :: steps[i] == Recheck(n, true) && ThenReserved(steps[..i], n)
  }

  ghost predicate ThenCleared(steps: seq<Step>, n: nat, at: int) {
    exists i | 0 <= i < |steps| :: steps[i] == Clear(n, at, true) && ThenRechecked(steps[..i], n)
  }

  /** Where run `n` is tells what it has been through. */
  ghost predicate PathOk(w: World, steps: seq<Step>, n: nat) {
    && (n in w.runs ==>
          && (w.runs[n].pc.Admitted? ==> WasAdmitted(steps, n))
          && (w.runs[n].pc.Holding? ==> ThenReserved(steps, n))
          && (w.runs[n].pc.Rechecked? ==> ThenRechecked(steps, n))
          && (w.runs[n].pc.Cleared? ==> ThenCleared(steps, n, w.runs[n].pc.at)))
    && (forall i | 0 <= i < |w.dispatches| && w.dispatches[i].run == n ::
          ThenCleared(steps, n, w.dispatches[i].checkedAt))
  }

  lemma LongerPath(steps: seq<Step>, step: Step, n: nat)
    ensures WasAdmitted(steps, n) ==> WasAdmitted(steps + [step], n)
    ensures ThenReserved(steps, n) ==> ThenReserved(steps + [step], n)
    ensures ThenRechecked(steps, n) ==> ThenRechecked(steps + [step], n)
    ensures forall at | ThenCleared(steps, n, at) :: ThenCleared(steps + [step], n, at)
    ensures step.Admit? && step.run == n && step.live ==> WasAdmitted(steps + [step], n)
    ensures step.Begin? && step.run == n && WasAdmitted(steps, n) ==> ThenReserved(steps + [step], n)
    ensures step == Recheck(n, true) && ThenReserved(steps, n) ==> ThenRechecked(steps + [step], n)
    ensures step.Clear? && step.run == n && step.live && ThenRechecked(steps, n) ==>
              ThenCleared(steps + [step], n, step.at)
  {
    var longer := steps + [step];
    assert longer[..|steps|] == steps && longer[|steps|] == step;
    assert forall i | 0 <= i < |steps| :: longer[i] == steps[i] && longer[..i] == steps[..i];
  }

  /** How one step can move run `n` towards its call. */
  predicate Moves(w: World, w': World, step: Step, n: nat) {
    && (n in w'.runs && (n !in w.runs || w'.runs[n].pc != w.runs[n].pc) ==>
          var pc := w'.runs[n].pc;
          && (pc.Admitted? ==> step.Admit? && step.run == n && step.live)
          && (pc.Holding? ==> step.Begin? && step.run == n && n in w.runs && w.runs[n].pc.Admitted?)
          && (pc.Rechecked? ==> step == Recheck(n, true) && n in w.runs && w.runs[n].pc.Holding?)
          && (pc.Cleared? ==> step == Clear(n, pc.at, true) && n in w.runs && w.runs[n].pc.Rechecked?))
    && (w'.dispatches != w.dispatches ==>
          && |w'.dispatches| == |w.dispatches| + 1 && w'.dispatches[..|w.dispatches|] == w.dispatches
          && var d := w'.dispatches[|w.dispatches|];
             d.run in w.runs && w.runs[d.run].pc == Cleared(d.checkedAt))
  }

  lemma StepMoves(w: World, step: Step, n: nat)
    ensures Moves(w, Apply(w, step), step, n)
  {
    hide Begun, Recorded, RevokedFirst, Projected, ClaimsFit, Current, OnlySimulates;
  }

  lemma StepKeepsPath(w: World, steps: seq<Step>, step: Step, n: nat)
    requires PathOk(w, steps, n)
    ensures PathOk(Apply(w, step), steps + [step], n)
  {
    hide Apply, WasAdmitted, ThenReserved, ThenRechecked, ThenCleared;
    LongerPath(steps, step, n);
    StepMoves(w, step, n);
    var w' := Apply(w, step);
    forall i | 0 <= i < |w'.dispatches| && w'.dispatches[i].run == n
      ensures ThenCleared(steps + [step], n, w'.dispatches[i].checkedAt)
    {
      if i < |w.dispatches| {
        assert w'.dispatches[i] == w.dispatches[i] by { assert w'.dispatches[..|w.dispatches|] == w.dispatches; }
      }
    }
  }

  lemma {:induction false} StepsKeepPath(w: World, steps: seq<Step>, n: nat)
    requires n !in w.runs && forall i | 0 <= i < |w.dispatches| :: w.dispatches[i].run != n
    ensures PathOk(Execute(w, steps), steps, n)
    decreases |steps|
  {
    hide Apply;
    if steps != [] {
      var before, last := steps[..|steps| - 1], steps[|steps| - 1];
      assert steps == before + [last];
      StepsKeepPath(w, before, n);
      ExecuteJoined(w, before, [last]);
      assert [last][1..] == [];
      assert Execute(Execute(w, before), [last]) == Execute(Apply(Execute(w, before), last), []);
      StepKeepsPath(Execute(w, before), before, last, n);
    }
  }

  /** However runs interleave: before any target call its run was admitted under a live token,
      reserved the row, had its recheck passed, and found the token live again at the time
      recorded, in this order. */
  lemma DispatchFollowsChecks(w: World, steps: seq<Step>, i: nat)
    requires Fresh(w) && i < |Execute(w, steps).dispatches|
    ensures ThenCleared(steps, Execute(w, steps).dispatches[i].run, Execute(w, steps).dispatches[i].checkedAt)
  {
    StepsKeepPath(w, steps, Execute(w, steps).dispatches[i].run);
  }

  /** What a row says was done, was done: a simulated row's token asks for no real call, and
      the target of a row completed as executed was called. */
  ghost predicate Truthful(w: World, id: string) {
    id in w.db.rows ==>
      var row := w.db.rows[id];
      && (row.state.Simulated? ==> !row.token.claims.executionEnabled || row.token.claims.simulationOnly)
      && (row.state.Executed? && row.receipt.Some? && row.receipt.value.Completion? ==> WasCalled(w, id))
  }

  ghost predicate CallsRecorded(w: World) {
    forall n | n in w.runs && w.runs[n].dispatched :: WasCalled(w, w.runs[n].id)
  }

  /** Over every interleaving, whatever the operators add. */
  lemma {:induction false} RowsAreTruthful(w: World, steps: seq<Step>, id: string)
    requires Consistent(w) && CallsRecorded(w) && Truthful(w, id)
    ensures Truthful(Execute(w, steps), id) && CallsRecorded(Execute(w, steps))
    decreases |steps|
  {
    hide Consistent, CallsRecorded, Truthful, Apply;
    if steps != [] {
      ApplyKeepsConsistent(w, steps[0]);
      StepKeepsTruth(w, steps[0], id);
      RowsAreTruthful(Apply(w, steps[0]), steps[1..], id);
    }
  }

  lemma CalledStays(w: World, w': World)
    requires w.dispatches <= w'.dispatches
    ensures forall id | WasCalled(w, id) :: WasCalled(w', id)
  {
    forall id | WasCalled(w, id) ensures WasCalled(w', id) {
      var i :| 0 <= i < |w.dispatches| && w.dispatches[i].id == id;
      assert w'.dispatches[i].id == id;
    }
  }

  lemma StepKeepsTruth(w: World, step: Step, id: string)
    requires Consistent(w) && CallsRecorded(w) && Truthful(w, id)
    ensures Truthful(Apply(w, step), id) && CallsRecorded(Apply(w, step))
  {
    hide Consistent, CallsRecorded, Truthful, Apply, ClosesNone;
    StepRecordsCalls(w, step);
    if step.Simulate? || step.Report? {
      ClosingIsTrue(w, step, id);
    } else {
      OthersCloseNone(w, step, id);
      ClosesNoneKeepsTruth(w, Apply(w, step), id);
    }
  }

  lemma StepRecordsCalls(w: World, step: Step)
    requires CallsRecorded(w)
    ensures CallsRecorded(Apply(w, step)) && w.dispatches <= Apply(w, step).dispatches
  {
    hide Active, ClaimsFit, Recorded, Begun, RevokedFirst, Projected, WasCalled, Move;
    var w' := Apply(w, step);
    CalledStays(w, w');
    if step.CallTarget? && w' != w {
      assert w'.dispatches[|w.dispatches|].id == w.runs[step.run].id;
      CalledNow(w', |w.dispatches|);
    }
  }

  lemma ClosesNoneKeepsTruth(w: World, w': World, id: string)
    requires Truthful(w, id) && w.dispatches <= w'.dispatches && ClosesNone(w.db, w'.db, id)
    ensures Truthful(w', id)
  {
    hide WasCalled;
    CalledStays(w, w');
  }

  /** A simulated or reported outcome is that of the run that holds the row. */
  lemma ClosingIsTrue(w: World, step: Step, id: string)
    requires Consistent(w) && CallsRecorded(w) && Truthful(w, id) && (step.Simulate? || step.Report?)
    ensures Truthful(Apply(w, step), id)
  {
    hide Active, ClaimsFit, OneHolder, DispatchOk, WasCalled;
    var w' := Apply(w, step);
    CalledStays(w, w');
    if w' != w {
      assert RunOk(w.db, w.runs[step.run]);
    }
  }

  lemma OthersCloseNone(w: World, step: Step, id: string)
    requires !step.Simulate? && !step.Report?
    ensures ClosesNone(w.db, Apply(w, step).db, id)
  {
    hide Active, ClaimsFit, Recorded, Begun, RevokedFirst, Projected, Attempt, ClosesNone;
    SameRowsCloseNone(w.db, Apply(w, step).db, id);
    match step
    case Abort(n, info, at) =>
      if At(w, n, Aborting) {
        AttemptCloses(w, w.runs[n].id, Executing, RowState.Failed, Some(Completion(info)), at, id);
      }
    case Doubt(n, info, at) =>
      if At(w, n, Doubtful) { AttemptCloses(w, w.runs[n].id, Executing, Unknown, Some(Completion(info)), at, id); }
    case Withdraw(x, at) => AttemptCloses(w, x, Issued, RowState.Cancelled, None, at, id);
    case Recover(x, actor, at) => AttemptCloses(w, x, Executing, Unknown, Some(Interrupted(actor)), at, id);
    case Settle(x, outcome, actor, info, at) =>
      if outcome.Executed? || outcome.Failed? {
        AttemptCloses(w, x, Unknown, outcome, Some(Reconciliation(actor, outcome, info)), at, id);
      }
    case Record(token, snapshot) => RecordedRows(w.db, token, snapshot, id);
    case Begin(n, at) => if At(w, n, Admitted) { BegunRows(w.db, w.runs[n].id, w.runs[n].consumer, at, id); }
    case RevokeAll(ids, actor, at) => RevokedRows(w.db, ids, |ids|, actor, at, id);
    case DoProjection(i) =>
      if i < |w.outstanding| && w.outstanding[i].id in w.db.rows {
        var p := w.outstanding[i];
        ProjectedRows(w.db, p.id, p.state, p.receipt, p.now, id);
      }
    case _ =>
  }

  lemma CalledNow(w: World, i: nat)
    requires i < |w.dispatches|
    ensures WasCalled(w, w.dispatches[i].id)
  {
  }

  /** The row is not closed here as simulated, nor as executed but by a reconciliation. */
  ghost predicate ClosesNone(before: Db, after: Db, id: string) {
    id in after.rows && (after.rows[id].state.Simulated? || after.rows[id].state.Executed?) ==>
      || (id in before.rows && after.rows[id].state == before.rows[id].state
          && after.rows[id].token == before.rows[id].token && after.rows[id].receipt == before.rows[id].receipt)
      || (after.rows[id].state.Executed? && after.rows[id].receipt.Some?
          && after.rows[id].receipt.value.Reconciliation?)
  }

  lemma SameRowsCloseNone(before: Db, after: Db, id: string)
    ensures after.rows == before.rows ==> ClosesNone(before, after, id)
  {
  }

  lemma AttemptCloses(w: World, x: string, from: RowState, to: RowState, receipt: Option<Receipt>, at: int, id: string)
    requires !to.Simulated? && (to.Executed? ==> receipt.Some? && receipt.value.Reconciliation?)
    ensures ClosesNone(w.db, Attempt(w, x, from, to, receipt, at).db, id)
  {
  }

  lemma RecordedRows(db: Db, token: Token, snapshot: Snapshot, id: string)
    ensures ClosesNone(db, Recorded(db, token, snapshot).db, id)
  {
  }

  lemma BegunRows(db: Db, x: string, consumer: string, at: int, id: string)
    ensures ClosesNone(db, Begun(db, x, consumer, at).db, id)
  {
  }

  lemma ProjectedRows(db: Db, x: string, state: RowState, receipt: Option<Receipt>, now: int, id: string)
    requires x in db.rows
    ensures ClosesNone(db, Projected(db, x, state, receipt, now), id)
  {
  }

  lemma {:induction false} RevokedRows(db: Db, ids: seq<string>, k: nat, actor: string, at: int, id: string)
    requires k <= |ids|
    ensures ClosesNone(db, RevokedFirst(db, ids, k, actor, at), id)
  {
    if k > 0 {
      RevokedRows(db, ids, k - 1, actor, at, id);
    }
  }

  /** A row that `complete` closed as failed or simulated, or that was cancelled or expired:
      its target has not been called, and no continuation ever calls it. */
  lemma ClosedRowsAreNeverCalled(w: World, steps: seq<Step>, id: string)
    requires Consistent(w) && id in w.db.rows && Final(w.db.rows[id].state) && !MayHaveRun(w.db.rows[id])
    ensures !WasCalled(Execute(w, steps), id)
    ensures id in Execute(w, steps).db.rows
    ensures Execute(w, steps).db.rows[id].state == w.db.rows[id].state
  {
    EveryInterleavingIsConsistent(w, steps);
    FinalRowsStay(w, steps, id);
    ConsistentDispatches(Execute(w, steps));
  }

  predicate Final(state: RowState) {
    !state.Issued? && !state.Executing? && !state.Unknown?
  }

  lemma {:induction false} FinalRowsStay(w: World, steps: seq<Step>, id: string)
    requires Consistent(w) && id in w.db.rows && Final(w.db.rows[id].state)
    ensures id in Execute(w, steps).db.rows
    ensures Execute(w, steps).db.rows[id].state == w.db.rows[id].state
    ensures Execute(w, steps).db.rows[id].receipt == w.db.rows[id].receipt
    decreases |steps|
  {
    if steps != [] {
      var w' := Apply(w, steps[0]);
      StepsFollowLifecycle(w, steps[0]);
      assert RowStep(w.db.rows[id], w'.db.rows[id]);
      ApplyKeepsConsistent(w, steps[0]);
      FinalRowsStay(w', steps[1..], id);
    }
  }

  /** Snapshots agree with rows on one connection only. With several, from any executing row:
      a recovery's projection that runs after the reconciliation's leaves the snapshot at
      `outcome_unknown` although the row is executed. */
  lemma LateProjectionGoesStale(w: World, id: string)
    requires id in w.db.rows && w.db.rows[id].state.Executing? && Names(Base(w.db, id), id)
    ensures var k := |w.outstanding|;
            var w' := Execute(w, [Recover(id, "operator", 1), Settle(id, RowState.Executed, "operator", Null, 2),
                                  DoProjection(k + 1), DoProjection(k)]);
            && id in w'.db.rows
            && w'.db.rows[id].state == RowState.Executed
            && w'.db.rows[id].snapshot.state == PublicState.OutcomeUnknown
            && w'.outstanding == w.outstanding
  {
    hide Apply, Execute, Base, Names;
    var k := |w.outstanding|;
    var steps := [Recover(id, "operator", 1), Settle(id, RowState.Executed, "operator", Null, 2),
                  DoProjection(k + 1), DoProjection(k)];
    var w2 := RecoverThenSettle(w, id);
    ReversedProjections(w2, w.outstanding, Interruption(id), Settlement(id));
    ExecuteFour(w, steps);
  }

  function Interruption(id: string): Projection { Projection(id, Unknown, Some(Interrupted("operator")), 1) }

  function Settlement(id: string): Projection {
    Projection(id, RowState.Executed, Some(Reconciliation("operator", RowState.Executed, Null)), 2)
  }

  lemma RecoverThenSettle(w: World, id: string) returns (w2: World)
    requires id in w.db.rows && w.db.rows[id].state.Executing? && Names(Base(w.db, id), id)
    ensures w2 == Apply(Apply(w, Recover(id, "operator", 1)), Settle(id, RowState.Executed, "operator", Null, 2))
    ensures w2.outstanding == w.outstanding + [Interruption(id), Settlement(id)]
    ensures id in w2.db.rows && w2.db.rows[id].state == RowState.Executed && Names(Base(w2.db, id), id)
  {
    var w1 := Apply(w, Recover(id, "operator", 1));
    assert w1.outstanding == w.outstanding + [Interruption(id)];
    w2 := Apply(w1, Settle(id, RowState.Executed, "operator", Null, 2));
  }

  /** Two outstanding projections of one row run in reverse: the snapshot shows the first. */
  lemma ReversedProjections(w: World, earlier: seq<Projection>, p: Projection, q: Projection)
    requires w.outstanding == earlier + [p, q] && p.id == q.id && p.id in w.db.rows && Names(Base(w.db, p.id), p.id)
    ensures var w' := Apply(Apply(w, DoProjection(|earlier| + 1)), DoProjection(|earlier|));
            && w'.outstanding == earlier
            && p.id in w'.db.rows && w'.db.rows[p.id].state == w.db.rows[p.id].state
            && Shows(w'.db.rows[p.id].snapshot, p.id, p.state)
  {
    hide Begun, Recorded, RevokedFirst, Projected, Transition, Attempt, OthersKept, Base, Names, Shows;
    var k := |earlier|;
    var w1 := Apply(w, DoProjection(k + 1));
    ProjectionShows(w.db, q.id, q.state, q.receipt, q.now);
    assert w1.outstanding == earlier + [p];
    assert w1.outstanding[..k] + w1.outstanding[k + 1..] == earlier;
    ProjectionShows(w1.db, p.id, p.state, p.receipt, p.now);
  }

  lemma ExecuteFour(w: World, steps: seq<Step>)
    requires |steps| == 4
    ensures Execute(w, steps) == Apply(Apply(Apply(Apply(w, steps[0]), steps[1]), steps[2]), steps[3])
  {
    var w1 := Apply(w, steps[0]);
    var w2 := Apply(w1, steps[1]);
    var w3 := Apply(w2, steps[2]);
    var w4 := Apply(w3, steps[3]);
    var s1, s2, s3, s4 := steps[1..], steps[2..], steps[3..], steps[4..];
    assert s1[1..] == s2 && s2[1..] == s3 && s3[1..] == s4;
    assert Execute(w4, s4) == w4;
    assert Execute(w3, s3) == Execute(w4, s4);
    assert Execute(w2, s2) == Execute(w3, s3);
    assert Execute(w1, s1) == Execute(w2, s2);
  }

  // ---- When late projections leave snapshots current ---------------------------------------

  /** Exactly when a projection, run at whatever time, leaves the snapshot showing its row: the
      state it carries must still be the row's. One that reaches nothing changes nothing. */
  lemma ProjectionShowsIff(w: World, i: nat)
    requires i < |w.outstanding| && w.outstanding[i].id in w.db.rows
    requires Names(w.db.rows[w.outstanding[i].id].snapshot, w.outstanding[i].id)
    ensures var p := w.outstanding[i];
            var before, after := w.db.rows[p.id], Apply(w, DoProjection(i)).db.rows;
            && p.id in after && after[p.id].state == before.state
            && (Shows(after[p.id].snapshot, p.id, before.state) <==>
                  if Named(w.db, p.id) then p.state == before.state else Shows(before.snapshot, p.id, before.state))
  {
    hide Begun, Recorded, RevokedFirst, Projected, Transition, Attempt;
    var p := w.outstanding[i];
    ProjectionShows(w.db, p.id, p.state, p.receipt, p.now);
    assert Apply(w, DoProjection(i)).db == Projected(w.db, p.id, p.state, p.receipt, p.now);
    DistinctPublic(p.state, w.db.rows[p.id].state);
  }

  lemma DistinctPublic(a: RowState, b: RowState)
    ensures ReadsAs(Public(a), b) <==> a == b
  {
  }

  /** The state the last outstanding projection of `id` carries. */
  function LastFor(out: seq<Projection>, id: string): Option<RowState> {
    if out == [] then None
    else if out[|out| - 1].id == id then Some(out[|out| - 1].state)
    else LastFor(out[..|out| - 1], id)
  }

  lemma {:induction false} LastForIsOutstanding(out: seq<Projection>, id: string)
    ensures LastFor(out, id).Some? <==> exists j | 0 <= j < |out| :: out[j].id == id
    ensures LastFor(out, id).Some? ==>
              exists j | 0 <= j < |out| :: out[j].id == id && out[j].state == LastFor(out, id).value
  {
    if out != [] && out[|out| - 1].id != id {
      var before := out[..|out| - 1];
      LastForIsOutstanding(before, id);
      if j :| 0 <= j < |out| && out[j].id == id { assert before[j].id == id; }
      if LastFor(before, id).Some? {
        var j :| 0 <= j < |before| && before[j].id == id && before[j].state == LastFor(before, id).value;
        assert out[j].id == id && out[j].state == LastFor(out, id).value;
      }
    }
  }

  function Without(out: seq<Projection>, i: nat): seq<Projection>
    requires i < |out|
  {
    out[..i] + out[i + 1..]
  }

  lemma WithoutLast(out: seq<Projection>, i: nat)
    requires i < |out| - 1
    ensures var n := |out| - 1;
            Without(out, i)[|Without(out, i)| - 1] == out[n]
            && Without(out, i)[..|Without(out, i)| - 1] == Without(out[..n], i)
  {
  }

  /** Taking one projection out does not matter to another row. */
  lemma {:induction false} LastForOther(out: seq<Projection>, i: nat, id: string)
    requires i < |out| && out[i].id != id
    ensures LastFor(Without(out, i), id) == LastFor(out, id)
  {
    var n := |out| - 1;
    if i == n {
      assert Without(out, i) == out[..n];
    } else {
      WithoutLast(out, i);
      LastForOther(out[..n], i, id);
    }
  }

  /** Nor to its own, while a later one is outstanding. */
  lemma {:induction false} LastForLater(out: seq<Projection>, i: nat, j: nat)
    requires i < j < |out| && out[j].id == out[i].id
    ensures LastFor(Without(out, i), out[i].id) == LastFor(out, out[i].id)
  {
    var n := |out| - 1;
    WithoutLast(out, i);
    if out[n].id != out[i].id {
      LastForLater(out[..n], i, j);
    }
  }

  /** The last of its row: the ones before it are left. */
  lemma {:induction false} LastForFinal(out: seq<Projection>, i: nat)
    requires i < |out| && forall j | i < j < |out| :: out[j].id != out[i].id
    ensures LastFor(out, out[i].id) == Some(out[i].state)
    ensures LastFor(Without(out, i), out[i].id) == LastFor(out[..i], out[i].id)
  {
    var n := |out| - 1;
    if i == n {
      assert Without(out, i) == out[..n];
    } else {
      WithoutLast(out, i);
      assert out[..n][..i] == out[..i];
      LastForFinal(out[..n], i);
    }
  }

  /** Rows and outstanding projections agree: what is still to come ends at the row's state. */
  ghost predicate InStep(w: World) {
    && (forall id | id in w.db.rows :: Kept(w.db, id, LastFor(w.outstanding, id)))
    && (forall j | 0 <= j < |w.outstanding| :: w.outstanding[j].id in w.db.rows && !w.outstanding[j].state.Issued?)
  }

  /** Projections of one row run in the order of their updates, and none is dropped. */
  predicate InOrder(w: World, step: Step) {
    match step
    case DoProjection(i) => i < |w.outstanding| ==> forall j | 0 <= j < i :: w.outstanding[j].id != w.outstanding[i].id
    case DropProjection(i) => i >= |w.outstanding|
    case _ => true
  }

  ghost predicate InOrderAlong(w: World, steps: seq<Step>)
    decreases |steps|
  {
    steps != [] ==> InOrder(w, steps[0]) && InOrderAlong(Apply(w, steps[0]), steps[1..])
  }

  lemma InStepNames(w: World)
    requires InStep(w)
    ensures forall id | id in w.db.rows :: Names(w.db.rows[id].snapshot, id)
  {
    forall id | id in w.db.rows ensures Names(w.db.rows[id].snapshot, id) {
      assert Kept(w.db, id, LastFor(w.outstanding, id));
    }
  }

  /** One row was changed and projected at once; nothing of it was outstanding, or the state is
      the one outstanding projections end at. */
  lemma OneRowInStep(w: World, w': World, id: string)
    requires InStep(w) && w'.outstanding == w.outstanding && OthersKept(w.db, w'.db, id)
    requires w.db.rows.Keys <= w'.db.rows.Keys <= w.db.rows.Keys + {id}
    requires id in w'.db.rows ==> Kept(w'.db, id, None)
    requires id in w'.db.rows && Named(w'.db, id) && LastFor(w.outstanding, id).Some? ==>
               LastFor(w.outstanding, id).value == w'.db.rows[id].state
    ensures InStep(w')
  {
    hide Kept, OthersKept, Named, LastFor;
    forall x | x in w'.db.rows ensures Kept(w'.db, x, LastFor(w'.outstanding, x)) {
      if x == id {
        PendingKept(w'.db, id, LastFor(w.outstanding, id));
      } else {
        OtherRowKept(w.db, w'.db, id, x, LastFor(w.outstanding, x));
      }
    }
  }

  lemma PendingKept(db: Db, id: string, pending: Option<RowState>)
    requires id in db.rows && Kept(db, id, None)
    requires Named(db, id) && pending.Some? ==> pending.value == db.rows[id].state
    ensures Kept(db, id, pending)
  {
  }

  /** An issued row has nothing outstanding that reaches it. */
  lemma IssuedHasNone(w: World, id: string)
    requires InStep(w) && id in w.db.rows && w.db.rows[id].state.Issued? && Named(w.db, id)
    ensures LastFor(w.outstanding, id).None?
  {
    assert Kept(w.db, id, LastFor(w.outstanding, id));
    LastForIsOutstanding(w.outstanding, id);
  }

  lemma MoveInStep(w: World, id: string, from: RowState, to: RowState, receipt: Option<Receipt>, now: int)
    requires InStep(w) && from.Issued?
    ensures InStep(w.(db := MoveAndProject(w.db, id, from, to, receipt, now).db))
  {
    hide MoveAndProject, Kept, OthersKept, Named;
    InStepNames(w);
    MoveThenProject(w.db, id, from, to, receipt, now);
    var after := MoveAndProject(w.db, id, from, to, receipt, now).db;
    if after != w.db {
      if Named(after, id) { IssuedHasNone(w, id); }
      OneRowInStep(w, w.(db := after), id);
    } else {
      assert w.(db := after) == w;
    }
  }

  lemma {:induction false} RevocationInStep(w: World, ids: seq<string>, k: nat, actor: string, now: int)
    requires InStep(w) && k <= |ids|
    ensures InStep(w.(db := RevokedFirst(w.db, ids, k, actor, now)))
  {
    hide InStep, MoveAndProject;
    if k > 0 {
      RevocationInStep(w, ids, k - 1, actor, now);
      MoveInStep(w.(db := RevokedFirst(w.db, ids, k - 1, actor, now)), ids[k - 1], Issued, RowState.Cancelled,
        Some(Revocation(actor)), now);
    } else {
      assert w.(db := RevokedFirst(w.db, ids, k, actor, now)) == w;
    }
  }

  lemma BegunInStep(w: World, id: string, consumer: string, now: int)
    requires InStep(w)
    ensures InStep(w.(db := Begun(w.db, id, consumer, now).db))
  {
    hide MoveAndProject, Projected, Kept, OthersKept, Named;
    InStepNames(w);
    MoveInStep(w, id, Issued, RowState.Expired, None, now);
    var after := Begun(w.db, id, consumer, now).db;
    if Begun(w.db, id, consumer, now).Stored? {
      var row := w.db.rows[id].(state := Executing, consumer := Some(consumer), updatedAt := now);
      ChangeThenProject(w.db, id, row, None, now);
      if Named(after, id) { IssuedHasNone(w, id); }
      OneRowInStep(w, w.(db := after), id);
    } else if after == w.db {
      assert w.(db := after) == w;
    }
  }

  lemma RecordedInStep(w: World, token: Token, s: Snapshot)
    requires InStep(w)
    ensures InStep(w.(db := Recorded(w.db, token, s).db))
  {
    hide Projected, Kept, OthersKept, Named;
    InStepNames(w);
    var id := token.claims.authorizationId;
    var after := Recorded(w.db, token, s).db;
    LastForIsOutstanding(w.outstanding, id);
    if after == w.db {
      assert w.(db := after) == w;
    } else if id !in w.db.rows {
      RecordThenProject(w.db, token, s);
      OneRowInStep(w, w.(db := after), id);
    } else {
      var row := w.db.rows[id];
      ChangeThenProject(w.db, id, row, row.receipt, row.updatedAt);
      assert w.db.(rows := w.db.rows[id := row]) == w.db;
      if Named(after, id) { ReachedAgrees(w, id); }
      OneRowInStep(w, w.(db := after), id);
    }
  }

  lemma ReachedAgrees(w: World, id: string)
    requires InStep(w) && id in w.db.rows && Named(w.db, id)
    ensures LastFor(w.outstanding, id).Some? ==> LastFor(w.outstanding, id).value == w.db.rows[id].state
  {
    assert Kept(w.db, id, LastFor(w.outstanding, id));
  }

  /** A conditional update leaves its own projection last. */
  lemma AttemptInStep(w: World, id: string, from: RowState, to: RowState, receipt: Option<Receipt>, now: int)
    requires InStep(w) && !to.Issued?
    ensures InStep(Attempt(w, id, from, to, receipt, now))
  {
    var w' := Attempt(w, id, from, to, receipt, now);
    if w' != w {
      var p := Projection(id, to, receipt, now);
      OutstandingLast(w, w', p);
    }
  }

  lemma OutstandingLast(w: World, w': World, p: Projection)
    requires InStep(w) && p.id in w.db.rows && !p.state.Issued?
    requires w'.outstanding == w.outstanding + [p] && w'.db.requests == w.db.requests && p.id in w'.db.rows
    requires w'.db.rows == w.db.rows[p.id := w.db.rows[p.id].(state := p.state, updatedAt := w'.db.rows[p.id].updatedAt,
                                                              receipt := w'.db.rows[p.id].receipt)]
    ensures InStep(w')
  {
    assert w'.outstanding[..|w.outstanding|] == w.outstanding;
    forall x | x in w'.db.rows ensures Kept(w'.db, x, LastFor(w'.outstanding, x)) {
      assert Kept(w.db, x, LastFor(w.outstanding, x));
      assert Named(w'.db, x) <==> Named(w.db, x);
    }
  }

  lemma ProjectionInStep(w: World, i: nat)
    requires InStep(w) && InOrder(w, DoProjection(i)) && i < |w.outstanding|
    ensures InStep(Apply(w, DoProjection(i)))
  {
    hide Begun, Recorded, RevokedFirst, Projected, Transition, Attempt, Names, Kept, OthersKept, Named;
    var p := w.outstanding[i];
    var w' := Apply(w, DoProjection(i));
    ProjectionShows(w.db, p.id, p.state, p.receipt, p.now);
    assert w'.outstanding == Without(w.outstanding, i);
    forall x | x in w'.db.rows ensures Kept(w'.db, x, LastFor(w'.outstanding, x)) {
      assert Kept(w.db, x, LastFor(w.outstanding, x));
      FirstTaken(w.outstanding, i, x);
      if x == p.id {
        ProjectedRowKept(w.db, w'.db, p, LastFor(w.outstanding, x), LastFor(w'.outstanding, x));
      } else {
        OtherRowKept(w.db, w'.db, p.id, x, LastFor(w.outstanding, x));
      }
    }
  }

  /** Taking out the first projection of a row. */
  lemma FirstTaken(out: seq<Projection>, i: nat, id: string)
    requires i < |out| && forall j | 0 <= j < i :: out[j].id != out[i].id
    ensures out[i].id != id ==> LastFor(Without(out, i), id) == LastFor(out, id)
    ensures out[i].id == id ==>
              && LastFor(out, id).Some?
              && (LastFor(Without(out, i), id) == LastFor(out, id)
                   || (LastFor(Without(out, i), id).None? && LastFor(out, id) == Some(out[i].state)))
  {
    if out[i].id != id {
      LastForOther(out, i, id);
    } else if j: nat :| i < j < |out| && out[j].id == id {
      LastForLater(out, i, j);
      LastForIsOutstanding(out, id);
    } else {
      LastForFinal(out, i);
      LastForIsOutstanding(out[..i], id);
    }
  }

  lemma OtherRowKept(db: Db, after: Db, id: string, x: string, pending: Option<RowState>)
    requires OthersKept(db, after, id) && x in db.rows && x != id && Kept(db, x, pending)
    ensures x in after.rows && Kept(after, x, pending)
  {
  }

  /** The first projection of a row: it was the last too, or the last is still to come. */
  lemma ProjectedRowKept(db: Db, after: Db, p: Projection, pending: Option<RowState>, left: Option<RowState>)
    requires p.id in db.rows && after == Projected(db, p.id, p.state, p.receipt, p.now) && Kept(db, p.id, pending)
    requires left == pending || (left.None? && pending == Some(p.state))
    requires pending.Some?
    ensures p.id in after.rows && Kept(after, p.id, left)
  {
    hide Projected;
    ProjectionShows(db, p.id, p.state, p.receipt, p.now);
    assert Named(db, p.id) ==> Names(after.rows[p.id].snapshot, p.id);
  }

  predicate RunOnly(step: Step) {
    step.Launch? || step.Load? || step.Admit? || step.Recheck? || step.Clear? || step.CallTarget? || step.Return?
    || step.ReportFails? || step.Crash?
  }

  lemma RunOnlyTouches(w: World, step: Step)
    requires RunOnly(step)
    ensures Apply(w, step).db == w.db && Apply(w, step).outstanding == w.outstanding
  {
    hide Begun, Recorded, RevokedFirst, Projected, Transition, Attempt, Active, ClaimsFit, OnlySimulates;
  }

  /** A step that only moves runs besides `mid`. */
  lemma SameTables(w: World, w': World)
    requires InStep(w) && w'.db == w.db && w'.outstanding == w.outstanding
    ensures InStep(w')
  {
  }

  lemma ApplyKeepsInStep(w: World, step: Step)
    requires InStep(w) && InOrder(w, step)
    ensures InStep(Apply(w, step))
  {
    hide InStep, Begun, Recorded, RevokedFirst, Projected, Transition, Active, ClaimsFit, OnlySimulates;
    if RunOnly(step) {
      RunOnlyTouches(w, step);
      SameTables(w, Apply(w, step));
    } else if step.Abort? || step.Simulate? || step.Report? || step.Doubt? {
      ClosingInStep(w, step);
    } else {
      match step {
        case Record(token, s) => RecordedInStep(w, token, s);
        case Begin(n, at) =>
          if At(w, n, Admitted) {
            var mid := w.(db := Begun(w.db, w.runs[n].id, w.runs[n].consumer, at).db);
            BegunInStep(w, w.runs[n].id, w.runs[n].consumer, at);
            SameTables(mid, Apply(w, step));
          }
        case Withdraw(id, at) => WithdrawInStep(w, id, at);
        case Recover(id, actor, at) => AttemptInStep(w, id, Executing, Unknown, Some(Interrupted(actor)), at);
        case Settle(id, outcome, actor, info, at) =>
          if outcome.Executed? || outcome.Failed? {
            AttemptInStep(w, id, Unknown, outcome, Some(Reconciliation(actor, outcome, info)), at);
          }
        case RevokeAll(ids, actor, at) => RevocationInStep(w, ids, |ids|, actor, at);
        case DoProjection(i) => if i < |w.outstanding| { ProjectionInStep(w, i); }
        case DropProjection(_) =>
      }
    }
  }

  lemma WithdrawInStep(w: World, id: string, at: int)
    requires InStep(w)
    ensures InStep(Apply(w, Withdraw(id, at)))
  {
    if id in w.db.rows && w.db.rows[id].state.Cancelled? {
      var w' := Apply(w, Withdraw(id, at));
      assert w.db.rows == w.db.rows[id := w.db.rows[id]];
      OutstandingLast(w, w', Projection(id, RowState.Cancelled, None, at));
    } else {
      AttemptInStep(w, id, Issued, RowState.Cancelled, None, at);
    }
  }

  lemma ClosingInStep(w: World, step: Step)
    requires InStep(w) && (step.Abort? || step.Simulate? || step.Report? || step.Doubt?)
    ensures InStep(Apply(w, step))
  {
    hide InStep, Transition, OnlySimulates;
    var n := step.run;
    if Apply(w, step) == w {
      return;
    }
    var to := if step.Abort? then RowState.Failed else if step.Simulate? then RowState.Simulated
              else if step.Report? then RowState.Executed else Unknown;
    AttemptInStep(w, w.runs[n].id, Executing, to, Some(Completion(step.info)), step.at);
    SameTables(Attempt(w, w.runs[n].id, Executing, to, Some(Completion(step.info)), step.at), Apply(w, step));
  }

  lemma {:induction false} OrderedStepsKeepInStep(w: World, steps: seq<Step>)
    requires InStep(w) && InOrderAlong(w, steps)
    ensures InStep(Execute(w, steps))
    decreases |steps|
  {
    hide Apply, InOrder, InStep;
    if steps != [] {
      ApplyKeepsInStep(w, steps[0]);
      OrderedStepsKeepInStep(Apply(w, steps[0]), steps[1..]);
    }
  }

  /** However runs and operators interleave, if the projections of each row run in the order of
      their updates and none is dropped, every row that projections reach and that has none
      outstanding shows its state. */
  lemma OrderedProjectionsStayCurrent(w: World, steps: seq<Step>, id: string)
    requires CurrentWhereNamed(w.db) && w.outstanding == [] && InOrderAlong(w, steps)
    requires id in Execute(w, steps).db.rows && Named(Execute(w, steps).db, id)
    requires forall j | 0 <= j < |Execute(w, steps).outstanding| :: Execute(w, steps).outstanding[j].id != id
    ensures Shows(Execute(w, steps).db.rows[id].snapshot, id, Execute(w, steps).db.rows[id].state)
  {
    hide Execute, InOrderAlong;
    assert InStep(w);
    OrderedStepsKeepInStep(w, steps);
    SettledRowShows(Execute(w, steps), id);
  }

  lemma SettledRowShows(w: World, id: string)
    requires InStep(w) && id in w.db.rows && Named(w.db, id)
    requires forall j | 0 <= j < |w.outstanding| :: w.outstanding[j].id != id
    ensures Shows(w.db.rows[id].snapshot, id, w.db.rows[id].state)
  {
    LastForIsOutstanding(w.outstanding, id);
    assert Kept(w.db, id, LastFor(w.outstanding, id));
  }
}
