/** The broker as an object that consumes one authorization at a time, and its place in the
    concurrent protocol: one call, with whatever operators do to the store while its callbacks
    run and wherever its store calls raise, is one run of the protocol, step for step. */
module Brokers {
  import opened JsonValues
  import opened Claims
  import opened AuthorizationStore
  import P = ConsumptionProtocol

  /** Where a store call raises a database error: before its update, between the update and the
      projection, or when all is written. A raise inside a transaction leaves nothing of it. */
  datatype Fate = Works | FailsFirst(error: string) | FailsUpdated(error: string) | FailsLast(error: string)

  /** A store call: the clock read for it, and its fate. */
  datatype Write = Write(at: int, fate: Fate)

  /** A verification: the clock read for it, what happens to the store while the revocation
      checker runs, and whether that answers yes. */
  datatype Check = Check(at: int, meanwhile: seq<StoreCall>, live: bool)

  datatype Reply = Returns(value: Json) | Raises(error: string)

  /** The recheck or the target: what happens to the store while it runs, and what comes of it. */
  datatype Host = Host(meanwhile: seq<StoreCall>, reply: Reply)

  /** Everything outside the broker during one call, in program order. */
  datatype Script = Script(
    admit: Check, begin: Write, recheck: Host, clear: Check, target: Host, complete: Write, doubt: Write)

  datatype Verdict =
    | Unavailable | NotAuthorized | NotConsumable | RefusedBeforeDispatch | NotExecuting | StoreRaised
    | OnlySimulated(receipt: Json) | Done(receipt: Json) | InDoubt

  // ---- The receipts -------------------------------------------------------------------------------

  function FailureReceipt(error: string): Json {
    Obj(map["error_type" := Str(error), "phase" := Str("pre_dispatch")])
  }

  function DoubtReceipt(error: string, contract: string): Json {
    Obj(map["error_type" := Str(error), "phase" := Str("post_dispatch"), "outcome_contract" := Str(contract)])
  }

  function SimulationReceipt(issuer: string, checked: Json, contract: string): Json {
    Obj(map["authority" := Str(issuer), "recheck" := checked, "target_called" := Bool(false),
            "outcome_contract" := Str(contract)])
  }

  function ExecutionReceipt(issuer: string, checked: Json, contract: string, result: Json): Json {
    Obj(map["authority" := Str(issuer), "recheck" := checked, "target_called" := Bool(true),
            "outcome_contract" := Str(contract), "result" := result])
  }

  // ---- One call as a function -----------------------------------------------------------------------

  datatype End = Written | NotRunning | Broke(error: string)

  datatype Closing = Closing(db: Db, end: End)

  /** `complete` or `mark_unknown`. */
  function Close(db: Db, id: string, to: RowState, info: Json, write: Write): Closing {
    if write.fate.FailsFirst? then Closing(db, Broke(write.fate.error))
    else
      match Move(db, id, Executing, to, Some(Completion(info)), write.at)
      case None => Closing(db, NotRunning)
      case Some(moved) =>
        if write.fate.FailsUpdated? then Closing(moved, Broke(write.fate.error))
        else Closing(Projected(moved, id, to, Some(Completion(info)), write.at),
                     if write.fate.Works? then Written else Broke(write.fate.error))
  }

  /** What a refused update raises. */
  const AUTHORIZATION_ERROR := "AuthorizationError"

  function ErrorOf(end: End): string {
    if end.Broke? then end.error else AUTHORIZATION_ERROR
  }

  /** The store after a verification: its checker runs only if the token is current. */
  function AfterCheck(b: P.Broker, db: Db, token: Token, check: Check): Db {
    if P.Current(b, token, check.at) then AfterStoreCalls(db, check.meanwhile) else db
  }

  datatype Entry = Stopped(db: Db, verdict: Verdict) | Held(db: Db)

  /** Up to the reservation of the row. */
  function Enter(b: P.Broker, db: Db, id: string, consumer: string, token: Token, sc: Script): Entry {
    var asked := AfterCheck(b, db, token, sc.admit);
    if !P.Active(b, token, sc.admit.at, sc.admit.live)
       || !P.ClaimsFit(P.Run(b, id, consumer, Some(token), P.Loaded, false, false), token.claims)
    then Stopped(asked, NotAuthorized)
    else if sc.begin.fate.FailsFirst? || sc.begin.fate.FailsUpdated? then Stopped(asked, StoreRaised)
    else
      match Begun(asked, id, consumer, sc.begin.at)
      case Refused(db') => Stopped(db', NotConsumable)
      case Stored(db') => if sc.begin.fate.Works? then Held(db') else Stopped(db', StoreRaised)
  }

  predicate Eligible(reply: Reply) {
    reply.Returns? && reply.value.Obj? && "eligible" in reply.value.members
      && reply.value.members["eligible"] == Bool(true)
  }

  datatype Checked = Rejected(db: Db, error: string) | Cleared(db: Db)

  /** The recheck and the second verification. */
  function CheckAgain(b: P.Broker, db: Db, token: Token, sc: Script): Checked {
    var rechecked := AfterStoreCalls(db, sc.recheck.meanwhile);
    if !Eligible(sc.recheck.reply) then
      Rejected(rechecked, if sc.recheck.reply.Raises? then sc.recheck.reply.error else AUTHORIZATION_ERROR)
    else
      var asked := AfterCheck(b, rechecked, token, sc.clear);
      if P.Active(b, token, sc.clear.at, sc.clear.live) then Cleared(asked) else Rejected(asked, AUTHORIZATION_ERROR)
  }

  /** The database after the call, whether the target was called, and the verdict. */
  datatype Consumption = Consumption(db: Db, called: bool, verdict: Verdict)

  function Doubted(db: Db, id: string, error: string, contract: string, sc: Script): Consumption {
    Consumption(Close(db, id, Unknown, DoubtReceipt(error, contract), sc.doubt).db, true, InDoubt)
  }

  /** From the target call on. */
  function CallTarget(b: P.Broker, db: Db, id: string, contract: string, sc: Script): Consumption
    requires sc.recheck.reply.Returns?
  {
    var called := AfterStoreCalls(db, sc.target.meanwhile);
    match sc.target.reply
    case Raises(error) => Doubted(called, id, error, contract, sc)
    case Returns(result) =>
      if !result.Obj? then Doubted(called, id, AUTHORIZATION_ERROR, contract, sc)
      else
        var receipt := ExecutionReceipt(b.issuer, sc.recheck.reply.value, contract, result);
        var closing := Close(called, id, RowState.Executed, receipt, sc.complete);
        if closing.end.Written? then Consumption(closing.db, true, Done(receipt))
        else Doubted(closing.db, id, ErrorOf(closing.end), contract, sc)
  }

  function Simulate(b: P.Broker, db: Db, id: string, contract: string, sc: Script): Consumption
    requires sc.recheck.reply.Returns?
  {
    var receipt := SimulationReceipt(b.issuer, sc.recheck.reply.value, contract);
    var closing := Close(db, id, RowState.Simulated, receipt, sc.complete);
    Consumption(closing.db, false,
                match closing.end
                case Written => OnlySimulated(receipt)
                case NotRunning => NotExecuting
                case Broke(_) => StoreRaised)
  }

  function Refuse(db: Db, id: string, error: string, sc: Script): Consumption {
    var closing := Close(db, id, RowState.Failed, FailureReceipt(error), sc.complete);
    Consumption(closing.db, false, if closing.end.Broke? then StoreRaised else RefusedBeforeDispatch)
  }

  /** From a reserved row on. */
  function Hold(b: P.Broker, db: Db, id: string, token: Token, contract: string, sc: Script): Consumption {
    match CheckAgain(b, db, token, sc)
    case Rejected(db', error) => Refuse(db', id, error, sc)
    case Cleared(db') =>
      if P.OnlySimulates(token.claims) then Simulate(b, db', id, contract, sc) else CallTarget(b, db', id, contract, sc)
  }

  function Consume(b: P.Broker, db: Db, id: string, consumer: string, sc: Script): Consumption {
    if id == "" || id !in db.rows then Consumption(db, false, Unavailable)
    else
      var token := db.rows[id].token;
      match Enter(b, db, id, consumer, token, sc)
      case Stopped(db', verdict) => Consumption(db', false, verdict)
      case Held(db') => Hold(b, db', id, token, b.actions[token.claims.action].contract, sc)
  }

  class AuthorizationBroker {
    const broker: P.Broker
    const store: SQLiteAuthorizationStore
    /** The tokens whose target this broker called, in order. */
    var calls: seq<Token>

    constructor (broker: P.Broker, store: SQLiteAuthorizationStore)
      ensures this.broker == broker && this.store == store && calls == []
    {
      this.broker, this.store, calls := broker, store, [];
    }

    /** One update and its projection, as far as the call gets. */
    method CloseRow(id: string, to: RowState, info: Json, write: Write) returns (end: End)
      modifies store
      ensures Closing(store.db, end) == Close(old(store.db), id, to, info, write)
    {
      if write.fate.FailsFirst? {
        return Broke(write.fate.error);
      }
      var changed := store.Update(id, Executing, to, Some(Completion(info)), write.at);
      if !changed {
        return NotRunning;
      }
      if write.fate.FailsUpdated? {
        return Broke(write.fate.error);
      }
      store.Project(id, to, Some(Completion(info)), write.at);
      end := if write.fate.Works? then Written else Broke(write.fate.error);
    }

    method VerifyActive(token: Token, check: Check) returns (active: bool)
      modifies store
      ensures store.db == AfterCheck(broker, old(store.db), token, check)
      ensures active <==> P.Active(broker, token, check.at, check.live)
    {
      var c := token.claims;
      if !Verifies(broker.authority, token, broker.name, check.at) || c.policyHash != broker.policyHash {
        return false;
      }
      store.db := AfterStoreCalls(store.db, check.meanwhile);
      active := check.live;
    }

    method ConsumeId(id: string, consumer: string, sc: Script) returns (verdict: Verdict)
      modifies this, store
      ensures var c := Consume(broker, old(store.db), id, consumer, sc);
              && store.db == c.db && verdict == c.verdict
              && (c.called ==> id in old(store.db.rows) && calls == old(calls) + [old(store.db.rows)[id].token])
              && (!c.called ==> calls == old(calls))
    {
      hide P.Active, P.Current, Close, Begun, AfterStoreCalls;
      if id == "" {
        return Unavailable;
      }
      var record := store.Get(id);
      if record.None? {
        return Unavailable;
      }
      var token := record.value.token;
      var active := VerifyActive(token, sc.admit);
      var c := token.claims;
      if !active || c.authorizationId != id || consumer != c.requester {
        return NotAuthorized;
      }
      if c.action !in broker.actions || broker.actions[c.action].target != c.target {
        return NotAuthorized;
      }
      if sc.begin.fate.FailsFirst? || sc.begin.fate.FailsUpdated? {
        return StoreRaised;
      }
      var begun := store.BeginConsumption(id, consumer, sc.begin.at);
      if !begun {
        return NotConsumable;
      }
      if !sc.begin.fate.Works? {
        return StoreRaised;
      }
      verdict := ConsumeHeld(id, token, broker.actions[c.action].contract, sc);
    }

    /** The rest of the call, once the row is reserved. */
    method ConsumeHeld(id: string, token: Token, contract: string, sc: Script) returns (verdict: Verdict)
      modifies this, store
      ensures var c := Hold(broker, old(store.db), id, token, contract, sc);
              store.db == c.db && verdict == c.verdict && calls == old(calls) + if c.called then [token] else []
    {
      hide P.Active, P.Current, Close, AfterStoreCalls;
      store.db := AfterStoreCalls(store.db, sc.recheck.meanwhile);
      var refusal := None;
      match sc.recheck.reply {
        case Raises(error) => refusal := Some(error);
        case Returns(value) =>
          if !value.Obj? || "eligible" !in value.members || value.members["eligible"] != Bool(true) {
            refusal := Some(AUTHORIZATION_ERROR);
          } else {
            var active := VerifyActive(token, sc.clear);
            if !active {
              refusal := Some(AUTHORIZATION_ERROR);
            }
          }
      }
      if refusal.Some? {
        var info := Obj(map["error_type" := Str(refusal.value), "phase" := Str("pre_dispatch")]);
        var end := CloseRow(id, RowState.Failed, info, sc.complete);
        return if end.Broke? then StoreRaised else RefusedBeforeDispatch;
      }
      if token.claims.simulationOnly || !token.claims.executionEnabled {
        var receipt := Receipt(sc.recheck.reply.value, false, contract);
        var end := CloseRow(id, RowState.Simulated, Obj(receipt), sc.complete);
        return
          if end.Written? then OnlySimulated(Obj(receipt)) else if end.NotRunning? then NotExecuting else StoreRaised;
      }
      calls := calls + [token];
      store.db := AfterStoreCalls(store.db, sc.target.meanwhile);
      var error := AUTHORIZATION_ERROR;
      match sc.target.reply {
        case Raises(raised) => error := raised;
        case Returns(result) =>
          if result.Obj? {
            var receipt := Receipt(sc.recheck.reply.value, true, contract)["result" := result];
            var end := CloseRow(id, RowState.Executed, Obj(receipt), sc.complete);
            if end.Written? {
              return Done(Obj(receipt));
            }
            if end.Broke? {
              error := end.error;
            }
          }
      }
      var info := Obj(map["error_type" := Str(error), "phase" := Str("post_dispatch"),
                          "outcome_contract" := Str(contract)]);
      var _ := CloseRow(id, Unknown, info, sc.doubt);
      verdict := InDoubt;
    }

    /** The members common to the receipts of a simulation and of a call. */
    function Receipt(checked: Json, called: bool, contract: string): map<string, Json> {
      map["authority" := Str(broker.issuer), "recheck" := checked, "target_called" := Bool(called),
          "outcome_contract" := Str(contract)]
    }
  }

  // ---- One call is one run -----------------------------------------------------------------------

  /** What other hands do to the store during a call: everything but consuming. */
  predicate ByOperators(calls: seq<StoreCall>) {
    forall i | 0 <= i < |calls| :: !calls[i].DoBegin? && !calls[i].DoComplete? && !calls[i].DoMarkUnknown?
  }

  predicate OperatorsOnly(sc: Script) {
    && ByOperators(sc.admit.meanwhile) && ByOperators(sc.recheck.meanwhile)
    && ByOperators(sc.clear.meanwhile) && ByOperators(sc.target.meanwhile)
  }

  /** A step of run `n`, of an operator, or a projection. */
  predicate Belongs(n: nat, step: P.Step) {
    match step
    case Record(_, _) => true
    case Withdraw(_, _) => true
    case Recover(_, _, _) => true
    case Settle(_, _, _, _, _) => true
    case RevokeAll(_, _, _) => true
    case DoProjection(_) => true
    case DropProjection(_) => true
    case _ => step.run == n
  }

  predicate BelongAll(n: nat, steps: seq<P.Step>) {
    forall i | 0 <= i < |steps| :: Belongs(n, steps[i])
  }

  /** `steps` lead from `w` to `at`, and are those of one call. */
  predicate Leads(n: nat, w: P.World, steps: seq<P.Step>, at: P.World) {
    P.Execute(w, steps) == at && BelongAll(n, steps)
  }

  lemma Take(n: nat, w: P.World, steps: seq<P.Step>, at: P.World, step: P.Step)
    returns (steps': seq<P.Step>, at': P.World)
    requires Leads(n, w, steps, at) && Belongs(n, step)
    ensures Leads(n, w, steps', at') && at' == P.Apply(at, step)
  {
    hide P.Apply;
    steps', at' := steps + [step], P.Apply(at, step);
    P.ExecuteJoined(w, steps, [step]);
    assert [step][1..] == [];
    assert P.Execute(at, [step]) == P.Execute(at', []);
  }

  lemma Join(n: nat, w: P.World, first: seq<P.Step>, at: P.World, second: seq<P.Step>, end: P.World)
    requires Leads(n, w, first, at) && Leads(n, at, second, end)
    ensures Leads(n, w, first + second, end)
  {
    hide P.Execute;
    P.ExecuteJoined(w, first, second);
  }

  /** One call of an operator, its projection done at once. */
  lemma OperatorCall(n: nat, w: P.World, call: StoreCall) returns (steps: seq<P.Step>)
    requires ByOperators([call])
    ensures Leads(n, w, steps, w.(db := Perform(w.db, call).db))
  {
    hide P.Apply, P.Execute, Perform;
    assert !([call][0].DoBegin? || [call][0].DoComplete? || [call][0].DoMarkUnknown?);
    steps := [];
    var at := w;
    assert Leads(n, w, steps, at) by { NoSteps(w); }
    match call {
      case DoRecord(token, s) =>
        steps, at := Take(n, w, steps, at, P.Record(token, s));
        RecordIs(w, token, s);
      case DoCancel(id, now) =>
        steps, at := Take(n, w, steps, at, P.Withdraw(id, now));
        steps, at := Take(n, w, steps, at, P.DoProjection(|w.outstanding|));
        WithdrawIs(w, id, now);
      case DoRecover(id, actor, now) =>
        steps, at := Take(n, w, steps, at, P.Recover(id, actor, now));
        steps, at := Take(n, w, steps, at, P.DoProjection(|w.outstanding|));
        RecoverIs(w, id, actor, now);
      case DoReconcile(id, outcome, actor, info, now) =>
        steps, at := Take(n, w, steps, at, P.Settle(id, outcome, actor, info, now));
        steps, at := Take(n, w, steps, at, P.DoProjection(|w.outstanding|));
        SettleIs(w, id, outcome, actor, info, now);
      case DoRevokeAll(ids, actor, now) =>
        if actor != "" {
          steps, at := Take(n, w, steps, at, P.RevokeAll(ids, actor, now));
        }
        RevokeIs(w, ids, actor, now);
    }
  }

  lemma NoSteps(w: P.World)
    ensures P.Execute(w, []) == w
  {
  }

  lemma RecordIs(w: P.World, token: Token, s: Snapshot)
    ensures P.Apply(w, P.Record(token, s)) == w.(db := Perform(w.db, DoRecord(token, s)).db)
  {
    hide Recorded;
  }

  lemma RevokeIs(w: P.World, ids: seq<string>, actor: string, now: int)
    ensures actor != "" ==>
              P.Apply(w, P.RevokeAll(ids, actor, now)) == w.(db := Perform(w.db, DoRevokeAll(ids, actor, now)).db)
    ensures actor == "" ==> w == w.(db := Perform(w.db, DoRevokeAll(ids, actor, now)).db)
  {
    hide RevokedFirst;
  }

  /** Doing the projection that an update has just left completes it; if the update changed
      nothing there is none. */
  lemma AttemptProjected(w: P.World, id: string, from: RowState, to: RowState, receipt: Option<Receipt>, now: int)
    ensures P.Apply(P.Attempt(w, id, from, to, receipt, now), P.DoProjection(|w.outstanding|))
            == w.(db := MoveAndProject(w.db, id, from, to, receipt, now).db)
    ensures P.Apply(P.Attempt(w, id, from, to, receipt, now), P.DropProjection(|w.outstanding|))
            == w.(db := var moved := Move(w.db, id, from, to, receipt, now); if moved.Some? then moved.value else w.db)
    ensures P.Attempt(w, id, from, to, receipt, now).runs == w.runs
  {
    hide Projected;
    var at := P.Attempt(w, id, from, to, receipt, now);
    LastTaken(w.outstanding, P.Projection(id, to, receipt, now));
  }

  lemma LastTaken(out: seq<P.Projection>, p: P.Projection)
    ensures (out + [p])[..|out|] + (out + [p])[|out| + 1..] == out
  {
  }

  lemma WithdrawIs(w: P.World, id: string, now: int)
    ensures P.Apply(P.Apply(w, P.Withdraw(id, now)), P.DoProjection(|w.outstanding|))
            == w.(db := Perform(w.db, DoCancel(id, now)).db)
  {
    hide Projected;
    if id in w.db.rows && w.db.rows[id].state.Cancelled? {
      LastTaken(w.outstanding, P.Projection(id, RowState.Cancelled, None, now));
    } else {
      AttemptProjected(w, id, Issued, RowState.Cancelled, None, now);
    }
  }

  lemma RecoverIs(w: P.World, id: string, actor: string, now: int)
    ensures P.Apply(P.Apply(w, P.Recover(id, actor, now)), P.DoProjection(|w.outstanding|))
            == w.(db := Perform(w.db, DoRecover(id, actor, now)).db)
  {
    hide MoveAndProject, P.Attempt;
    if actor != "" {
      AttemptProjected(w, id, Executing, Unknown, Some(Interrupted(actor)), now);
    }
  }

  lemma SettleIs(w: P.World, id: string, outcome: RowState, actor: string, info: Json, now: int)
    ensures P.Apply(P.Apply(w, P.Settle(id, outcome, actor, info, now)), P.DoProjection(|w.outstanding|))
            == w.(db := Perform(w.db, DoReconcile(id, outcome, actor, info, now)).db)
  {
    hide MoveAndProject, P.Attempt;
    if actor != "" && (outcome.Executed? || outcome.Failed?) {
      AttemptProjected(w, id, Unknown, outcome, Some(Reconciliation(actor, outcome, info)), now);
    }
  }

  lemma {:induction false} Meanwhile(n: nat, w: P.World, calls: seq<StoreCall>) returns (steps: seq<P.Step>)
    requires ByOperators(calls)
    ensures Leads(n, w, steps, w.(db := AfterStoreCalls(w.db, calls)))
    decreases |calls|
  {
    hide P.Apply, Perform;
    if calls == [] {
      return [];
    }
    var first := OperatorCall(n, w, calls[0]);
    var mid := w.(db := Perform(w.db, calls[0]).db);
    var rest := Meanwhile(n, mid, calls[1..]);
    Join(n, w, first, mid, rest, mid.(db := AfterStoreCalls(mid.db, calls[1..])));
    steps := first + rest;
  }

  lemma Let(n: nat, w: P.World, steps: seq<P.Step>, at: P.World, calls: seq<StoreCall>)
    returns (steps': seq<P.Step>, at': P.World)
    requires Leads(n, w, steps, at) && ByOperators(calls)
    ensures Leads(n, w, steps', at') && at' == at.(db := AfterStoreCalls(at.db, calls))
  {
    var more := Meanwhile(n, at, calls);
    at' := at.(db := AfterStoreCalls(at.db, calls));
    Join(n, w, steps, at, more, at');
    steps' := steps + more;
  }

  /** The store's share of a verification. */
  lemma LetCheck(n: nat, w: P.World, steps: seq<P.Step>, at: P.World, b: P.Broker, token: Token, check: Check)
    returns (steps': seq<P.Step>, at': P.World)
    requires Leads(n, w, steps, at) && ByOperators(check.meanwhile)
    ensures Leads(n, w, steps', at') && at' == at.(db := AfterCheck(b, at.db, token, check))
  {
    hide P.Current, P.Execute;
    steps', at' := steps, at;
    if P.Current(b, token, check.at) {
      steps', at' := Let(n, w, steps, at, check.meanwhile);
    } else {
      assert at == at.(db := at.db);
    }
  }

  /** Nothing but the store and run `n` has moved. */
  predicate OnlyMoved(n: nat, w: P.World, at: P.World) {
    at.outstanding == w.outstanding && at.dispatches == w.dispatches && n in at.runs
  }

  lemma EntryIsARun(w: P.World, n: nat, b: P.Broker, id: string, consumer: string, sc: Script)
    returns (steps: seq<P.Step>, at: P.World)
    requires n !in w.runs && id != "" && id in w.db.rows && OperatorsOnly(sc)
    ensures Leads(n, w, steps, at) && OnlyMoved(n, w, at)
    ensures var token := w.db.rows[id].token;
            var entry := Enter(b, w.db, id, consumer, token, sc);
            && at.db == entry.db
            && (entry.Held? ==>
                   at.runs[n] == P.Run(b, id, consumer, Some(token), P.Holding, true, false)
                     && token.claims.action in b.actions)
  {
    hide P.Apply, P.Execute, Begun, AfterStoreCalls, P.Active, P.Current, P.ClaimsFit;
    var token := w.db.rows[id].token;
    NoSteps(w);
    steps, at := Take(n, w, [], w, P.Launch(n, b, id, consumer));
    steps, at := Take(n, w, steps, at, P.Load(n));
    LoadedIs(w, n, b, id, consumer);
    steps, at := LetCheck(n, w, steps, at, b, token, sc.admit);
    var asked := at;
    steps, at := Take(n, w, steps, at, P.Admit(n, sc.admit.at, sc.admit.live));
    AdmitIs(asked, n, b, id, consumer, token, sc);
    if at.runs[n].pc.Admitted? && !sc.begin.fate.FailsFirst? && !sc.begin.fate.FailsUpdated? {
      BeginIs(at, n, sc.begin.at);
      steps, at := Take(n, w, steps, at, P.Begin(n, sc.begin.at));
    }
  }

  lemma LoadedIs(w: P.World, n: nat, b: P.Broker, id: string, consumer: string)
    requires n !in w.runs && id != "" && id in w.db.rows
    ensures P.Apply(P.Apply(w, P.Launch(n, b, id, consumer)), P.Load(n))
            == w.(runs := w.runs[n := P.Run(b, id, consumer, Some(w.db.rows[id].token), P.Loaded, false, false)])
  {
  }

  lemma AdmitIs(w: P.World, n: nat, b: P.Broker, id: string, consumer: string, token: Token, sc: Script)
    requires n in w.runs && w.runs[n] == P.Run(b, id, consumer, Some(token), P.Loaded, false, false)
    ensures var admitted := P.Active(b, token, sc.admit.at, sc.admit.live) && P.ClaimsFit(w.runs[n], token.claims);
            && P.Apply(w, P.Admit(n, sc.admit.at, sc.admit.live))
               == P.Goto(w, n, if admitted then P.Admitted else P.Pc.Done)
            && (admitted ==> token.claims.action in b.actions)
  {
    hide P.Active;
  }

  lemma BeginIs(w: P.World, n: nat, at: int)
    requires P.At(w, n, P.Admitted)
    ensures var o := Begun(w.db, w.runs[n].id, w.runs[n].consumer, at);
            P.Apply(w, P.Begin(n, at))
            == if o.Stored? then w.(db := o.db, runs := w.runs[n := w.runs[n].(pc := P.Holding, begun := true)])
               else P.Goto(w.(db := o.db), n, P.Pc.Done)
  {
    hide Begun;
  }

  /** Run `n` is at `pc` on its way through the call. */
  predicate Holds(w: P.World, n: nat, b: P.Broker, id: string, token: Token, pc: P.Pc) {
    n in w.runs && w.runs[n].broker == b && w.runs[n].id == id && w.runs[n].token == Some(token) && w.runs[n].pc == pc
  }

  lemma ChecksAreARun(w: P.World, n: nat, b: P.Broker, id: string, token: Token, sc: Script)
    returns (steps: seq<P.Step>, at: P.World)
    requires Holds(w, n, b, id, token, P.Holding) && OperatorsOnly(sc)
    ensures Leads(n, w, steps, at) && OnlyMoved(n, w, at)
    ensures var checked := CheckAgain(b, w.db, token, sc);
            && at.db == checked.db && at.runs[n].consumer == w.runs[n].consumer
            && Holds(at, n, b, id, token, if checked.Cleared? then P.Cleared(sc.clear.at) else P.Aborting)
  {
    hide P.Apply, P.Execute, AfterStoreCalls, P.Active, P.Current, Eligible;
    NoSteps(w);
    steps, at := Let(n, w, [], w, sc.recheck.meanwhile);
    MoveOnIs(at, n, P.Recheck(n, Eligible(sc.recheck.reply)));
    steps, at := Take(n, w, steps, at, P.Recheck(n, Eligible(sc.recheck.reply)));
    if Eligible(sc.recheck.reply) {
      steps, at := LetCheck(n, w, steps, at, b, token, sc.clear);
      MoveOnIs(at, n, P.Clear(n, sc.clear.at, sc.clear.live));
      steps, at := Take(n, w, steps, at, P.Clear(n, sc.clear.at, sc.clear.live));
    }
  }

  /** The steps between the store's that only move the run on. */
  lemma MoveOnIs(w: P.World, n: nat, step: P.Step)
    ensures step == P.Recheck(n, true) && P.At(w, n, P.Holding) ==> P.Apply(w, step) == P.Goto(w, n, P.Rechecked)
    ensures step == P.Recheck(n, false) && P.At(w, n, P.Holding) ==> P.Apply(w, step) == P.Goto(w, n, P.Aborting)
    ensures step.Clear? && step.run == n && P.At(w, n, P.Rechecked) ==>
              var active := P.Active(w.runs[n].broker, w.runs[n].token.value, step.at, step.live);
              P.Apply(w, step) == P.Goto(w, n, if active then P.Cleared(step.at) else P.Aborting)
    ensures step == P.Return(n, true) && P.At(w, n, P.Called) ==> P.Apply(w, step) == P.Goto(w, n, P.Returned)
    ensures step == P.Return(n, false) && P.At(w, n, P.Called) ==> P.Apply(w, step) == P.Goto(w, n, P.Doubtful)
  {
    hide P.Active;
  }

  /** The last write of a run, as far as it gets: `step` makes the update and ends the run. */
  lemma LastWriteIsARun(w: P.World, n: nat, step: P.Step, id: string, to: RowState, info: Json, write: Write)
    returns (steps: seq<P.Step>, at: P.World)
    requires n in w.runs && Belongs(n, step)
    requires P.Apply(w, step) == P.Goto(P.Attempt(w, id, Executing, to, Some(Completion(info)), write.at), n, P.Pc.Done)
    ensures Leads(n, w, steps, at) && OnlyMoved(n, w, at) && at.db == Close(w.db, id, to, info, write).db
  {
    hide P.Apply, P.Execute, P.Attempt, Projected;
    NoSteps(w);
    steps, at := [], w;
    if !write.fate.FailsFirst? {
      steps, at := Take(n, w, steps, at, step);
      var k := |w.outstanding|;
      var next := if write.fate.FailsUpdated? then P.DropProjection(k) else P.DoProjection(k);
      AttemptProjected(w, id, Executing, to, Some(Completion(info)), write.at);
      RunsDoNotMatter(P.Attempt(w, id, Executing, to, Some(Completion(info)), write.at), n, next);
      steps, at := Take(n, w, steps, at, next);
    }
  }

  lemma RunsDoNotMatter(w: P.World, n: nat, step: P.Step)
    requires (step.DoProjection? || step.DropProjection?) && n in w.runs
    ensures P.Apply(P.Goto(w, n, P.Pc.Done), step) == P.Apply(w, step).(runs := P.Goto(w, n, P.Pc.Done).runs)
    ensures P.Apply(P.Goto(w, n, P.Reported), step) == P.Apply(w, step).(runs := P.Goto(w, n, P.Reported).runs)
  {
    hide Projected;
  }

  lemma ReportIs(w: P.World, n: nat, info: Json, at: int)
    requires P.At(w, n, P.Returned)
    ensures var moved := Move(w.db, w.runs[n].id, Executing, RowState.Executed, Some(Completion(info)), at);
            P.Apply(w, P.Report(n, info, at))
            == if moved.None? then P.Goto(w, n, P.Doubtful)
               else P.Goto(P.Attempt(w, w.runs[n].id, Executing, RowState.Executed, Some(Completion(info)), at),
                           n, P.Reported)
  {
  }

  /** Reporting a result, as far as the write gets. */
  lemma ReportIsARun(w: P.World, n: nat, info: Json, write: Write) returns (steps: seq<P.Step>, at: P.World)
    requires P.At(w, n, P.Returned) && !write.fate.FailsFirst?
    ensures Leads(n, w, steps, at) && OnlyMoved(n, w, at)
    ensures var closing := Close(w.db, w.runs[n].id, RowState.Executed, info, write);
            && at.db == closing.db
            && (!closing.end.Written? ==> at.runs[n] == w.runs[n].(pc := P.Doubtful))
  {
    hide P.Apply, P.Execute, P.Attempt, Projected, Leads;
    var id, receipt := w.runs[n].id, Some(Completion(info));
    assert Leads(n, w, [], w) by { LeadsNowhere(n, w); }
    ReportIs(w, n, info, write.at);
    steps, at := Take(n, w, [], w, P.Report(n, info, write.at));
    if Move(w.db, id, Executing, RowState.Executed, receipt, write.at).Some? {
      var k := |w.outstanding|;
      var next := if write.fate.FailsUpdated? then P.DropProjection(k) else P.DoProjection(k);
      AttemptProjected(w, id, Executing, RowState.Executed, receipt, write.at);
      RunsDoNotMatter(P.Attempt(w, id, Executing, RowState.Executed, receipt, write.at), n, next);
      steps, at := Take(n, w, steps, at, next);
      if !write.fate.Works? {
        ReportFailsIs(at, n);
        steps, at := Take(n, w, steps, at, P.ReportFails(n));
      }
    }
  }

  lemma LeadsNowhere(n: nat, w: P.World)
    ensures Leads(n, w, [], w)
  {
  }

  lemma ReportFailsIs(w: P.World, n: nat)
    ensures n in w.runs && w.runs[n].pc.Reported? && w.runs[n].token.Some? ==>
              P.Apply(w, P.ReportFails(n)) == P.Goto(w, n, P.Doubtful)
  {
  }

  /** What a call adds to the target calls made so far. */
  function CallMade(n: nat, id: string, consumer: string, token: Token, called: bool, at: int): seq<P.Dispatch> {
    if called then [P.Dispatch(id, n, consumer, token, token.claims.target, at)] else []
  }

  lemma DoubtIsARun(w: P.World, n: nat, id: string, error: string, contract: string, sc: Script)
    returns (steps: seq<P.Step>, at: P.World)
    requires P.At(w, n, P.Doubtful) && w.runs[n].id == id
    ensures Leads(n, w, steps, at) && OnlyMoved(n, w, at) && at.db == Doubted(w.db, id, error, contract, sc).db
  {
    hide P.Execute, P.Attempt, Close, Leads;
    steps, at := LastWriteIsARun(w, n, P.Doubt(n, DoubtReceipt(error, contract), sc.doubt.at), id, Unknown,
      DoubtReceipt(error, contract), sc.doubt);
  }

  lemma CallTargetIs(w: P.World, n: nat, b: P.Broker, id: string, token: Token, at: int)
    requires Holds(w, n, b, id, token, P.Cleared(at)) && !P.OnlySimulates(token.claims)
    ensures P.Apply(w, P.CallTarget(n))
            == w.(runs := w.runs[n := w.runs[n].(pc := P.Called, dispatched := true)],
                  dispatches := w.dispatches + CallMade(n, id, w.runs[n].consumer, token, true, at))
  {
  }

  lemma FirstFailureWritesNothing(db: Db, id: string, info: Json, write: Write)
    requires write.fate.FailsFirst?
    ensures Close(db, id, RowState.Executed, info, write) == Closing(db, Broke(write.fate.error))
  {
  }

  lemma TargetIsARun(w: P.World, n: nat, b: P.Broker, id: string, token: Token, contract: string, sc: Script)
    returns (steps: seq<P.Step>, at: P.World)
    requires Holds(w, n, b, id, token, P.Cleared(sc.clear.at)) && !P.OnlySimulates(token.claims)
    requires OperatorsOnly(sc) && sc.recheck.reply.Returns?
    ensures Leads(n, w, steps, at) && at.outstanding == w.outstanding
    ensures at.db == CallTarget(b, w.db, id, contract, sc).db
    ensures at.dispatches == w.dispatches + CallMade(n, id, w.runs[n].consumer, token, true, sc.clear.at)
  {
    hide P.Apply, P.Execute, AfterStoreCalls, Close, Doubted, CallMade, P.OnlySimulates;
    NoSteps(w);
    CallTargetIs(w, n, b, id, token, sc.clear.at);
    steps, at := Take(n, w, [], w, P.CallTarget(n));
    steps, at := Let(n, w, steps, at, sc.target.meanwhile);
    var called, reply := at, sc.target.reply;
    var error := if reply.Raises? then reply.error else AUTHORIZATION_ERROR;
    var more: seq<P.Step>;
    var answers := reply.Returns? && reply.value.Obj?;
    var reports := answers && !sc.complete.fate.FailsFirst?;
    MoveOnIs(called, n, P.Return(n, reports));
    steps, at := Take(n, w, steps, called, P.Return(n, reports));
    if answers {
      var receipt := ExecutionReceipt(b.issuer, sc.recheck.reply.value, contract, reply.value);
      var closing := Close(called.db, id, RowState.Executed, receipt, sc.complete);
      error := ErrorOf(closing.end);
      if !reports {
        FirstFailureWritesNothing(called.db, id, receipt, sc.complete);
      } else {
        var returned := at;
        more, at := ReportIsARun(returned, n, receipt, sc.complete);
        Join(n, w, steps, returned, more, at);
        steps := steps + more;
        if closing.end.Written? {
          return;
        }
      }
    }
    var doubtful := at;
    more, at := DoubtIsARun(doubtful, n, id, error, contract, sc);
    Join(n, w, steps, doubtful, more, at);
    steps := steps + more;
  }

  lemma AbortIs(w: P.World, n: nat, b: P.Broker, id: string, token: Token, info: Json, at: int)
    requires Holds(w, n, b, id, token, P.Aborting)
    ensures P.Apply(w, P.Abort(n, info, at))
            == P.Goto(P.Attempt(w, id, Executing, RowState.Failed, Some(Completion(info)), at), n, P.Pc.Done)
  {
    hide P.Attempt;
  }

  lemma SimulateIs(w: P.World, n: nat, b: P.Broker, id: string, token: Token, checkedAt: int, info: Json, at: int)
    requires Holds(w, n, b, id, token, P.Cleared(checkedAt)) && P.OnlySimulates(token.claims)
    ensures P.Apply(w, P.Simulate(n, info, at))
            == P.Goto(P.Attempt(w, id, Executing, RowState.Simulated, Some(Completion(info)), at), n, P.Pc.Done)
  {
    hide P.Attempt, P.OnlySimulates;
  }

  lemma HeldIsARun(w: P.World, n: nat, b: P.Broker, id: string, token: Token, contract: string, sc: Script)
    returns (steps: seq<P.Step>, at: P.World)
    requires Holds(w, n, b, id, token, P.Holding) && OperatorsOnly(sc)
    ensures Leads(n, w, steps, at) && at.outstanding == w.outstanding
    ensures var c := Hold(b, w.db, id, token, contract, sc);
            && at.db == c.db
            && at.dispatches == w.dispatches + CallMade(n, id, w.runs[n].consumer, token, c.called, sc.clear.at)
  {
    hide P.Apply, P.Execute, AfterStoreCalls, AfterCheck, P.Attempt, Close, P.Active, P.OnlySimulates;
    steps, at := ChecksAreARun(w, n, b, id, token, sc);
    var checked := CheckAgain(b, w.db, token, sc);
    var cleared, more := at, [];
    if checked.Rejected? {
      AbortIs(at, n, b, id, token, FailureReceipt(checked.error), sc.complete.at);
      more, at := LastWriteIsARun(cleared, n, P.Abort(n, FailureReceipt(checked.error), sc.complete.at), id,
        RowState.Failed, FailureReceipt(checked.error), sc.complete);
    } else if P.OnlySimulates(token.claims) {
      var receipt := SimulationReceipt(b.issuer, sc.recheck.reply.value, contract);
      SimulateIs(at, n, b, id, token, sc.clear.at, receipt, sc.complete.at);
      more, at := LastWriteIsARun(cleared, n, P.Simulate(n, receipt, sc.complete.at), id, RowState.Simulated,
        receipt, sc.complete);
    } else {
      more, at := TargetIsARun(cleared, n, b, id, token, contract, sc);
    }
    Join(n, w, steps, cleared, more, at);
    steps := steps + more;
  }

  /** Whatever operators do to the store while the callbacks run, and wherever its store calls
      raise: `consume_id` and some run of the protocol leave the same database, and one calls
      the target exactly when the other does, under the same token. */
  lemma CallIsARun(w: P.World, n: nat, b: P.Broker, id: string, consumer: string, sc: Script)
    returns (steps: seq<P.Step>)
    requires n !in w.runs && OperatorsOnly(sc)
    ensures BelongAll(n, steps)
    ensures var after := P.Execute(w, steps);
            var c := Consume(b, w.db, id, consumer, sc);
            && after.db == c.db && after.outstanding == w.outstanding
            && (c.called ==> id in w.db.rows)
            && after.dispatches == w.dispatches
                 + if c.called then CallMade(n, id, consumer, w.db.rows[id].token, true, sc.clear.at) else []
  {
    hide P.Apply, P.Execute, P.Active, P.ClaimsFit, Enter, Hold;
    NoSteps(w);
    steps := [];
    if id != "" && id in w.db.rows {
      var token := w.db.rows[id].token;
      var at: P.World;
      steps, at := EntryIsARun(w, n, b, id, consumer, sc);
      if Enter(b, w.db, id, consumer, token, sc).Held? {
        var more, end := HeldIsARun(at, n, b, id, token, b.actions[token.claims.action].contract, sc);
        Join(n, w, steps, at, more, end);
        steps := steps + more;
      }
    }
  }

  /** In any state brokers and operators can reach: a call reaches the target only for an
      authorization whose target was never called before, and then, in doubt or not, leaves a
      row no later call can reserve. */
  lemma CallsTargetOnce(w: P.World, n: nat, b: P.Broker, id: string, consumer: string, sc: Script)
    requires P.Consistent(w) && n !in w.runs && OperatorsOnly(sc)
    requires Consume(b, w.db, id, consumer, sc).called
    ensures !P.WasCalled(w, id)
    ensures id in Consume(b, w.db, id, consumer, sc).db.rows
            && P.MayHaveRun(Consume(b, w.db, id, consumer, sc).db.rows[id])
  {
    hide P.Execute, P.Consistent, Consume, P.DispatchOk, P.MayHaveRun;
    var steps := CallIsARun(w, n, b, id, consumer, sc);
    P.EveryInterleavingIsConsistent(w, steps);
    var after := P.Execute(w, steps);
    P.ConsistentDispatches(after);
    assert after.dispatches[|w.dispatches|].id == id;
    assert P.DispatchOk(after, after.dispatches[|w.dispatches|]);
    DispatchedIsThere(after, |w.dispatches|);
    forall i | 0 <= i < |w.dispatches| ensures w.dispatches[i].id != id {
      assert after.dispatches[i] == w.dispatches[i];
    }
  }

  lemma DispatchedIsThere(w: P.World, i: nat)
    requires i < |w.dispatches| && P.DispatchOk(w, w.dispatches[i])
    ensures w.dispatches[i].id in w.db.rows
  {
  }

  /** The verdict tells what was done: the target was called exactly under `Done` and `InDoubt`;
      a receipt handed back is the one in the row, in the state it claims. */
  lemma VerdictsAreTrue(b: P.Broker, db: Db, id: string, consumer: string, sc: Script)
    ensures var c := Consume(b, db, id, consumer, sc);
            && (c.called <==> c.verdict.Done? || c.verdict.InDoubt?)
            && (c.verdict.Done? || c.verdict.OnlySimulated? ==>
                  && id in c.db.rows && c.db.rows[id].receipt == Some(Completion(c.verdict.receipt))
                  && c.db.rows[id].state == if c.verdict.Done? then RowState.Executed else RowState.Simulated)
  {
    hide P.Active, P.Current, P.OnlySimulates, AfterStoreCalls, Begun, Close, SimulationReceipt, ExecutionReceipt;
    if id != "" && id in db.rows {
      var token := db.rows[id].token;
      var entry := Enter(b, db, id, consumer, token, sc);
      if entry.Held? && CheckAgain(b, entry.db, token, sc).Cleared? {
        var cleared := CheckAgain(b, entry.db, token, sc).db;
        var checked, contract := sc.recheck.reply.value, b.actions[token.claims.action].contract;
        WrittenIs(cleared, id, RowState.Simulated, SimulationReceipt(b.issuer, checked, contract), sc.complete);
        if sc.target.reply.Returns? {
          WrittenIs(AfterStoreCalls(cleared, sc.target.meanwhile), id, RowState.Executed,
            ExecutionReceipt(b.issuer, checked, contract, sc.target.reply.value), sc.complete);
        }
      }
    }
  }

  lemma WrittenIs(db: Db, id: string, to: RowState, info: Json, write: Write)
    ensures var closing := Close(db, id, to, info, write);
            closing.end.Written? ==>
              id in closing.db.rows && closing.db.rows[id].state == to
                && closing.db.rows[id].receipt == Some(Completion(info))
  {
  }

  // ---- When the target is called -------------------------------------------------------------------

  /** At `at` the token is this broker's to consume: its authority issued it, for it, under its
      policy, and it has not expired. */
  ghost predicate Valid(b: P.Broker, t: Token, at: int) {
    && (exists c :: Issue(b.authority, c) == Some(t))
    && t.claims.audience == b.name && t.claims.policyHash == b.policyHash
    && t.claims.issuedAt <= at < t.claims.expiresAt
  }

  /** The store when the row is reserved, and when the second verification has been made. */
  function StoreAtBegin(db: Db, sc: Script): Db { AfterStoreCalls(db, sc.admit.meanwhile) }

  function StoreAtClear(db: Db, id: string, consumer: string, sc: Script): Db {
    AfterStoreCalls(AfterStoreCalls(Begun(StoreAtBegin(db, sc), id, consumer, sc.begin.at).db, sc.recheck.meanwhile),
                    sc.clear.meanwhile)
  }

  /** The authorization is the consumer's, for a target of this broker; its row is issued and in
      time when it is reserved; the recheck says eligible; the token is live both times. */
  ghost predicate Clears(b: P.Broker, db: Db, id: string, consumer: string, sc: Script) {
    && id != "" && consumer != "" && id in db.rows
    && var t := db.rows[id].token;
       && Valid(b, t, sc.admit.at) && sc.admit.live && Valid(b, t, sc.clear.at) && sc.clear.live
       && t.claims.authorizationId == id && t.claims.requester == consumer
       && t.claims.action in b.actions && b.actions[t.claims.action].target == t.claims.target
       && sc.begin.fate.Works?
       && id in StoreAtBegin(db, sc).rows && StoreAtBegin(db, sc).rows[id].state.Issued?
       && sc.begin.at < StoreAtBegin(db, sc).rows[id].token.claims.expiresAt
       && sc.recheck.reply.Returns? && sc.recheck.reply.value.Obj?
       && "eligible" in sc.recheck.reply.value.members && sc.recheck.reply.value.members["eligible"] == Bool(true)
  }

  lemma ValidIffActive(b: P.Broker, t: Token, at: int)
    ensures Valid(b, t, at) <==> P.Current(b, t, at)
    ensures forall live :: P.Active(b, t, at, live) <==> Valid(b, t, at) && live
  {
    hide ValidBody, Issue, Verifies;
    VerifiesExactlyIssued(b.authority, t, b.name, at);
  }

  lemma ClearsIff(b: P.Broker, db: Db, id: string, consumer: string, sc: Script)
    requires id != "" && id in db.rows
    ensures var entry := Enter(b, db, id, consumer, db.rows[id].token, sc);
            && (Clears(b, db, id, consumer, sc) <==>
                  entry.Held? && CheckAgain(b, entry.db, db.rows[id].token, sc).Cleared?)
            && (Clears(b, db, id, consumer, sc) ==>
                  CheckAgain(b, entry.db, db.rows[id].token, sc).db == StoreAtClear(db, id, consumer, sc))
  {
    hide P.Active, P.Current, Valid, AfterStoreCalls, Projected, MoveAndProject;
    ValidIffActive(b, db.rows[id].token, sc.admit.at);
    ValidIffActive(b, db.rows[id].token, sc.clear.at);
  }

  /** One call reaches the target exactly when everything clears and the token asks for a real
      call: executions enabled, not for simulation only. */
  lemma CalledIff(b: P.Broker, db: Db, id: string, consumer: string, sc: Script)
    ensures Consume(b, db, id, consumer, sc).called <==>
              && Clears(b, db, id, consumer, sc)
              && db.rows[id].token.claims.executionEnabled && !db.rows[id].token.claims.simulationOnly
  {
    hide Enter, CheckAgain, Clears, Close, Refuse, StoreAtClear;
    if id != "" && id in db.rows {
      ClearsIff(b, db, id, consumer, sc);
      ClearsNeedsRow(b, db, id, consumer, sc);
      TargetIsCalled(b, db, id, sc);
    } else {
      ClearsNeedsRow(b, db, id, consumer, sc);
    }
  }

  lemma ClearsNeedsRow(b: P.Broker, db: Db, id: string, consumer: string, sc: Script)
    ensures Clears(b, db, id, consumer, sc) ==> id != "" && id in db.rows && sc.recheck.reply.Returns?
  {
  }

  lemma TargetIsCalled(b: P.Broker, db: Db, id: string, sc: Script)
    ensures forall at, contract | sc.recheck.reply.Returns? ::
              CallTarget(b, at, id, contract, sc).called && !Simulate(b, at, id, contract, sc).called
    ensures forall at, error :: !Refuse(at, id, error, sc).called
  {
  }

  /** Any other token that clears is completed as simulated, if its row is still executing and
      the write works; the target is not called. */
  lemma OthersAreSimulated(b: P.Broker, db: Db, id: string, consumer: string, sc: Script)
    requires Clears(b, db, id, consumer, sc)
    requires !db.rows[id].token.claims.executionEnabled || db.rows[id].token.claims.simulationOnly
    ensures var c := Consume(b, db, id, consumer, sc);
            var at := StoreAtClear(db, id, consumer, sc);
            && !c.called
            && (sc.complete.fate.Works? && id in at.rows && at.rows[id].state.Executing? ==>
                  && c.verdict.OnlySimulated? && id in c.db.rows && c.db.rows[id].state == RowState.Simulated
                  && c.db.rows[id].receipt == Some(Completion(c.verdict.receipt)))
  {
    hide Enter, CheckAgain, Clears, StoreAtClear, Refuse, CallTarget, SimulationReceipt;
    ClearsNeedsRow(b, db, id, consumer, sc);
    ClearsIff(b, db, id, consumer, sc);
  }
}
