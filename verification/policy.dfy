/** Workflow policies: what a loader accepts, and the control a caller's floor adds. */
module Policies {
  import opened JsonValues
  import opened GateGraph

  datatype Level = HumanApproveOnce | HumanStepUp

  datatype Control = Ask | StepUp

  /** The caller's `minimum_control`. */
  datatype Floor = PolicyDecides | AtLeast(control: Control)

  datatype GateBody =
    | SchemaGate
    | ConditionGate(path: string, test: Comparison)
    | ToolGate(tool: string, input: Json, expectPath: string, outcome: Comparison, recheck: bool)
    | NotifyGate(recipient: string, template: string)
    | ApprovalGate(level: Level, ttl: int)
    | ExecuteGate(target: string, simulationOnly: bool)

  datatype Gate = Gate(id: string, needs: seq<string>, body: GateBody) {
    predicate IsRecheck() { body.ToolGate? && body.recheck }
  }

  datatype Workflow = Workflow(
    principals: seq<string>, targetTool: string, parameters: ParameterSchema, gates: seq<Gate>)

  datatype Policy = Policy(
    version: int,
    enforcing: bool,
    executionEnabled: bool,
    audience: string,
    authorizationTtl: int,
    workflows: map<string, Workflow>)

  datatype ParameterKind = StringParam | BooleanParam | IntegerParam | NumberParam | ObjectParam | ArrayParam

  datatype ParameterSpec = ParameterSpec(
    kind: ParameterKind,
    minLength: Option<nat>,
    allowed: Option<seq<Json>>,
    maximum: Option<real>,
    minimum: Option<real>)

  datatype ParameterSchema = ParameterSchema(required: seq<string>, properties: map<string, ParameterSpec>)

  predicate ValidValue(v: Json, spec: ParameterSpec) {
    && (match spec.kind
        case StringParam => v.Str?
        case BooleanParam => v.Bool?
        case IntegerParam => v.Int?
        case NumberParam => v.Int? || v.Float?
        case ObjectParam => v.Obj?
        case ArrayParam => v.Arr?)
    && (spec.minLength.Some? ==> v.Str? && |v.text| >= spec.minLength.value)
    && (spec.allowed.Some? ==> Compare(v, In(spec.allowed.value)))
    && (spec.maximum.Some? ==> (v.Int? || v.Float?) && NumberOf(v) <= spec.maximum.value)
    && (spec.minimum.Some? ==> (v.Int? || v.Float?) && NumberOf(v) >= spec.minimum.value)
  }

  predicate ValidParameters(schema: ParameterSchema, parameters: map<string, Json>) {
    && parameters.Keys <= schema.properties.Keys
    && (forall i | 0 <= i < |schema.required| :: schema.required[i] in parameters)
    && forall name | name in parameters && name in schema.properties ::
         Finite(parameters[name]) && ValidValue(parameters[name], schema.properties[name])
  }

  /** Whether a parameter's constraints suit its kind. */
  predicate SpecOk(spec: ParameterSpec) {
    && (spec.minLength.Some? ==> spec.kind.StringParam?)
    && (spec.allowed.Some? ==> spec.allowed.value != [])
    && (spec.minimum.Some? || spec.maximum.Some? ==> spec.kind.IntegerParam? || spec.kind.NumberParam?)
  }

  /** Required parameters are declared, each once, and every declaration makes sense. */
  predicate SchemaOk(schema: ParameterSchema) {
    && (forall i, j | 0 <= i < j < |schema.required| :: schema.required[i] != schema.required[j])
    && (forall i | 0 <= i < |schema.required| :: schema.required[i] in schema.properties)
    && (forall name | name in schema.properties :: SpecOk(schema.properties[name]))
  }

  /** Empty but for ASCII white space. */
  predicate Blank(text: string) {
    forall i | 0 <= i < |text| :: text[i] in {' ', '\t', '\n', '\r', '\U{0B}', '\U{0C}'}
  }

  predicate FieldsOk(gate: Gate) {
    match gate.body
    case SchemaGate => true
    case ConditionGate(path, _) => path != ""
    case ToolGate(tool, _, expectPath, _, _) => tool != "" && expectPath != ""
    case NotifyGate(recipient, template) => !Blank(recipient) && !Blank(template)
    case ApprovalGate(_, ttl) => ttl >= 1
    case ExecuteGate(_, _) => true
  }

  predicate PrincipalsOk(principals: seq<string>) {
    && principals != []
    && (forall i | 0 <= i < |principals| :: principals[i] != "")
    && (forall i, j | 0 <= i < j < |principals| :: principals[i] != principals[j])
    && ("*" in principals ==> |principals| == 1)
  }

  predicate PrincipalAllowed(w: Workflow, principal: string) {
    "*" in w.principals || principal in w.principals
  }

  /** `gate_by_id` after the first `k` gates. */
  function DefinitionsUpTo(gates: seq<Gate>, k: nat): map<string, Gate>
    requires k <= |gates|
  {
    if k == 0 then map[] else DefinitionsUpTo(gates, k - 1)[gates[k - 1].id := gates[k - 1]]
  }

  function Definitions(gates: seq<Gate>): map<string, Gate> {
    DefinitionsUpTo(gates, |gates|)
  }

  function Requirements(defs: map<string, Gate>): Graph {
    map id | id in defs :: defs[id].needs
  }

  predicate UniqueIds(gates: seq<Gate>) {
    forall i, j | 0 <= i < j < |gates| :: gates[i].id != gates[j].id
  }

  lemma {:induction false} DefinitionsDomain(gates: seq<Gate>, k: nat)
    requires k <= |gates|
    ensures forall i | 0 <= i < k :: gates[i].id in DefinitionsUpTo(gates, k)
    ensures forall id | id in DefinitionsUpTo(gates, k) ::
              exists i | 0 <= i < k :: gates[i].id == id && gates[i] == DefinitionsUpTo(gates, k)[id]
  {
    if k > 0 {
      DefinitionsDomain(gates, k - 1);
    }
  }

  lemma DefinitionsLookup(gates: seq<Gate>)
    requires UniqueIds(gates)
    ensures forall i | 0 <= i < |gates| ::
              gates[i].id in Definitions(gates) && Definitions(gates)[gates[i].id] == gates[i]
    ensures forall id | id in Definitions(gates) :: Definitions(gates)[id] in gates && Definitions(gates)[id].id == id
  {
    DefinitionsDomain(gates, |gates|);
    forall i | 0 <= i < |gates| ensures Definitions(gates)[gates[i].id] == gates[i] {
      var j :| 0 <= j < |gates| && gates[j].id == gates[i].id && gates[j] == Definitions(gates)[gates[i].id];
      assert i == j;
    }
  }

  /** What acceptance promises about the graph, in terms of paths. */
  ghost predicate AcceptedWorkflow(w: Workflow, executionEnabled: bool) {
    && PrincipalsOk(w.principals) && w.targetTool != "" && SchemaOk(w.parameters) && w.gates != []
    && GatesOk(w.gates)
    && GraphOk(Definitions(w.gates))
    && ExecuteOk(w, Definitions(w.gates), executionEnabled)
  }

  predicate GatesOk(gates: seq<Gate>) {
    UniqueIds(gates) && forall i | 0 <= i < |gates| :: FieldsOk(gates[i]) && gates[i].id != ""
  }

  /** A DAG over existing gates; approvals wait for a notification, rechecks for an approval. */
  ghost predicate GraphOk(defs: map<string, Gate>) {
    && Closed(Requirements(defs)) && Acyclic(Requirements(defs))
    && (forall a | a in defs && defs[a].body.ApprovalGate? :: ReachesKind(defs, a, NotifyKind))
    && (forall c | c in defs && defs[c].IsRecheck() :: ReachesKind(defs, c, ApprovalKind))
  }

  ghost predicate ExecuteOk(w: Workflow, defs: map<string, Gate>, executionEnabled: bool) {
    exists e :: ExecuteIs(w, defs, e) && ExecutePathOk(defs, e, executionEnabled)
  }

  datatype Kind = NotifyKind | ApprovalKind

  predicate HasKind(gate: Gate, kind: Kind) {
    if kind.NotifyKind? then gate.body.NotifyGate? else gate.body.ApprovalGate?
  }

  /** Some ancestor of `from` is of the kind. */
  ghost predicate ReachesKind(defs: map<string, Gate>, from: string, kind: Kind) {
    exists n | n in defs :: Reaches(Requirements(defs), from, n) && HasKind(defs[n], kind)
  }

  /** `e` is the one execute gate, and it calls the workflow's target. */
  ghost predicate ExecuteIs(w: Workflow, defs: map<string, Gate>, e: string) {
    && e in defs && defs[e].body.ExecuteGate?
    && defs[e].body.target == w.targetTool
    && forall x | x in defs && defs[x].body.ExecuteGate? :: x == e
  }

  ghost predicate ExecutePathOk(defs: map<string, Gate>, e: string, executionEnabled: bool)
    requires e in defs && defs[e].body.ExecuteGate?
  {
    && ReachesKind(defs, e, NotifyKind)
    && ReachesKind(defs, e, ApprovalKind)
    && (executionEnabled ==>
          forall a | a in defs && defs[a].body.ApprovalGate? && Reaches(Requirements(defs), e, a) ::
            RecheckedBetween(defs, e, a))
    && (!executionEnabled ==> defs[e].body.simulationOnly)
  }

  /** Some recheck the execute gate waits for itself waits for the approval. */
  ghost predicate RecheckedBetween(defs: map<string, Gate>, e: string, a: string) {
    exists c | c in defs ::
      defs[c].IsRecheck() && Reaches(Requirements(defs), e, c) && Reaches(Requirements(defs), c, a)
  }

  datatype PolicyError =
    | BadShape | BadGateId | UnknownRequirement | GateCycle | ApprovalWithoutNotify | RecheckWithoutApproval
    | NotOneExecute | WrongTarget | BypassedGate | MissingRecheck | LiveExecute | BadTop

  datatype Verdict = Accepted | Rejected(error: PolicyError)

  /** As many elements as the set of them has. */
  method AllDistinct(items: seq<string>) returns (distinct: bool)
    ensures distinct <==> forall i, j | 0 <= i < j < |items| :: items[i] != items[j]
  {
    var seen: set<string> := {};
    for k := 0 to |items|
      invariant seen == set i | 0 <= i < k :: items[i]
      invariant forall i, j | 0 <= i < j < k :: items[i] != items[j]
    {
      if items[k] in seen {
        return false;
      }
      seen := seen + {items[k]};
    }
    distinct := true;
  }

  method CheckPrincipals(principals: seq<string>) returns (ok: bool)
    ensures ok <==> PrincipalsOk(principals)
  {
    if principals == [] {
      return false;
    }
    for k := 0 to |principals|
      invariant forall i | 0 <= i < k :: principals[i] != ""
    {
      if principals[k] == "" {
        return false;
      }
    }
    var distinct := AllDistinct(principals);
    if !distinct {
      return false;
    }
    ok := "*" !in principals || |principals| == 1;
  }

  /** `_validate_schema_shape`. */
  method CheckSchema(schema: ParameterSchema) returns (ok: bool)
    ensures ok <==> SchemaOk(schema)
  {
    var distinct := AllDistinct(schema.required);
    if !distinct {
      return false;
    }
    for k := 0 to |schema.required|
      invariant forall i | 0 <= i < k :: schema.required[i] in schema.properties
    {
      if schema.required[k] !in schema.properties {
        return false;
      }
    }
    var todo := schema.properties.Keys;
    while todo != {}
      invariant todo <= schema.properties.Keys
      invariant forall name | name in schema.properties && name !in todo :: SpecOk(schema.properties[name])
    {
      var name :| name in todo;
      var spec := schema.properties[name];
      var numeric := spec.kind.IntegerParam? || spec.kind.NumberParam?;
      if (spec.minLength.Some? && !spec.kind.StringParam?) || spec.allowed == Some([])
         || (spec.minimum.Some? && !numeric) || (spec.maximum.Some? && !numeric) {
        return false;
      }
      todo := todo - {name};
    }
    ok := true;
  }

  /** `not text.strip()`. */
  method IsBlank(text: string) returns (blank: bool)
    ensures blank <==> Blank(text)
  {
    for k := 0 to |text|
      invariant forall i | 0 <= i < k :: text[i] in {' ', '\t', '\n', '\r', '\U{0B}', '\U{0C}'}
    {
      if text[k] !in {' ', '\t', '\n', '\r', '\U{0B}', '\U{0C}'} {
        return false;
      }
    }
    blank := true;
  }

  /** `_validate_gate_fields`. */
  method CheckFields(gate: Gate) returns (ok: bool)
    ensures ok <==> FieldsOk(gate)
  {
    ok := true;
    match gate.body
    case ConditionGate(path, _) =>
      if path == "" {
        ok := false;
      }
    case ToolGate(tool, _, expectPath, _, _) =>
      if tool == "" || expectPath == "" {
        ok := false;
      }
    case NotifyGate(recipient, template) =>
      var recipientBlank := IsBlank(recipient);
      var templateBlank := IsBlank(template);
      if recipientBlank || templateBlank {
        ok := false;
      }
    case ApprovalGate(_, ttl) =>
      if ttl < 1 {
        ok := false;
      }
    case _ =>
  }

  /** `_validate_value`. */
  method ValidateValue(v: Json, spec: ParameterSpec) returns (ok: bool)
    ensures ok <==> ValidValue(v, spec)
  {
    var fits :=
      match spec.kind
      case StringParam => v.Str?
      case BooleanParam => v.Bool?
      case IntegerParam => v.Int?
      case NumberParam => v.Int? || v.Float?
      case ObjectParam => v.Obj?
      case ArrayParam => v.Arr?;
    if !fits {
      return false;
    }
    if spec.minLength.Some? && (!v.Str? || |v.text| < spec.minLength.value) {
      return false;
    }
    if spec.allowed.Some? {
      var listed := false;
      for i := 0 to |spec.allowed.value|
        invariant listed <==> exists j | 0 <= j < i :: JsonEqual(v, spec.allowed.value[j])
      {
        listed := listed || JsonEqual(v, spec.allowed.value[i]);
      }
      if !listed {
        return false;
      }
    }
    var number := v.Int? || v.Float?;
    if spec.maximum.Some? && (!number || NumberOf(v) > spec.maximum.value) {
      return false;
    }
    ok := spec.minimum.None? || (number && NumberOf(v) >= spec.minimum.value);
  }

  /** `_validate_parameters`. */
  method ValidateParameters(schema: ParameterSchema, parameters: map<string, Json>) returns (ok: bool)
    ensures ok <==> ValidParameters(schema, parameters)
  {
    if !(parameters.Keys <= schema.properties.Keys) {
      return false;
    }
    for k := 0 to |schema.required|
      invariant forall i | 0 <= i < k :: schema.required[i] in parameters
    {
      if schema.required[k] !in parameters {
        return false;
      }
    }
    var todo := parameters.Keys;
    while todo != {}
      invariant todo <= parameters.Keys
      invariant forall name | name in parameters && name !in todo ::
                  Finite(parameters[name]) && ValidValue(parameters[name], schema.properties[name])
    {
      var name :| name in todo;
      var valid := ValidateValue(parameters[name], schema.properties[name]);
      if !Finite(parameters[name]) || !valid {
        return false;
      }
      todo := todo - {name};
    }
    ok := true;
  }

  /** One workflow of the loader's loop: the checks in source order. */
  method CheckWorkflow(w: Workflow, executionEnabled: bool) returns (r: Verdict)
    ensures r.Accepted? <==> AcceptedWorkflow(w, executionEnabled)
    ensures r == Rejected(GateCycle) ==> !Acyclic(Requirements(Definitions(w.gates)))
  {
    var principals := CheckPrincipals(w.principals);
    var schema := CheckSchema(w.parameters);
    if !principals || w.targetTool == "" || !schema || w.gates == [] {
      return Rejected(BadShape);
    }
    var defs: map<string, Gate>;
    r, defs := CollectGates(w.gates);
    if r.Rejected? {
      return;
    }
    var g := Requirements(defs);
    if exists id | id in defs :: exists i | 0 <= i < |defs[id].needs| :: defs[id].needs[i] !in defs {
      ghost var id :| id in defs && exists i | 0 <= i < |defs[id].needs| :: defs[id].needs[i] !in defs;
      ghost var i :| 0 <= i < |defs[id].needs| && defs[id].needs[i] !in defs;
      assert g[id][i] in g[id] && g[id][i] !in g;
      return Rejected(UnknownRequirement);
    }
    assert Closed(g) by {
      forall v, d | v in g && d in g[v] ensures d in g {
        var i :| 0 <= i < |g[v]| && g[v][i] == d;
        assert defs[v].needs[i] == d;
      }
    }
    var acyclic := RejectCycles(g);
    if !acyclic {
      return Rejected(GateCycle);
    }
    r := CheckAncestors(w.gates, defs);
    if r.Rejected? {
      return;
    }
    r := CheckExecute(w, defs, executionEnabled);
  }

  /** Fills `gate_by_id`, rejecting bad fields and empty or repeated ids. */
  method CollectGates(gates: seq<Gate>) returns (r: Verdict, defs: map<string, Gate>)
    ensures r.Accepted? <==> GatesOk(gates)
    ensures r.Accepted? ==> defs == Definitions(gates)
    ensures r.Rejected? ==> r.error.BadShape? || r.error.BadGateId?
  {
    defs := map[];
    var k := 0;
    while k < |gates|
      invariant 0 <= k <= |gates|
      invariant defs == DefinitionsUpTo(gates, k)
      invariant forall i, j | 0 <= i < j < k :: gates[i].id != gates[j].id
      invariant forall i | 0 <= i < k :: FieldsOk(gates[i]) && gates[i].id != ""
    {
      DefinitionsDomain(gates, k);
      var gate := gates[k];
      if gate.id == "" || gate.id in defs {
        return Rejected(BadGateId), defs;
      }
      var ok := CheckFields(gate);
      if !ok {
        return Rejected(BadShape), defs;
      }
      defs := defs[gate.id := gate];
      k := k + 1;
    }
    r := Accepted;
  }

  /** Approvals wait for a notification, rechecks for an approval. */
  method CheckAncestors(gates: seq<Gate>, defs: map<string, Gate>) returns (r: Verdict)
    requires UniqueIds(gates) && defs == Definitions(gates) && Closed(Requirements(defs))
    ensures r.Accepted? <==>
            && (forall a | a in defs && defs[a].body.ApprovalGate? :: ReachesKind(defs, a, NotifyKind))
            && (forall c | c in defs && defs[c].IsRecheck() :: ReachesKind(defs, c, ApprovalKind))
    ensures r.Rejected? ==> r.error.ApprovalWithoutNotify? || r.error.RecheckWithoutApproval?
  {
    DefinitionsLookup(gates);
    var k := 0;
    while k < |gates|
      invariant 0 <= k <= |gates|
      invariant forall i | 0 <= i < k && gates[i].body.ApprovalGate? :: ReachesKind(defs, gates[i].id, NotifyKind)
      invariant forall i | 0 <= i < k && gates[i].IsRecheck() :: ReachesKind(defs, gates[i].id, ApprovalKind)
    {
      var gate := gates[k];
      var kinds := AncestorKinds(gate.id, defs);
      if gate.body.ApprovalGate? && NotifyKind !in kinds {
        return Rejected(ApprovalWithoutNotify);
      }
      if gate.IsRecheck() && ApprovalKind !in kinds {
        return Rejected(RecheckWithoutApproval);
      }
      k := k + 1;
    }
    r := Accepted;
  }

  /** The kinds, among the two that matter, found on the ancestors of a gate. */
  method AncestorKinds(from: string, defs: map<string, Gate>) returns (kinds: set<Kind>)
    requires Closed(Requirements(defs)) && from in defs
    ensures forall kind :: kind in kinds <==> ReachesKind(defs, from, kind)
  {
    var ancestors := Ancestors(from, Requirements(defs));
    kinds := {};
    if exists n | n in ancestors :: n in defs && HasKind(defs[n], NotifyKind) {
      kinds := kinds + {NotifyKind};
    }
    if exists n | n in ancestors :: n in defs && HasKind(defs[n], ApprovalKind) {
      kinds := kinds + {ApprovalKind};
    }
  }

  /** Exactly one execute gate, on the target, behind notify, approval and (when live)
      a recheck after every approval. */
  method CheckExecute(w: Workflow, defs: map<string, Gate>, executionEnabled: bool) returns (r: Verdict)
    requires Closed(Requirements(defs))
    ensures r.Accepted? <==> ExecuteOk(w, defs, executionEnabled)
    ensures r.Rejected? ==> r.error != GateCycle
  {
    var executes := set id | id in defs && defs[id].body.ExecuteGate?;
    forall e | ExecuteIs(w, defs, e) ensures |executes| == 1 {
      assert executes == {e};
    }
    if |executes| != 1 {
      return Rejected(NotOneExecute);
    }
    var e :| e in executes;
    OnlyMember(executes, e);
    if defs[e].body.target != w.targetTool {
      return Rejected(WrongTarget);
    }
    forall x | x in defs && defs[x].body.ExecuteGate? ensures x == e {
      assert x in executes;
    }
    assert ExecuteIs(w, defs, e);
    r := CheckExecutePath(defs, e, executionEnabled);
  }

  method CheckExecutePath(defs: map<string, Gate>, e: string, executionEnabled: bool) returns (r: Verdict)
    requires Closed(Requirements(defs)) && e in defs && defs[e].body.ExecuteGate?
    ensures r.Accepted? <==> ExecutePathOk(defs, e, executionEnabled)
    ensures r.Rejected? ==> r.error != GateCycle
  {
    var kinds := AncestorKinds(e, defs);
    if NotifyKind !in kinds || ApprovalKind !in kinds {
      return Rejected(BypassedGate);
    }
    if executionEnabled {
      var rechecked := EveryApprovalRechecked(defs, e);
      if !rechecked {
        return Rejected(MissingRecheck);
      }
    } else if !defs[e].body.simulationOnly {
      return Rejected(LiveExecute);
    }
    r := Accepted;
  }

  method EveryApprovalRechecked(defs: map<string, Gate>, e: string) returns (ok: bool)
    requires Closed(Requirements(defs)) && e in defs
    ensures ok <==> forall a | a in defs && defs[a].body.ApprovalGate? && Reaches(Requirements(defs), e, a) ::
                      RecheckedBetween(defs, e, a)
  {
    var ancestors := Ancestors(e, Requirements(defs));
    var todo := set a | a in ancestors && a in defs && defs[a].body.ApprovalGate?;
    ghost var approvals := todo;
    while todo != {}
      invariant todo <= approvals
      invariant forall a | a in approvals && a !in todo :: RecheckedBetween(defs, e, a)
    {
      var a :| a in todo;
      ok := RecheckFollows(defs, ancestors, e, a);
      if !ok {
        return;
      }
      todo := todo - {a};
    }
    ok := true;
  }

  lemma OnlyMember(s: set<string>, e: string)
    requires |s| == 1 && e in s
    ensures forall x | x in s :: x == e
  {
    forall x | x in s ensures x == e {
      if x != e {
        assert {x, e} <= s;
        if {x, e} != s {
          SubsetSmaller({x, e}, s);
        }
      }
    }
  }

  /** Some recheck among the ancestors of the execute gate has the approval among its own. */
  method RecheckFollows(defs: map<string, Gate>, ancestors: set<string>, e: string, a: string) returns (found: bool)
    requires Closed(Requirements(defs)) && e in defs
    requires forall u :: u in ancestors <==> Reaches(Requirements(defs), e, u)
    ensures found <==> RecheckedBetween(defs, e, a)
  {
    forall u | u in ancestors ensures u in defs {
      ReachedIsGate(Requirements(defs), e, u);
    }
    var rechecks := set c | c in ancestors && c in defs && defs[c].IsRecheck();
    var todo := rechecks;
    while todo != {}
      invariant todo <= rechecks
      invariant forall c | c in rechecks - todo :: !Reaches(Requirements(defs), c, a)
    {
      var c :| c in todo;
      var before := Ancestors(c, Requirements(defs));
      if a in before {
        return true;
      }
      todo := todo - {c};
    }
    found := false;
  }

  ghost predicate AcceptedPolicy(p: Policy) {
    && TopFieldsOk(p)
    && forall action | action in p.workflows :: AcceptedWorkflow(p.workflows[action], p.executionEnabled)
  }

  predicate TopFieldsOk(p: Policy) {
    && p.version in {1, 2}
    && (p.version == 2 ==> p.audience != "" && p.authorizationTtl >= 1)
    && (p.executionEnabled ==> p.enforcing)
    && p.workflows != map[]
  }

  method LoadPolicy(p: Policy) returns (r: Verdict)
    ensures r.Accepted? <==> AcceptedPolicy(p)
  {
    if p.version != 1 && p.version != 2 {
      return Rejected(BadTop);
    }
    if p.version == 2 && (p.audience == "" || p.authorizationTtl < 1) {
      return Rejected(BadTop);
    }
    if !p.enforcing && p.executionEnabled {
      return Rejected(BadTop);
    }
    if p.workflows == map[] {
      return Rejected(BadTop);
    }
    var todo := p.workflows.Keys;
    while todo != {}
      invariant todo <= p.workflows.Keys
      invariant forall action | action in p.workflows && action !in todo ::
                  AcceptedWorkflow(p.workflows[action], p.executionEnabled)
    {
      var action :| action in todo;
      r := CheckWorkflow(p.workflows[action], p.executionEnabled);
      if r.Rejected? {
        return;
      }
      todo := todo - {action};
    }
    r := Accepted;
  }

  // ---- The caller's floor ------------------------------------------------------------

  function Rank(c: Control): nat { if c.StepUp? then 2 else 1 }

  function LevelControl(level: Level): Control { if level.HumanStepUp? then StepUp else Ask }

  predicate HasApproval(gates: seq<Gate>) {
    exists i | 0 <= i < |gates| :: gates[i].body.ApprovalGate?
  }

  /** The strongest control any approval gate asks for. */
  function PolicyControl(gates: seq<Gate>): Control {
    if exists i | 0 <= i < |gates| :: gates[i].body.ApprovalGate? && gates[i].body.level.HumanStepUp?
    then StepUp else Ask
  }

  function EffectiveControl(gates: seq<Gate>, floor: Floor): Control {
    if PolicyControl(gates).StepUp? || floor == AtLeast(StepUp) then StepUp else Ask
  }

  function Tighten(gate: Gate): Gate {
    match gate.body
    case ApprovalGate(_, ttl) => gate.(body := ApprovalGate(HumanStepUp, if ttl < 300 then ttl else 300))
    case _ => gate
  }

  function TightenAll(gates: seq<Gate>): (r: seq<Gate>)
    ensures |r| == |gates|
    ensures forall i | 0 <= i < |gates| :: r[i] == Tighten(gates[i])
  {
    seq(|gates|, i requires 0 <= i < |gates| => Tighten(gates[i]))
  }

  /** The workflow a request runs under; the source raises when no gate is an approval. */
  function EffectiveWorkflow(w: Workflow, floor: Floor): Workflow {
    if EffectiveControl(w.gates, floor).StepUp? then w.(gates := TightenAll(w.gates)) else w
  }

  /** Every approval gate asks exactly for the request's effective control; under step-up
      none lives longer than 300 seconds. */
  predicate ControlMatches(w: Workflow, control: Control) {
    forall i | 0 <= i < |w.gates| && w.gates[i].body.ApprovalGate? ::
      && LevelControl(w.gates[i].body.level) == control
      && (control.StepUp? ==> w.gates[i].body.ttl <= 300)
  }

  /** Some approval asks for step-up, or the caller does. */
  predicate StepsUp(gates: seq<Gate>, floor: Floor) {
    || floor == AtLeast(StepUp)
    || exists i | 0 <= i < |gates| :: gates[i].body.ApprovalGate? && gates[i].body.level.HumanStepUp?
  }

  /** `now` is what a gate of the policy becomes: an approval under step-up asks for it, for at
      most 300 seconds and never for longer than the policy says; anything else stays. */
  predicate InForce(gate: Gate, now: Gate, stepUp: bool) {
    && now.id == gate.id && now.needs == gate.needs
    && (!gate.body.ApprovalGate? || !stepUp ==> now.body == gate.body)
    && (gate.body.ApprovalGate? && stepUp ==>
          && now.body.ApprovalGate? && now.body.level.HumanStepUp?
          && now.body.ttl <= 300 && now.body.ttl <= gate.body.ttl
          && (now.body.ttl == 300 || now.body.ttl == gate.body.ttl))
  }

  /** Gate by gate: the workflow a request runs under is the policy's, each approval's window cut
      to 300 seconds, and none widened, exactly when policy or caller ask for step-up. */
  lemma WorkflowInForce(w: Workflow, floor: Floor)
    ensures var v := EffectiveWorkflow(w, floor);
            && v.principals == w.principals && v.targetTool == w.targetTool && v.parameters == w.parameters
            && |v.gates| == |w.gates|
            && forall i | 0 <= i < |w.gates| :: InForce(w.gates[i], v.gates[i], StepsUp(w.gates, floor))
    ensures EffectiveControl(w.gates, floor).StepUp? <==> StepsUp(w.gates, floor)
  {
  }

  /** The same by gate id. */
  lemma GateInForce(w: Workflow, floor: Floor, id: string)
    ensures Definitions(EffectiveWorkflow(w, floor).gates).Keys == Definitions(w.gates).Keys
    ensures id in Definitions(w.gates) ==>
              InForce(Definitions(w.gates)[id], Definitions(EffectiveWorkflow(w, floor).gates)[id],
                StepsUp(w.gates, floor))
  {
    if EffectiveControl(w.gates, floor).StepUp? {
      TightenDefinitions(w.gates, |w.gates|);
    }
  }

  /** The floor only raises: the effective control is the larger of policy and floor, every
      approval gate of the workflow in force asks for it, windows only shrink, and nothing
      else about the graph changes, so acceptance carries over. */
  lemma FloorOnlyRaises(w: Workflow, floor: Floor, executionEnabled: bool)
    requires AcceptedWorkflow(w, executionEnabled)
    ensures var control := EffectiveControl(w.gates, floor);
            var floorRank := if floor.PolicyDecides? then 0 else Rank(floor.control);
            && Rank(control) >= Rank(PolicyControl(w.gates)) && Rank(control) >= floorRank
            && (Rank(control) == Rank(PolicyControl(w.gates)) || Rank(control) == floorRank)
    ensures ControlMatches(EffectiveWorkflow(w, floor), EffectiveControl(w.gates, floor))
    ensures AcceptedWorkflow(EffectiveWorkflow(w, floor), executionEnabled)
    ensures forall i | 0 <= i < |w.gates| ::
              InForce(w.gates[i], EffectiveWorkflow(w, floor).gates[i], StepsUp(w.gates, floor))
    ensures HasApproval(w.gates)
  {
    WorkflowInForce(w, floor);
    AcceptedHasApproval(w, executionEnabled);
    EffectiveControlMatches(w, floor);
    if EffectiveControl(w.gates, floor).StepUp? {
      TightenKeepsAcceptance(w, executionEnabled);
    }
  }

  lemma EffectiveControlMatches(w: Workflow, floor: Floor)
    ensures ControlMatches(EffectiveWorkflow(w, floor), EffectiveControl(w.gates, floor))
  {
  }

  lemma AcceptedHasApproval(w: Workflow, executionEnabled: bool)
    requires AcceptedWorkflow(w, executionEnabled)
    ensures HasApproval(w.gates)
  {
    var defs := Definitions(w.gates);
    DefinitionsLookup(w.gates);
    var e :| ExecuteIs(w, defs, e) && ExecutePathOk(defs, e, executionEnabled);
    var a :| a in defs && Reaches(Requirements(defs), e, a) && HasKind(defs[a], ApprovalKind);
    assert defs[a] in w.gates;
  }

  lemma {:induction false} TightenDefinitions(gates: seq<Gate>, k: nat)
    requires k <= |gates|
    ensures DefinitionsUpTo(TightenAll(gates), k).Keys == DefinitionsUpTo(gates, k).Keys
    ensures forall id | id in DefinitionsUpTo(gates, k) ::
              DefinitionsUpTo(TightenAll(gates), k)[id] == Tighten(DefinitionsUpTo(gates, k)[id])
  {
    if k > 0 {
      TightenDefinitions(gates, k - 1);
    }
  }

  lemma TightenKeepsAcceptance(w: Workflow, executionEnabled: bool)
    requires AcceptedWorkflow(w, executionEnabled)
    ensures AcceptedWorkflow(w.(gates := TightenAll(w.gates)), executionEnabled)
  {
    var defs, defs' := Definitions(w.gates), Definitions(TightenAll(w.gates));
    TightenDefinitions(w.gates, |w.gates|);
    assert Requirements(defs') == Requirements(defs);
    TightenKeepsGates(w.gates);
    TightenKeepsGraph(defs, defs');
    TightenKeepsExecute(w, defs, defs', executionEnabled);
  }

  lemma TightenKeepsGates(gates: seq<Gate>)
    requires GatesOk(gates)
    ensures GatesOk(TightenAll(gates))
  {
  }

  lemma TightenKeepsGraph(defs: map<string, Gate>, defs': map<string, Gate>)
    requires Tightened(defs, defs') && GraphOk(defs)
    ensures GraphOk(defs')
  {
    forall a | a in defs' && defs'[a].body.ApprovalGate? ensures ReachesKind(defs', a, NotifyKind) {
      TightenKeepsKind(defs, defs', a, NotifyKind);
    }
    forall c | c in defs' && defs'[c].IsRecheck() ensures ReachesKind(defs', c, ApprovalKind) {
      TightenKeepsKind(defs, defs', c, ApprovalKind);
    }
  }

  lemma TightenKeepsExecute(w: Workflow, defs: map<string, Gate>, defs': map<string, Gate>, executionEnabled: bool)
    requires Tightened(defs, defs') && ExecuteOk(w, defs, executionEnabled)
    ensures ExecuteOk(w.(gates := TightenAll(w.gates)), defs', executionEnabled)
  {
    var e :| ExecuteIs(w, defs, e) && ExecutePathOk(defs, e, executionEnabled);
    TightenKeepsExecutePath(defs, defs', e, executionEnabled);
    assert ExecuteIs(w.(gates := TightenAll(w.gates)), defs', e);
  }

  ghost predicate Tightened(defs: map<string, Gate>, defs': map<string, Gate>) {
    && defs'.Keys == defs.Keys
    && Requirements(defs') == Requirements(defs)
    && forall id | id in defs :: defs'[id] == Tighten(defs[id])
  }

  lemma TightenKeepsKind(defs: map<string, Gate>, defs': map<string, Gate>, from: string, kind: Kind)
    requires Tightened(defs, defs') && ReachesKind(defs, from, kind)
    ensures ReachesKind(defs', from, kind)
  {
    var n :| n in defs && Reaches(Requirements(defs), from, n) && HasKind(defs[n], kind);
    assert HasKind(defs'[n], kind);
  }

  lemma TightenKeepsExecutePath(defs: map<string, Gate>, defs': map<string, Gate>, e: string, executionEnabled: bool)
    requires Tightened(defs, defs')
    requires e in defs && defs[e].body.ExecuteGate? && ExecutePathOk(defs, e, executionEnabled)
    ensures ExecutePathOk(defs', e, executionEnabled)
  {
    TightenKeepsKind(defs, defs', e, NotifyKind);
    TightenKeepsKind(defs, defs', e, ApprovalKind);
    forall a | a in defs && RecheckedBetween(defs, e, a) ensures RecheckedBetween(defs', e, a) {
      var c :| c in defs && defs[c].IsRecheck() && Reaches(Requirements(defs), e, c)
        && Reaches(Requirements(defs), c, a);
      assert defs'[c].IsRecheck();
    }
  }
}
