/** Human approvals signed with enrolled keys: the roster's checks, the bridge, the
    coordinator's host evidence, and the engine's own checks at the end of the chain.

    Signatures are symbolic: who signed, and what. */
module SignedApprovals {
  import opened JsonValues
  import opened Policies
  import opened Claims
  import opened GateEngine
  import opened RequestLifecycle
  import opened EngineSafety
  import opened EngineTheorems
  import opened EngineRuns
  import opened ApprovalIngestion
  import P = ConsumptionProtocol

  // ---- Roster ---------------------------------------------------------------------------------

  datatype PublicKey = PublicKey(text: string)

  /** As configured: `None` is an undecodable key or an unknown assurance. */
  datatype RosterEntry = RosterEntry(actor: string, publicKey: Option<PublicKey>, assurances: seq<Option<Control>>)

  datatype RosterKey = RosterKey(actor: string, publicKey: PublicKey, assurances: set<Control>)

  datatype Roster = Roster(keys: map<string, RosterKey>, maxAge: int)

  const HUMAN: string := "human:"

  predicate EntryOk(keyId: string, entry: RosterEntry) {
    && keyId != "" && HUMAN <= entry.actor && entry.publicKey.Some?
    && entry.assurances != []
    && (forall i | 0 <= i < |entry.assurances| :: entry.assurances[i].Some?)
    && (forall i, j | 0 <= i < j < |entry.assurances| :: entry.assurances[i] != entry.assurances[j])
  }

  /** Every configured entry is in the roster as configured, and nothing else is. */
  ghost predicate EnrolledFrom(roster: Roster, entries: seq<(string, RosterEntry)>, maxAge: int) {
    && maxAge >= 1 && roster.maxAge == maxAge
    && (forall k | k in roster.keys :: exists i | 0 <= i < |entries| :: entries[i].0 == k)
    && (forall i | 0 <= i < |entries| ::
          entries[i].0 in roster.keys && EnrolledAs(roster.keys[entries[i].0], entries[i].1))
  }

  ghost predicate EnrolledAs(key: RosterKey, entry: RosterEntry) {
    && key.actor == entry.actor && entry.publicKey == Some(key.publicKey)
    && forall control :: control in key.assurances <==> Some(control) in entry.assurances
  }

  /** One entry: malformed, or as it is kept. */
  method EnrolKey(keyId: string, entry: RosterEntry) returns (key: Option<RosterKey>)
    ensures key.Some? <==> EntryOk(keyId, entry)
    ensures key.Some? ==> EnrolledAs(key.value, entry)
  {
    if keyId == "" || !(HUMAN <= entry.actor) || entry.assurances == [] || entry.publicKey.None? {
      return None;
    }
    var assurances: set<Control> := {};
    for k := 0 to |entry.assurances|
      invariant forall i | 0 <= i < k :: entry.assurances[i].Some?
      invariant forall i, j | 0 <= i < j < k :: entry.assurances[i] != entry.assurances[j]
      invariant forall control :: control in assurances <==> Some(control) in entry.assurances[..k]
    {
      if entry.assurances[k].None? || entry.assurances[k].value in assurances {
        assert entry.assurances[k].Some? ==> entry.assurances[k] in entry.assurances[..k];
        return None;
      }
      assert entry.assurances[..k + 1] == entry.assurances[..k] + [entry.assurances[k]];
      assurances := assurances + {entry.assurances[k].value};
    }
    assert entry.assurances[..|entry.assurances|] == entry.assurances;
    key := Some(RosterKey(entry.actor, entry.publicKey.value, assurances));
  }

  /** The roster's constructor: all entries or none. */
  method EnrolKeys(entries: seq<(string, RosterEntry)>, maxAge: int) returns (roster: Option<Roster>)
    requires forall i, j | 0 <= i < j < |entries| :: entries[i].0 != entries[j].0
    ensures roster.Some? <==>
              maxAge >= 1 && entries != [] && forall i | 0 <= i < |entries| :: EntryOk(entries[i].0, entries[i].1)
    ensures roster.Some? ==> EnrolledFrom(roster.value, entries, maxAge)
  {
    if maxAge < 1 || entries == [] {
      return None;
    }
    var keys: map<string, RosterKey> := map[];
    for n := 0 to |entries|
      invariant forall i | 0 <= i < n ::
                  && EntryOk(entries[i].0, entries[i].1) && entries[i].0 in keys
                  && EnrolledAs(keys[entries[i].0], entries[i].1)
      invariant forall k | k in keys :: exists i | 0 <= i < n :: entries[i].0 == k
    {
      var (keyId, entry) := entries[n];
      var key := EnrolKey(keyId, entry);
      if key.None? {
        return None;
      }
      keys := keys[keyId := key.value];
    }
    roster := Some(Roster(keys, maxAge));
  }

  // ---- Signed evidence -------------------------------------------------------------------------

  /** The signed fields; `None` is a value of the wrong type. `evidenceId` may be any JSON. */
  datatype ApprovalBody = ApprovalBody(
    evidenceId: Json, requestId: Option<RequestId>, requestHash: Option<RequestBody>, actor: string, approves: bool,
    assurance: Option<Control>, keyId: string, signedAt: Option<int>, expiresAt: Option<int>)

  datatype PublicSignature = PublicSignature(key: PublicKey, body: ApprovalBody)

  datatype SignedApproval = SignedApproval(body: ApprovalBody, signature: Option<PublicSignature>)

  /** `Ed25519ApprovalRoster.verify` of evidence for request `id`. */
  predicate RosterVerifies(roster: Roster, ev: SignedApproval, id: RequestId, r: Request, now: int) {
    var b := ev.body;
    && b.keyId in roster.keys
    && b.actor == roster.keys[b.keyId].actor && b.approves
    && b.assurance.Some? && b.assurance.value in roster.keys[b.keyId].assurances
    && Rank(b.assurance.value) >= Rank(id.hash.control)
    && b.requestId == Some(id) && b.requestHash == Some(id.hash)
    && b.signedAt.Some? && b.expiresAt.Some?
    && r.createdAt <= b.signedAt.value <= now < b.expiresAt.value && now - b.signedAt.value <= roster.maxAge
    && ev.signature == Some(PublicSignature(roster.keys[b.keyId].publicKey, b))
  }

  // ---- Coordinator -------------------------------------------------------------------------------

  datatype Provenance = HostHmac | Ed25519(keyId: string, signedAt: int, signature: PublicSignature)

  predicate ProvenanceOk(p: Provenance) { p.Ed25519? ==> p.keyId != "" }

  /** What is kept with the approval; the signature's digest is left opaque. */
  function ProvenanceJson(p: Provenance): Json {
    match p
    case HostHmac => Obj(map["transport" := Str("hmac-host")])
    case Ed25519(keyId, signedAt, _) =>
      Obj(map["transport" := Str("ed25519"), "key_id" := Str(keyId), "signed_at" := Int(signedAt)])
  }

  datatype HostSignature = HostSignature(key: string, evidence: ApprovalInput)

  /** `HostApprovalVerifier.verify`. */
  predicate HostVerifies(key: string, e: ApprovalInput, signature: HostSignature, control: Control) {
    e.assurance.Some? && Rank(e.assurance.value) >= Rank(control) && signature == HostSignature(key, e)
  }

  /** A missing id is generated, anything but a non-empty text is refused. */
  function EvidenceId(given: Json, generated: string): Option<string> {
    match given
    case Null => Some(generated)
    case Str(text) => if text == "" then None else Some(text)
    case _ => None
  }

  function BoundedExpiry(now: int, ttl: int, expiresAt: Option<int>): int {
    if expiresAt.Some? then Min(now + ttl, expiresAt.value) else now + ttl
  }

  function HostEvidence(n: string, id: RequestId, g: string, expiresAt: int, actor: string, assurance: Control,
      p: Provenance): ApprovalInput {
    ApprovalInput(true, Some(n), Some(id), Some(id.hash), Some(g), Some(expiresAt), Some(actor), Some(assurance),
      ProvenanceJson(p))
  }

  /** `CoreBackend.approve_request`; the host verifier makes no calls of its own, `rest` is what
      the later callbacks do. */
  ghost function ApproveRequest(
    c: Config, s: State, hostKey: string, id: RequestId, actor: string, assurance: Control, evidenceId: Json,
    provenance: Provenance, expiresAt: Option<int>, generated: string, rest: Env): Result
  {
    var n := EvidenceId(evidenceId, generated);
    if n.None? || !ProvenanceOk(provenance) then Result(s, Raised(BadEvidence))
    else if id !in s.requests then Result(s, Raised(NotFound))
    else
      var gate := WaitingGate(id.hash.workflow.gates, s.requests[id], 0);
      if gate.None? || gate.value.id !in s.requests[id].gates
         || !s.requests[id].gates[gate.value.id].evidence.Awaiting? then
        Result(s, Raised(NotWaiting))
      else
        var now := c.clock(s.tick);
        var s' := s.(tick := s.tick + 1);
        if expiresAt.Some? && expiresAt.value <= now then Result(s', Raised(EvidenceExpired))
        else
          var e := HostEvidence(n.value, id, gate.value.id,
                                BoundedExpiry(now, s.requests[id].gates[gate.value.id].evidence.ttl, expiresAt),
                                  actor, assurance, provenance);
          var trusted := HostVerifies(hostKey, e, HostSignature(hostKey, e), id.hash.control);
          IngestApproval(c, s', id, e, Answer(NoCalls, Trusts(trusted), rest))
  }

  datatype BridgeOutcome = NotVerified | Submitted(result: Result)

  /** `SignedApprovalBridge.approve`. */
  ghost function BridgeApprove(c: Config, s: State, roster: Roster, hostKey: string, ev: SignedApproval, now: int,
      generated: string, rest: Env): BridgeOutcome {
    var b := ev.body;
    if b.requestId.None? || b.requestId.value !in s.requests
       || !RosterVerifies(roster, ev, b.requestId.value, s.requests[b.requestId.value], now)
    then NotVerified
    else
      Submitted(ApproveRequest(c, s, hostKey, b.requestId.value, b.actor, b.assurance.value, b.evidenceId,
                               Ed25519(b.keyId, b.signedAt.value, ev.signature.value), b.expiresAt, generated, rest))
  }

  // ---- Acceptance ----------------------------------------------------------------------------------

  ghost predicate FixedClock(c: Config, now: int) { forall k: nat :: c.clock(k) == now }

  /** The evidence id the coordinator will use is a new one. */
  predicate NewId(s: State, given: Json, generated: string) {
    || (given.Null? && generated !in s.consumedApprovals)
    || (given.Str? && given.text != "" && given.text !in s.consumedApprovals)
  }

  /** The id itself: the one given, or the generated one where none is. */
  function IdUsed(given: Json, generated: string): string { if given.Str? then given.text else generated }

  lemma NewIdIff(s: State, given: Json, generated: string)
    ensures NewId(s, given, generated) <==>
              EvidenceId(given, generated).Some? && EvidenceId(given, generated).value !in s.consumedApprovals
    ensures EvidenceId(given, generated).Some? ==> EvidenceId(given, generated).value == IdUsed(given, generated)
  {
  }

  /** The evidence the coordinator builds passes every check of the engine. */
  lemma HostEvidencePasses(c: Config, s: State, own: iset<Key>, id: RequestId, n: string, actor: string,
      assurance: Control, p: Provenance, expiresAt: Option<int>, now: int)
    requires Settled(c, s, own) && FixedClock(c, now) && id in s.requests && s.requests[id].state.WaitingForApproval?
    requires n != "" && n !in s.consumedApprovals && actor != "" && Rank(assurance) >= Rank(id.hash.control)
    requires expiresAt.Some? ==> expiresAt.value > now
    ensures var gate := WaitingGate(id.hash.workflow.gates, s.requests[id], 0);
            && gate.Some? && gate.value.body.ApprovalGate?
            && EvidenceProblem(c, s.(tick := s.tick + 1), id,
                 HostEvidence(n, id, gate.value.id, BoundedExpiry(now, gate.value.body.ttl, expiresAt),
                   actor, assurance, p)).None?
  {
    hide Ok, RequestOk;
    WaitingWorkflow(c, s, own, {}, id);
    WaitingGateTerms(c, id, s.requests[id]);
    assert c.clock(s.tick + 1) == now && c.clock(s.tick + 2) == now;
  }

  /** What the coordinator lets through, on any clock: a waiting request, a new id, a named actor
      of the control asked for, an expiry that has not come, and a bounded one inside the gate's
      window by the engine's own two readings. */
  ghost predicate HostApprovable(c: Config, s: State, id: RequestId, actor: string, assurance: Control, given: Json,
      provenance: Provenance, expiresAt: Option<int>, generated: string) {
    && id in s.requests && s.requests[id].state.WaitingForApproval? && NewId(s, given, generated)
    && (provenance.Ed25519? ==> provenance.keyId != "")
    && (expiresAt.Some? ==> c.clock(s.tick) < expiresAt.value)
    && exists g | g in Defs(id) && g in s.requests[id].gates ::
         s.requests[id].gates[g].status.Waiting? && InOrder(c, s.tick, id, Defs(id)[g], actor, assurance, expiresAt)
  }

  ghost predicate InOrder(c: Config, tick: nat, id: RequestId, gate: Gate, actor: string, assurance: Control,
      expiresAt: Option<int>) {
    && gate.body.ApprovalGate? && actor != "" && (id.hash.control.StepUp? ==> assurance.StepUp?)
    && var latest := c.clock(tick) + gate.body.ttl;
       var end := if expiresAt.Some? && expiresAt.value < latest then expiresAt.value else latest;
       c.clock(tick + 1) < end <= c.clock(tick + 2) + gate.body.ttl
  }

  lemma HostPresentable(c: Config, s: State, id: RequestId, g: Gate, n: string, actor: string, assurance: Control,
      p: Provenance, expiresAt: Option<int>)
    requires id in s.requests && id !in s.active && s.requests[id].state.WaitingForApproval?
    requires g.id in Defs(id) && Defs(id)[g.id] == g && g.body.ApprovalGate?
    requires LevelControl(g.body.level) == id.hash.control
    requires g.id in s.requests[id].gates && s.requests[id].gates[g.id].status.Waiting?
    requires n != "" && n !in s.consumedApprovals
    ensures var now := c.clock(s.tick);
            var e := HostEvidence(n, id, g.id, BoundedExpiry(now, g.body.ttl, expiresAt), actor, assurance, p);
            Presentable(c, s.(tick := s.tick + 1), id, e) <==> InOrder(c, s.tick, id, g, actor, assurance, expiresAt)
  {
  }

  /** The coordinator's approval is accepted exactly then: its own signature never fails. */
  lemma HostApprovalIff(c: Config, s: State, own: iset<Key>, hostKey: string, id: RequestId, actor: string,
      assurance: Control, given: Json, provenance: Provenance, expiresAt: Option<int>, generated: string, rest: Env)
    requires Settled(c, s, own) && EnvWithin(rest, own) && generated != ""
    ensures ApproveRequest(c, s, hostKey, id, actor, assurance, given, provenance, expiresAt, generated, rest).response
              == Accepts(id)
            <==> HostApprovable(c, s, id, actor, assurance, given, provenance, expiresAt, generated)
  {
    hide Ok, RequestOk, WaitingGate, ApproveRequest, InOrder;
    if NewId(s, given, generated) && ProvenanceOk(provenance) && id in s.requests
       && s.requests[id].state.WaitingForApproval? {
      WaitingWorkflow(c, s, own, {}, id);
      WaitingGateTerms(c, id, s.requests[id]);
      WaitingGateDefined(c, id, s.requests[id]);
      var g := WaitingGate(id.hash.workflow.gates, s.requests[id], 0).value;
      WaitingIsDecided(c, s, own, hostKey, id, g, actor, assurance, given, provenance, expiresAt, generated, rest);
    } else {
      NotWaitingIsRefused(c, s, own, hostKey, id, actor, assurance, given, provenance, expiresAt, generated, rest);
    }
  }

  ghost predicate Decidable(c: Config, s: State, own: iset<Key>, id: RequestId, g: Gate) {
    && Settled(c, s, own) && id in s.requests && s.requests[id].state.WaitingForApproval?
    && WaitingGate(id.hash.workflow.gates, s.requests[id], 0) == Some(g)
  }

  lemma WaitingIsDecided(c: Config, s: State, own: iset<Key>, hostKey: string, id: RequestId, g: Gate,
      actor: string, assurance: Control, given: Json, provenance: Provenance, expiresAt: Option<int>,
      generated: string, rest: Env)
    requires Decidable(c, s, own, id, g) && EnvWithin(rest, own)
    requires NewId(s, given, generated) && ProvenanceOk(provenance) && generated != ""
    ensures ApproveRequest(c, s, hostKey, id, actor, assurance, given, provenance, expiresAt, generated, rest).response
              == Accepts(id)
            <==> (expiresAt.Some? ==> c.clock(s.tick) < expiresAt.value)
                 && InOrder(c, s.tick, id, g, actor, assurance, expiresAt)
  {
    hide Ok, RequestOk, WaitingGate, IngestApproval, AfterVerifier, HoldsEvidence, Presentable, InOrder, BoundedExpiry,
      HostVerifies;
    NewIdIff(s, given, generated);
    WaitingWorkflow(c, s, own, {}, id);
    WaitingGateTerms(c, id, s.requests[id]);
    WaitingGateDefined(c, id, s.requests[id]);
    var n, now := EvidenceId(given, generated).value, c.clock(s.tick);
    var e := HostEvidence(n, id, g.id, BoundedExpiry(now, g.body.ttl, expiresAt), actor, assurance, provenance);
    HostPresentable(c, s, id, g, n, actor, assurance, provenance, expiresAt);
    TickOk(c, s, own, {}, s.tick + 1);
    OwnSignature(hostKey, e, id.hash.control);
    var trusted := HostVerifies(hostKey, e, HostSignature(hostKey, e), id.hash.control);
    if InOrder(c, s.tick, id, g, actor, assurance, expiresAt) {
      StrongEnough(c, s.tick, id, g, actor, assurance, expiresAt);
    }
    IngestAcceptsIff(c, s.(tick := s.tick + 1), own, id, e, Answer(NoCalls, Trusts(trusted), rest));
  }

  lemma OwnSignature(hostKey: string, e: ApprovalInput, control: Control)
    requires e.assurance.Some?
    ensures HostVerifies(hostKey, e, HostSignature(hostKey, e), control) <==>
              (control.StepUp? ==> e.assurance.value.StepUp?)
    ensures forall key, other | HostSignature(key, other) != HostSignature(hostKey, e) ::
              !HostVerifies(hostKey, e, HostSignature(key, other), control)
  {
  }

  lemma StrongEnough(c: Config, tick: nat, id: RequestId, g: Gate, actor: string, assurance: Control,
      expiresAt: Option<int>)
    requires InOrder(c, tick, id, g, actor, assurance, expiresAt)
    ensures id.hash.control.StepUp? ==> assurance.StepUp?
  {
  }

  lemma NotWaitingIsRefused(c: Config, s: State, own: iset<Key>, hostKey: string, id: RequestId, actor: string,
      assurance: Control, given: Json, p: Provenance, expiresAt: Option<int>, generated: string, rest: Env)
    requires Settled(c, s, own)
    requires !NewId(s, given, generated) || !ProvenanceOk(p) || id !in s.requests
             || !s.requests[id].state.WaitingForApproval?
    ensures ApproveRequest(c, s, hostKey, id, actor, assurance, given, p, expiresAt, generated, rest).response.Raised?
  {
    hide Ok, AdvanceAndRelease, AfterVerifier;
    NewIdIff(s, given, generated);
  }

  // ---- What the bridge accepts ---------------------------------------------------------------------

  /** The evidence was signed with the private half of this entry's key, over exactly this body:
      an approval of this request and its hash, by the entry's actor, at an assurance the entry
      has and the request asks for, no earlier than the request, not too old and in time. */
  predicate SignedByEntry(keyId: string, entry: RosterEntry, maxAge: int, id: RequestId, r: Request, ev: SignedApproval,
      now: int) {
    var b := ev.body;
    && entry.publicKey.Some? && ev.signature.Some?
    && ev.signature.value.key == entry.publicKey.value && ev.signature.value.body == b
    && b.keyId == keyId && b.actor == entry.actor && b.approves
    && b.requestId == Some(id) && b.requestHash == Some(id.hash)
    && b.assurance.Some? && b.assurance in entry.assurances && (id.hash.control.StepUp? ==> b.assurance.value.StepUp?)
    && b.signedAt.Some? && b.expiresAt.Some?
    && r.createdAt <= b.signedAt.value <= now && now - b.signedAt.value <= maxAge && now < b.expiresAt.value
  }

  /** The roster verifies exactly what some configured entry signed. */
  lemma RosterVerifiesIff(roster: Roster, entries: seq<(string, RosterEntry)>, maxAge: int, ev: SignedApproval,
      id: RequestId, r: Request, now: int)
    requires EnrolledFrom(roster, entries, maxAge)
    ensures RosterVerifies(roster, ev, id, r, now) <==>
              exists i | 0 <= i < |entries| :: SignedByEntry(entries[i].0, entries[i].1, maxAge, id, r, ev, now)
  {
    if RosterVerifies(roster, ev, id, r, now) {
      var i :| 0 <= i < |entries| && entries[i].0 == ev.body.keyId;
      assert EnrolledAs(roster.keys[entries[i].0], entries[i].1);
      assert SignedByEntry(entries[i].0, entries[i].1, maxAge, id, r, ev, now);
    }
    if i :| 0 <= i < |entries| && SignedByEntry(entries[i].0, entries[i].1, maxAge, id, r, ev, now) {
      assert EnrolledAs(roster.keys[entries[i].0], entries[i].1);
    }
  }

  /** What the caller of the bridge can check beforehand, field by field. */
  ghost predicate Approvable(s: State, entries: seq<(string, RosterEntry)>, maxAge: int, ev: SignedApproval, now: int,
      generated: string) {
    && ev.body.requestId.Some? && ev.body.requestId.value in s.requests
    && var id := ev.body.requestId.value;
       && s.requests[id].state.WaitingForApproval? && NewId(s, ev.body.evidenceId, generated)
       && exists i | 0 <= i < |entries| ::
            SignedByEntry(entries[i].0, entries[i].1, maxAge, id, s.requests[id], ev, now)
  }

  /** The gate that waited now holds the signed approval, until the earlier of its window and
      the signed expiry. */
  ghost predicate HoldsSigned(s: State, t: State, ev: SignedApproval, now: int, generated: string) {
    var b := ev.body;
    && b.requestId.Some? && b.requestId.value in s.requests && b.requestId.value in t.requests
    && b.assurance.Some? && b.expiresAt.Some? && b.signedAt.Some?
    && var before, after := s.requests[b.requestId.value], t.requests[b.requestId.value];
       exists g | g in before.gates && g in after.gates && g in Defs(b.requestId.value) ::
         && before.gates[g].status.Waiting? && Defs(b.requestId.value)[g].body.ApprovalGate?
         && var window := now + Defs(b.requestId.value)[g].body.ttl;
            after.gates[g] == GateRecord(Approved, ApprovedBy(Approval(
              IdUsed(b.evidenceId, generated), b.actor, b.assurance.value,
              if b.expiresAt.value < window then b.expiresAt.value else window, now,
              Obj(map["transport" := Str("ed25519"), "key_id" := Str(b.keyId), "signed_at" := Int(b.signedAt.value)]))))
  }

  predicate Accepted(o: BridgeOutcome) { o.Submitted? && o.result.response.Accepts? }

  ghost predicate AcceptedRightly(s: State, entries: seq<(string, RosterEntry)>, maxAge: int, ev: SignedApproval,
      now: int, generated: string, o: BridgeOutcome) {
    && (Accepted(o) <==> Approvable(s, entries, maxAge, ev, now, generated))
    && (Accepted(o) ==> HoldsSigned(s, o.result.state, ev, now, generated))
  }

  lemma SettledBridgeAcceptsIff(c: Config, s: State, own: iset<Key>, roster: Roster,
      entries: seq<(string, RosterEntry)>, maxAge: int, hostKey: string, ev: SignedApproval, now: int,
      generated: string, rest: Env)
    requires Settled(c, s, own) && EnvWithin(rest, own) && FixedClock(c, now) && generated != ""
    requires EnrolledFrom(roster, entries, maxAge)
    requires forall i | 0 <= i < |entries| :: EntryOk(entries[i].0, entries[i].1)
    ensures AcceptedRightly(s, entries, maxAge, ev, now, generated,
              BridgeApprove(c, s, roster, hostKey, ev, now, generated, rest))
  {
    hide Ok, RosterVerifies, SignedByEntry, EnrolledFrom, ApproveRequest, HoldsSigned, NewId;
    var b := ev.body;
    if b.requestId.Some? && b.requestId.value in s.requests {
      var id := b.requestId.value;
      var r := s.requests[id];
      RosterVerifiesIff(roster, entries, maxAge, ev, id, r, now);
      if RosterVerifies(roster, ev, id, r, now) {
        VerifiedHas(roster, ev, id, r, now);
        VerifiedActorIsHuman(entries, maxAge, id, r, ev, now);
        if r.state.WaitingForApproval? && NewId(s, b.evidenceId, generated) {
          VerifiedIsAccepted(c, s, own, hostKey, ev, now, generated, rest);
        } else {
          NotWaitingIsRefused(c, s, own, hostKey, id, b.actor, b.assurance.value, b.evidenceId,
                            Ed25519(b.keyId, b.signedAt.value, ev.signature.value), b.expiresAt, generated, rest);
        }
      }
    }
  }

  lemma VerifiedHas(roster: Roster, ev: SignedApproval, id: RequestId, r: Request, now: int)
    requires RosterVerifies(roster, ev, id, r, now)
    ensures ev.body.assurance.Some? && ev.body.signedAt.Some? && ev.body.expiresAt.Some? && ev.signature.Some?
    ensures ev.body.requestId == Some(id) && now < ev.body.expiresAt.value
    ensures Rank(ev.body.assurance.value) >= Rank(id.hash.control)
  {
  }

  lemma VerifiedActorIsHuman(entries: seq<(string, RosterEntry)>, maxAge: int, id: RequestId, r: Request,
      ev: SignedApproval, now: int)
    requires exists i | 0 <= i < |entries| :: SignedByEntry(entries[i].0, entries[i].1, maxAge, id, r, ev, now)
    requires forall i | 0 <= i < |entries| :: EntryOk(entries[i].0, entries[i].1)
    ensures HUMAN <= ev.body.actor && ev.body.actor != "" && ev.body.keyId != ""
  {
    var i :| 0 <= i < |entries| && SignedByEntry(entries[i].0, entries[i].1, maxAge, id, r, ev, now);
    assert EntryOk(entries[i].0, entries[i].1);
  }

  /** With one fixed time read by everybody, after any run the bridge, over a roster built from
      configured entries, accepts evidence exactly when one of them signed it for a waiting
      request under a new id: nothing the roster let through is rejected later, and nothing else
      is let through. The one waiting gate then holds the approval under the signed actor and
      assurance, until the earlier of the gate's window and the signed expiry. */
  lemma BridgeAcceptsIff(c: Config, world: P.World, own: iset<Key>, calls: Calls, roster: Roster,
      entries: seq<(string, RosterEntry)>, maxAge: int, hostKey: string, ev: SignedApproval, now: int,
      generated: string, rest: Env)
    requires Legal(c, world, own, calls) && EnvWithin(rest, own) && FixedClock(c, now) && generated != ""
    requires EnrolledFrom(roster, entries, maxAge)
    requires forall i | 0 <= i < |entries| :: EntryOk(entries[i].0, entries[i].1)
    ensures AcceptedRightly(Reached(c, world, calls), entries, maxAge, ev, now, generated,
              BridgeApprove(c, Reached(c, world, calls), roster, hostKey, ev, now, generated, rest))
  {
    hide Ok, RunCalls, AcceptedPolicy, Joins, BridgeApprove, AcceptedRightly, EnrolledFrom, FixedClock;
    EveryRunIsSafe(c, world, own, calls);
    var s := Reached(c, world, calls);
    SettledBridgeAcceptsIff(c, s, own, roster, entries, maxAge, hostKey, ev, now, generated, rest);
  }

  /** The evidence the coordinator presents for verified evidence is accepted. */
  lemma VerifiedIsAccepted(c: Config, s: State, own: iset<Key>, hostKey: string, ev: SignedApproval, now: int,
      generated: string, rest: Env)
    requires Settled(c, s, own) && EnvWithin(rest, own) && FixedClock(c, now) && generated != ""
    requires ev.body.requestId.Some? && ev.body.requestId.value in s.requests
    requires s.requests[ev.body.requestId.value].state.WaitingForApproval? && NewId(s, ev.body.evidenceId, generated)
    requires ev.body.actor != "" && ev.body.keyId != "" && ev.body.assurance.Some? && ev.signature.Some?
    requires Rank(ev.body.assurance.value) >= Rank(ev.body.requestId.value.hash.control)
    requires ev.body.signedAt.Some? && ev.body.expiresAt.Some? && ev.body.expiresAt.value > now
    ensures var b := ev.body;
            var res := ApproveRequest(c, s, hostKey, b.requestId.value, b.actor, b.assurance.value, b.evidenceId,
                         Ed25519(b.keyId, b.signedAt.value, ev.signature.value), b.expiresAt, generated, rest);
            res.response.Accepts? && HoldsSigned(s, res.state, ev, now, generated)
  {
    hide Ok, IngestApproval, WaitingGate, EvidenceProblem, RequestOk, HoldsSigned, HoldsEvidence, NewId, AfterVerifier,
      ProvenanceJson;
    var b := ev.body;
    var id, p := b.requestId.value, Ed25519(b.keyId, b.signedAt.value, ev.signature.value);
    NewIdIff(s, b.evidenceId, generated);
    var n := EvidenceId(b.evidenceId, generated).value;
    WaitingWorkflow(c, s, own, {}, id);
    WaitingGateTerms(c, id, s.requests[id]);
    WaitingGateDefined(c, id, s.requests[id]);
    HostEvidencePasses(c, s, own, id, n, b.actor, b.assurance.value, p, b.expiresAt, now);
    var g := WaitingGate(id.hash.workflow.gates, s.requests[id], 0).value;
    var e := HostEvidence(n, id, g.id, BoundedExpiry(now, g.body.ttl, b.expiresAt), b.actor, b.assurance.value, p);
    var s' := s.(tick := s.tick + 1);
    TickOk(c, s, own, {}, s.tick + 1);
    TrustedIsAccepted(c, s', own, id, e, Answer(NoCalls, Trusts(true), rest));
    QuietVerifier(c, s', id, Trusts(true), rest);
    var t := IngestApproval(c, s', id, e, Answer(NoCalls, Trusts(true), rest)).state;
    SignedIsHeld(c, s, t, ev, e, g, now, generated);
  }

  lemma SignedIsHeld(c: Config, s: State, t: State, ev: SignedApproval, e: ApprovalInput, g: Gate, now: int,
      generated: string)
    requires ev.body.requestId.Some? && ev.body.assurance.Some? && ev.body.signedAt.Some? && ev.body.expiresAt.Some?
    requires ev.signature.Some? && g.body.ApprovalGate?
    requires var b := ev.body;
             var id := b.requestId.value;
             && id in s.requests && id in t.requests && g.id in Defs(id) && Defs(id)[g.id] == g
             && g.id in s.requests[id].gates && s.requests[id].gates[g.id].status.Waiting?
             && e == HostEvidence(IdUsed(b.evidenceId, generated), id, g.id,
                       BoundedExpiry(now, g.body.ttl, b.expiresAt), b.actor, b.assurance.value,
                       Ed25519(b.keyId, b.signedAt.value, ev.signature.value))
    requires HoldsEvidence(t, ev.body.requestId.value, e, now)
    ensures HoldsSigned(s, t, ev, now, generated)
  {
    assert g.id in t.requests[ev.body.requestId.value].gates;
  }
}
