/** Request identity and signed authorization claims.

    SHA-256 over canonical JSON is taken to be injective, so a hash is represented by what
    was hashed; a signature by the key and the body it was made from. */
module Claims {
  import opened JsonValues
  import opened Policies

  /** `canonical_body`; as a value of this type it also stands for `request_hash`. */
  datatype RequestBody = RequestBody(
    version: int,
    action: string,
    parameters: map<string, Json>,
    context: Json,
    trustedContext: Json,
    requester: string,
    idempotencyKey: string,
    floor: Floor,
    policyControl: Control,
    control: Control,
    workflow: Workflow)

  /** `req_` + hash of requester, key and request hash; the hash already covers the other two. */
  datatype RequestId = RequestId(hash: RequestBody)

  datatype Key = Key(principal: string, name: string)

  function KeyOf(id: RequestId): Key {
    Key(id.hash.requester, id.hash.idempotencyKey)
  }

  /** The request states any layer can show. */
  datatype PublicState =
    | Processing | WaitingForApproval | Blocked | Cancelled | Simulated | Executed | Failed
    | Authorized | Consuming | OutcomeUnknown | Expired | Denied

  /** `approval_evidence_ids` is kept sorted, so it carries exactly a multiset. */
  datatype Claims = Claims(
    authorizationId: string,
    issuer: string,
    audience: string,
    requestId: RequestId,
    requester: string,
    assurance: Control,
    action: string,
    target: string,
    parameters: map<string, Json>,
    parametersHash: map<string, Json>,
    policyHash: string,
    evidenceIds: multiset<string>,
    provenance: map<string, Json>,
    issuedAt: int,
    expiresAt: int,
    nonce: string,
    executionEnabled: bool,
    simulationOnly: bool)

  datatype Signature = Signature(key: string, body: Claims)

  datatype Token = Token(claims: Claims, signature: Signature)

  datatype Authority = Authority(issuer: string, key: string)

  predicate UniqueElements(ids: multiset<string>) {
    forall id | id in ids :: ids[id] == 1
  }

  /** `_validate_body`. */
  predicate ValidBody(c: Claims) {
    && c.authorizationId != "" && c.issuer != "" && c.audience != "" && c.requester != ""
    && c.action != "" && c.target != "" && c.policyHash != "" && c.nonce != ""
    && c.evidenceIds != multiset{}
    && (forall id | id in c.evidenceIds :: id != "")
    && UniqueElements(c.evidenceIds)
    && ProvenanceKeysMatch(c)
    && (forall id | id in c.provenance :: c.provenance[id].Obj?)
    && c.issuedAt < c.expiresAt
  }

  predicate ProvenanceKeysMatch(c: Claims) {
    && (forall id | id in c.provenance :: id in c.evidenceIds)
    && (forall id | id in c.evidenceIds :: id in c.provenance)
  }

  /** `issue` fills in issuer and parameter hash, validates, signs. */
  function Issue(authority: Authority, c: Claims): Option<Token> {
    var body := c.(issuer := authority.issuer, parametersHash := c.parameters);
    if ValidBody(body) then Some(Token(body, Signature(authority.key, body))) else None
  }

  /** `verify`. */
  predicate Verifies(authority: Authority, token: Token, audience: string, now: int) {
    var c := token.claims;
    && ValidBody(c)
    && token.signature == Signature(authority.key, c)
    && c.issuer == authority.issuer && c.audience == audience
    && c.issuedAt <= now < c.expiresAt
    && c.parametersHash == c.parameters
  }

  /** Verification accepts exactly what this authority issued, for the named audience, from
      the issue instant up to but not including the expiry. */
  lemma VerifiesExactlyIssued(authority: Authority, token: Token, audience: string, now: int)
    ensures Verifies(authority, token, audience, now) <==>
            && (exists c :: Issue(authority, c) == Some(token))
            && token.claims.audience == audience
            && token.claims.issuedAt <= now < token.claims.expiresAt
  {
    if Verifies(authority, token, audience, now) {
      assert Issue(authority, token.claims) == Some(token);
    }
  }

  /** The evidence list and the provenance of a body tell the same story: some evidence, each
      piece named, once, and with an object for its provenance. */
  ghost predicate EvidenceListed(ids: multiset<string>, provenance: map<string, Json>) {
    && |ids| > 0
    && (forall n :: n in ids <==> n in provenance)
    && (forall n | n in ids :: n != "" && ids[n] == 1 && provenance[n].Obj?)
  }

  /** Signing succeeds exactly for complete bodies; the token then carries the body as given,
      under the authority's issuer and with its own parameters hashed, and the signature is
      over just that. */
  lemma IssueSignsExactly(authority: Authority, c: Claims)
    ensures var t := Issue(authority, c);
            && (t.Some? <==>
                  && authority.issuer != "" && "" !in {c.authorizationId, c.audience, c.requester, c.action}
                  && "" !in {c.target, c.policyHash, c.nonce}
                  && EvidenceListed(c.evidenceIds, c.provenance) && c.issuedAt < c.expiresAt)
            && (t.Some? ==>
                  && t.value.claims == c.(issuer := authority.issuer, parametersHash := c.parameters)
                  && t.value.signature == Signature(authority.key, t.value.claims))
  {
    if c.evidenceIds != multiset{} {
      var n :| n in c.evidenceIds;
      assert |c.evidenceIds| > 0;
    }
  }

  /** No claim of a verified token can be changed under the same signature. */
  lemma TamperedTokensFail(authority: Authority, token: Token, changed: Claims, audience: string, now: int, later: int)
    requires Verifies(authority, token, audience, now) && changed != token.claims
    ensures !Verifies(authority, Token(changed, token.signature), changed.audience, later)
  {
  }
}
