/** Execution claims: their fields, their commitments, and the separate verifier. */
module Claims {
  import opened Text
  import opened CanonicalJson
  import opened Commitments
  import opened Authority
  import opened EffectIdentity

  const PROFILE := "urn:cognous:profiles:local-authority-effect:0.1.0-proposed"
  const SOURCE := "trusted_control_plane_workflow"
  const GENERATION := "bounded-authorization-effect/0.2"

  // ---- projections ---------------------------------------------------------

  datatype ApprovalProjection = ApprovalProjection(
    tenantId: Option<string>, approvalRef: string, roleId: string, approver: string, status: ApprovalState,
    grantId: string, grantRevision: string, proposalCommitment: string, policyVersions: seq<PolicyRef>,
    observedAt: Time)
  datatype PolicyProjection = PolicyProjection(
    tenantId: Option<string>, ref: string, version: string, status: PolicyState, observedAt: Time)
  datatype EvidenceProjection = EvidenceProjection(
    obligationId: string, sourceRef: string, required: bool, kind: string, maxAge: int, unknownBehavior: string,
    state: EvidenceState, observedAt: Time)

  /** tenantId is Some exactly for the tenant-aware claim. */
  datatype Claim = Claim(
    profile: string, claimId: string, decisionId: string, effectId: string,
    institutionId: string, authorityDomain: string, actor: string, principal: string,
    grantId: string, grantRevision: string, manifestId: string,
    manifestVersion: string, manifestDigest: string, actionId: string, adapterId: string, target: string,
    payloadCommitment: string, requestedPermissions: seq<string>, amount: nat, unit: string, effects: nat,
    authorityContextId: string, requirementId: string,
    requirementCommitment: string, operationCommitment: string,
    approvals: seq<ApprovalProjection>, approvalsCommitment: string,
    policies: seq<PolicyProjection>, policiesCommitment: string,
    evidence: seq<EvidenceProjection>, evidenceCommitment: string,
    authorityCommitment: string,
    budgetId: string, maxEffects: int, notBefore: Time, expiresAt: Time, issuedAt: Time,
    inputCommitment: Option<string>, inputProfileVersion: Option<string>,
    source: string, authorizingByPossession: bool, tenantId: Option<string>,
    claimCommitment: string)

  /** A tenant-aware claim holds tenant-aware projections and a historical one does not. */
  predicate WellTyped(c: Claim) {
    && (forall a | a in c.approvals :: a.tenantId.Some? <==> c.tenantId.Some?)
    && (forall p | p in c.policies :: p.tenantId.Some? <==> c.tenantId.Some?)
  }

  // ---- JSON forms ----------------------------------------------------------

  function WithTenant(keys: seq<string>, tenant: Option<string>): seq<string> {
    if tenant.None? then keys else keys + ["tenant_id"]
  }

  function TenantValue(tenant: Option<string>): seq<Json> {
    if tenant.None? then [] else [Str(tenant.value)]
  }

  const APPROVAL_KEYS := [
    "approval_ref", "role_id", "approver", "status", "grant_id", "grant_revision", "proposal_commitment",
    "policy_versions", "observed_at"]

  function ApprovalValues(a: ApprovalProjection): (vs: seq<Json>)
    ensures |vs| == 9 + |TenantValue(a.tenantId)|
  {
    [Str(a.approvalRef), Str(a.roleId), Str(a.approver), Str(ApprovalStateText(a.status)), Str(a.grantId),
     Str(a.grantRevision), Str(a.proposalCommitment), PoliciesJson(a.policyVersions), TimeJson(a.observedAt)]
    + TenantValue(a.tenantId)
  }

  function ApprovalJson(keys: seq<string>, a: ApprovalProjection): Json
    requires |keys| == 9
  {
    Record(WithTenant(keys, a.tenantId), ApprovalValues(a))
  }

  const POLICY_STATE_KEYS := ["ref", "version", "status", "observed_at"]

  function PolicyValues(p: PolicyProjection): (vs: seq<Json>)
    ensures |vs| == 4 + |TenantValue(p.tenantId)|
  {
    [Str(p.ref), Str(p.version), Str(PolicyStateText(p.status)), TimeJson(p.observedAt)] + TenantValue(p.tenantId)
  }

  function PolicyJson(keys: seq<string>, p: PolicyProjection): Json
    requires |keys| == 4
  {
    Record(WithTenant(keys, p.tenantId), PolicyValues(p))
  }

  const EVIDENCE_KEYS := [
    "obligation_id", "source_ref", "required", "kind", "max_age_seconds", "unknown_behavior", "state", "observed_at"]

  function EvidenceValues(e: EvidenceProjection): (vs: seq<Json>)
    ensures |vs| == 8
  {
    [Str(e.obligationId), Str(e.sourceRef), Bool(e.required), Str(e.kind), Int(e.maxAge), Str(e.unknownBehavior),
     Str(EvidenceStateText(e.state)), TimeJson(e.observedAt)]
  }

  function EvidenceJson(keys: seq<string>, e: EvidenceProjection): Json
    requires |keys| == 8
  {
    Record(keys, EvidenceValues(e))
  }

  function ApprovalsJson(keys: seq<string>, xs: seq<ApprovalProjection>): Json
    requires |keys| == 9
  {
    Arr(seq(|xs|, i requires 0 <= i < |xs| => ApprovalJson(keys, xs[i])))
  }

  function PolicyStatesJson(keys: seq<string>, xs: seq<PolicyProjection>): Json
    requires |keys| == 4
  {
    Arr(seq(|xs|, i requires 0 <= i < |xs| => PolicyJson(keys, xs[i])))
  }

  function EvidencesJson(keys: seq<string>, xs: seq<EvidenceProjection>): Json
    requires |keys| == 8
  {
    Arr(seq(|xs|, i requires 0 <= i < |xs| => EvidenceJson(keys, xs[i])))
  }

  const AUTHORITY_KEYS := [
    "grant_id", "grant_revision", "grant_status", "requirement_commitment", "approvals", "policies", "evidence"]

  function AuthorityValues(c: Claim, aks: seq<string>, pks: seq<string>, eks: seq<string>): (vs: seq<Json>)
    requires |aks| == 9 && |pks| == 4 && |eks| == 8
    ensures |vs| == 7
  {
    [Str(c.grantId), Str(c.grantRevision), Str("active"), Str(c.requirementCommitment),
     ApprovalsJson(aks, c.approvals), PolicyStatesJson(pks, c.policies), EvidencesJson(eks, c.evidence)]
  }

  function AuthorityJson(c: Claim): Json {
    Record(AUTHORITY_KEYS, AuthorityValues(c, APPROVAL_KEYS, POLICY_STATE_KEYS, EVIDENCE_KEYS))
  }

  const CLAIM_KEYS := [
    "profile", "claim_id", "decision_id", "effect_id", "institution_id", "authority_domain", "actor", "principal",
    "grant_id", "grant_revision", "grant_status", "manifest_id",
    "manifest_version", "manifest_digest", "action_id", "adapter_id", "target", "payload_commitment",
    "requested_permissions", "amount", "unit", "effects", "authority_context_id", "requirement_id",
    "requirement_commitment", "operation_commitment", "approval_state", "approval_state_commitment",
    "policy_state", "policy_state_commitment", "evidence_state", "evidence_state_commitment",
    "authority_state_commitment",
    "budget_id", "max_effects", "not_before", "expires_at", "issued_at", "decision_input_commitment",
    "decision_input_profile_version", "source", "authorizing_by_possession"]

  function WhoValues(c: Claim): (vs: seq<Json>)
    ensures |vs| == 12
  {
    [Str(c.profile), Str(c.claimId), Str(c.decisionId), Str(c.effectId), Str(c.institutionId),
     Str(c.authorityDomain), Str(c.actor), Str(c.principal), Str(c.grantId), Str(c.grantRevision), Str("active"),
     Str(c.manifestId)]
  }

  function WhatValues(c: Claim): (vs: seq<Json>)
    ensures |vs| == 12
  {
    [Str(c.manifestVersion), Str(c.manifestDigest), Str(c.actionId), Str(c.adapterId), Str(c.target),
     Str(c.payloadCommitment), StringsJson(c.requestedPermissions), AmountJson(c.amount), Str(c.unit),
     Int(c.effects), Str(c.authorityContextId), Str(c.requirementId)]
  }

  function StateValues(c: Claim, aks: seq<string>, pks: seq<string>, eks: seq<string>): (vs: seq<Json>)
    requires |aks| == 9 && |pks| == 4 && |eks| == 8
    ensures |vs| == 9
  {
    [Str(c.requirementCommitment), Str(c.operationCommitment), ApprovalsJson(aks, c.approvals),
     Str(c.approvalsCommitment), PolicyStatesJson(pks, c.policies), Str(c.policiesCommitment),
     EvidencesJson(eks, c.evidence), Str(c.evidenceCommitment), Str(c.authorityCommitment)]
  }

  function TermValues(c: Claim): (vs: seq<Json>)
    ensures |vs| == 9
  {
    [Str(c.budgetId), Int(c.maxEffects), TimeJson(c.notBefore), TimeJson(c.expiresAt), TimeJson(c.issuedAt),
     OptionJson(c.inputCommitment), OptionJson(c.inputProfileVersion), Str(c.source), Bool(c.authorizingByPossession)]
  }

  function ClaimValues(c: Claim, aks: seq<string>, pks: seq<string>, eks: seq<string>): (vs: seq<Json>)
    requires |aks| == 9 && |pks| == 4 && |eks| == 8
    ensures |vs| == if c.tenantId.None? then 42 else 44
  {
    WhoValues(c) + WhatValues(c) + StateValues(c, aks, pks, eks) + TermValues(c)
    + (if c.tenantId.None? then [] else [Str(GENERATION), Str(c.tenantId.value)])
  }

  function ClaimKeys(keys: seq<string>, tenant: Option<string>): seq<string> {
    if tenant.None? then keys else keys + ["authorization_generation", "tenant_id"]
  }

  /** Everything in a claim but its own commitment. */
  function ClaimJson(c: Claim): Json {
    ClaimKeysCount();
    Record(ClaimKeys(CLAIM_KEYS, c.tenantId), ClaimValues(c, APPROVAL_KEYS, POLICY_STATE_KEYS, EVIDENCE_KEYS))
  }

  lemma ClaimKeysCount()
    ensures |CLAIM_KEYS| == 42
  {}

  // ---- the verifier --------------------------------------------------------

  /** The claim's commitments are those of what it says. */
  predicate Accepts(hash: Hash, c: Claim) {
    && c.profile == PROFILE && c.source == SOURCE && !c.authorizingByPossession
    && c.approvalsCommitment == Commitment(hash, ApprovalsJson(APPROVAL_KEYS, c.approvals))
    && c.policiesCommitment == Commitment(hash, PolicyStatesJson(POLICY_STATE_KEYS, c.policies))
    && c.evidenceCommitment == Commitment(hash, EvidencesJson(EVIDENCE_KEYS, c.evidence))
    && c.authorityCommitment == Commitment(hash, AuthorityJson(c))
    && c.claimCommitment == Commitment(hash, ClaimJson(c))
  }

  /** Fill in the four state commitments, then the commitment over everything else. */
  function Sealed(hash: Hash, c: Claim): Claim {
    var k := c.(approvalsCommitment := Commitment(hash, ApprovalsJson(APPROVAL_KEYS, c.approvals)),
                policiesCommitment := Commitment(hash, PolicyStatesJson(POLICY_STATE_KEYS, c.policies)),
                evidenceCommitment := Commitment(hash, EvidencesJson(EVIDENCE_KEYS, c.evidence)),
                authorityCommitment := Commitment(hash, AuthorityJson(c)));
    k.(claimCommitment := Commitment(hash, ClaimJson(k)))
  }

  /** Sealing makes a claim the verifier accepts. */
  lemma SealedIsAccepted(hash: Hash, c: Claim)
    requires c.profile == PROFILE && c.source == SOURCE && !c.authorizingByPossession
    ensures Accepts(hash, Sealed(hash, c))
    ensures Sealed(hash, c).tenantId == c.tenantId
    ensures Sealed(hash, c).approvals == c.approvals && Sealed(hash, c).policies == c.policies
  {
    hide Commitment, ApprovalsJson, PolicyStatesJson, EvidencesJson;
    SameClaimJson(Sealed(hash, c), Sealed(hash, c).(claimCommitment := ""));
    SameClaimJson(c.(approvalsCommitment := Commitment(hash, ApprovalsJson(APPROVAL_KEYS, c.approvals)),
                     policiesCommitment := Commitment(hash, PolicyStatesJson(POLICY_STATE_KEYS, c.policies)),
                     evidenceCommitment := Commitment(hash, EvidencesJson(EVIDENCE_KEYS, c.evidence)),
                     authorityCommitment := Commitment(hash, AuthorityJson(c))),
                  Sealed(hash, c));
  }

  /** A claim's JSON does not depend on its own commitment. */
  lemma SameClaimJson(c: Claim, d: Claim)
    requires c.(claimCommitment := "") == d.(claimCommitment := "")
    ensures ClaimJson(c) == ClaimJson(d)
  {
    hide Record;
    ClaimKeysCount();
    assert ClaimValues(c, APPROVAL_KEYS, POLICY_STATE_KEYS, EVIDENCE_KEYS)
        == ClaimValues(d, APPROVAL_KEYS, POLICY_STATE_KEYS, EVIDENCE_KEYS) by {
      hide ApprovalsJson, PolicyStatesJson, EvidencesJson;
    }
  }

  /** The verifier accepts exactly what sealing leaves as it is: a claim of this profile, whose every
      commitment is the one its issuer would have put there. */
  lemma AcceptedIsSealed(hash: Hash, c: Claim)
    ensures Accepts(hash, c) <==>
      c.profile == PROFILE && c.source == SOURCE && !c.authorizingByPossession && c == Sealed(hash, c)
  {
    hide Commitment, ApprovalsJson, PolicyStatesJson, EvidencesJson;
    if Accepts(hash, c) {
      assert Sealed(hash, c) == c;
    } else if c.profile == PROFILE && c.source == SOURCE && !c.authorizingByPossession {
      SealedIsAccepted(hash, c);
    }
  }

  method VerifyClaim(hash: Hash, claim: Claim) returns (ok: bool)
    ensures ok <==> Accepts(hash, claim)
    ensures ok ==> claim == Sealed(hash, claim)
    ensures !ok && claim.profile == PROFILE && claim.source == SOURCE && !claim.authorizingByPossession ==>
      claim != Sealed(hash, claim)
  {
    AcceptedIsSealed(hash, claim);
    hide Sealed, Commitment;
    if claim.profile != PROFILE { return false; }
    if claim.source != SOURCE { return false; }
    if claim.authorizingByPossession { return false; }
    if claim.approvalsCommitment != Commitment(hash, ApprovalsJson(APPROVAL_KEYS, claim.approvals)) { return false; }
    if claim.policiesCommitment != Commitment(hash,
        PolicyStatesJson(POLICY_STATE_KEYS, claim.policies)) { return false; }
    if claim.evidenceCommitment != Commitment(hash, EvidencesJson(EVIDENCE_KEYS, claim.evidence)) { return false; }
    if claim.authorityCommitment != Commitment(hash, AuthorityJson(claim)) { return false; }
    ok := claim.claimCommitment == Commitment(hash, ClaimJson(claim));
  }

  // ---- what a claim commitment determines ----------------------------------

  lemma PolicyRefsNormal(ps: seq<PolicyRef>, qs: seq<PolicyRef>)
    ensures Printable(PoliciesJson(ps))
    ensures Normal(PoliciesJson(ps)) == Normal(PoliciesJson(qs)) ==> ps == qs
  {
    hide PolicyRefJson;
    var a, b := PoliciesJson(ps).items, PoliciesJson(qs).items;
    forall i | 0 <= i < |ps| ensures Printable(a[i]) { RefPrintable(ps[i]); }
    if Normal(PoliciesJson(ps)) == Normal(PoliciesJson(qs)) {
      assert |NormalItems(a)| == |NormalItems(b)|;
      forall i | 0 <= i < |ps| ensures ps[i] == qs[i] {
        assert NormalItems(a)[i] == NormalItems(b)[i];
        RefJsonNormal(ps[i], qs[i]);
      }
    }
  }

  lemma RefPrintable(p: PolicyRef)
    ensures Printable(PolicyRefJson(p))
  {
    RecordPrintable(POLICY_KEYS, [Str(p.ref), Str(p.version)]);
  }

  lemma RefJsonNormal(p: PolicyRef, q: PolicyRef)
    requires Normal(PolicyRefJson(p)) == Normal(PolicyRefJson(q))
    ensures p == q
  {
    hide Record;
    RefNormal(POLICY_KEYS, p, q);
  }

  lemma RefNormal(keys: seq<string>, p: PolicyRef, q: PolicyRef)
    requires |keys| == 2
    requires Normal(Record(keys, [Str(p.ref), Str(p.version)])) == Normal(Record(keys, [Str(q.ref), Str(q.version)]))
    ensures p == q
  {
    var vs, ws := [Str(p.ref), Str(p.version)], [Str(q.ref), Str(q.version)];
    RecordNormal(keys, vs, ws);
    assert Normal(vs[0]) == Normal(ws[0]) && Normal(vs[1]) == Normal(ws[1]);
  }

  lemma StatesDiffer()
    ensures forall s, t: ApprovalState :: ApprovalStateText(s) == ApprovalStateText(t) ==> s == t
    ensures forall s, t: PolicyState :: PolicyStateText(s) == PolicyStateText(t) ==> s == t
    ensures forall s, t: EvidenceState :: EvidenceStateText(s) == EvidenceStateText(t) ==> s == t
  {
    assert "active"[0] == 'a' && "revoked"[0] == 'r' && "unknown"[0] == 'u';
    assert "superseded"[0] == 's' && "current"[0] == 'c' && "stale"[0] == 's';
  }

  lemma ApprovalNormal(keys: seq<string>, a: ApprovalProjection, b: ApprovalProjection)
    requires |keys| == 9 && (a.tenantId.Some? <==> b.tenantId.Some?)
    ensures Printable(ApprovalJson(keys, a))
    ensures Normal(ApprovalJson(keys, a)) == Normal(ApprovalJson(keys, b)) ==> a == b
  {
    var vs, ws := ApprovalValues(a), ApprovalValues(b);
    PolicyRefsNormal(a.policyVersions, b.policyVersions);
    RecordPrintable(WithTenant(keys, a.tenantId), vs);
    if Normal(ApprovalJson(keys, a)) == Normal(ApprovalJson(keys, b)) {
      RecordNormal(WithTenant(keys, a.tenantId), vs, ws);
      ApprovalValuesNormal(a, b);
    }
  }

  lemma ApprovalValuesNormal(a: ApprovalProjection, b: ApprovalProjection)
    requires a.tenantId.Some? <==> b.tenantId.Some?
    requires forall i | 0 <= i < |ApprovalValues(a)| :: Normal(ApprovalValues(a)[i]) == Normal(ApprovalValues(b)[i])
    ensures a == b
  {
    var vs, ws := ApprovalValues(a), ApprovalValues(b);
    assert Normal(vs[0]) == Normal(ws[0]) && Normal(vs[1]) == Normal(ws[1]) && Normal(vs[2]) == Normal(ws[2]);
    assert Normal(vs[3]) == Normal(ws[3]) && Normal(vs[4]) == Normal(ws[4]) && Normal(vs[5]) == Normal(ws[5]);
    assert Normal(vs[6]) == Normal(ws[6]) && Normal(vs[7]) == Normal(ws[7]) && Normal(vs[8]) == Normal(ws[8]);
    assert a.tenantId.Some? ==> Normal(vs[9]) == Normal(ws[9]);
    StatesDiffer();
    PolicyRefsNormal(a.policyVersions, b.policyVersions);
    IntTextInjective(a.observedAt, b.observedAt);
  }

  lemma PolicyNormal(keys: seq<string>, p: PolicyProjection, q: PolicyProjection)
    requires |keys| == 4 && (p.tenantId.Some? <==> q.tenantId.Some?)
    ensures Printable(PolicyJson(keys, p))
    ensures Normal(PolicyJson(keys, p)) == Normal(PolicyJson(keys, q)) ==> p == q
  {
    var vs, ws := PolicyValues(p), PolicyValues(q);
    RecordPrintable(WithTenant(keys, p.tenantId), vs);
    if Normal(PolicyJson(keys, p)) == Normal(PolicyJson(keys, q)) {
      RecordNormal(WithTenant(keys, p.tenantId), vs, ws);
      PolicyValuesNormal(p, q);
    }
  }

  lemma PolicyValuesNormal(p: PolicyProjection, q: PolicyProjection)
    requires p.tenantId.Some? <==> q.tenantId.Some?
    requires forall i | 0 <= i < |PolicyValues(p)| :: Normal(PolicyValues(p)[i]) == Normal(PolicyValues(q)[i])
    ensures p == q
  {
    var vs, ws := PolicyValues(p), PolicyValues(q);
    assert Normal(vs[0]) == Normal(ws[0]) && Normal(vs[1]) == Normal(ws[1]) && Normal(vs[2]) == Normal(ws[2]);
    assert Normal(vs[3]) == Normal(ws[3]);
    assert p.tenantId.Some? ==> Normal(vs[4]) == Normal(ws[4]);
    StatesDiffer();
    IntTextInjective(p.observedAt, q.observedAt);
  }

  lemma EvidenceNormal(keys: seq<string>, e: EvidenceProjection, f: EvidenceProjection)
    requires |keys| == 8
    ensures Printable(EvidenceJson(keys, e))
    ensures Normal(EvidenceJson(keys, e)) == Normal(EvidenceJson(keys, f)) ==> e == f
  {
    var vs, ws := EvidenceValues(e), EvidenceValues(f);
    RecordPrintable(keys, vs);
    if Normal(EvidenceJson(keys, e)) == Normal(EvidenceJson(keys, f)) {
      RecordNormal(keys, vs, ws);
      EvidenceValuesNormal(e, f);
    }
  }

  lemma EvidenceValuesNormal(e: EvidenceProjection, f: EvidenceProjection)
    requires forall i | 0 <= i < 8 :: Normal(EvidenceValues(e)[i]) == Normal(EvidenceValues(f)[i])
    ensures e == f
  {
    var vs, ws := EvidenceValues(e), EvidenceValues(f);
    assert Normal(vs[0]) == Normal(ws[0]) && Normal(vs[1]) == Normal(ws[1]) && Normal(vs[2]) == Normal(ws[2]);
    assert Normal(vs[3]) == Normal(ws[3]) && Normal(vs[4]) == Normal(ws[4]) && Normal(vs[5]) == Normal(ws[5]);
    assert Normal(vs[6]) == Normal(ws[6]) && Normal(vs[7]) == Normal(ws[7]);
    StatesDiffer();
    IntTextInjective(e.observedAt, f.observedAt);
  }

  lemma ApprovalsNormal(keys: seq<string>, xs: seq<ApprovalProjection>, ys: seq<ApprovalProjection>)
    requires |keys| == 9
    requires forall x, y | x in xs && y in ys :: x.tenantId.Some? <==> y.tenantId.Some?
    ensures Printable(ApprovalsJson(keys, xs))
    ensures Normal(ApprovalsJson(keys, xs)) == Normal(ApprovalsJson(keys, ys)) ==> xs == ys
  {
    var a, b := ApprovalsJson(keys, xs).items, ApprovalsJson(keys, ys).items;
    forall i | 0 <= i < |xs| ensures Printable(a[i]) { ApprovalNormal(keys, xs[i], xs[i]); }
    if Normal(ApprovalsJson(keys, xs)) == Normal(ApprovalsJson(keys, ys)) {
      assert |NormalItems(a)| == |NormalItems(b)|;
      forall i | 0 <= i < |xs| ensures xs[i] == ys[i] {
        assert NormalItems(a)[i] == NormalItems(b)[i];
        ApprovalNormal(keys, xs[i], ys[i]);
      }
    }
  }

  lemma PolicyStatesNormal(keys: seq<string>, xs: seq<PolicyProjection>, ys: seq<PolicyProjection>)
    requires |keys| == 4
    requires forall x, y | x in xs && y in ys :: x.tenantId.Some? <==> y.tenantId.Some?
    ensures Printable(PolicyStatesJson(keys, xs))
    ensures Normal(PolicyStatesJson(keys, xs)) == Normal(PolicyStatesJson(keys, ys)) ==> xs == ys
  {
    var a, b := PolicyStatesJson(keys, xs).items, PolicyStatesJson(keys, ys).items;
    forall i | 0 <= i < |xs| ensures Printable(a[i]) { PolicyNormal(keys, xs[i], xs[i]); }
    if Normal(PolicyStatesJson(keys, xs)) == Normal(PolicyStatesJson(keys, ys)) {
      assert |NormalItems(a)| == |NormalItems(b)|;
      forall i | 0 <= i < |xs| ensures xs[i] == ys[i] {
        assert NormalItems(a)[i] == NormalItems(b)[i];
        PolicyNormal(keys, xs[i], ys[i]);
      }
    }
  }

  lemma EvidencesNormal(keys: seq<string>, xs: seq<EvidenceProjection>, ys: seq<EvidenceProjection>)
    requires |keys| == 8
    ensures Printable(EvidencesJson(keys, xs))
    ensures Normal(EvidencesJson(keys, xs)) == Normal(EvidencesJson(keys, ys)) ==> xs == ys
  {
    var a, b := EvidencesJson(keys, xs).items, EvidencesJson(keys, ys).items;
    forall i | 0 <= i < |xs| ensures Printable(a[i]) { EvidenceNormal(keys, xs[i], xs[i]); }
    if Normal(EvidencesJson(keys, xs)) == Normal(EvidencesJson(keys, ys)) {
      assert |NormalItems(a)| == |NormalItems(b)|;
      forall i | 0 <= i < |xs| ensures xs[i] == ys[i] {
        assert NormalItems(a)[i] == NormalItems(b)[i];
        EvidenceNormal(keys, xs[i], ys[i]);
      }
    }
  }

  lemma WhoNormal(c: Claim, d: Claim)
    requires forall i | 0 <= i < 12 :: Normal(WhoValues(c)[i]) == Normal(WhoValues(d)[i])
    ensures c.profile == d.profile && c.claimId == d.claimId && c.decisionId == d.decisionId
    ensures c.effectId == d.effectId && c.institutionId == d.institutionId && c.authorityDomain == d.authorityDomain
    ensures c.actor == d.actor && c.principal == d.principal && c.grantId == d.grantId
    ensures c.grantRevision == d.grantRevision && c.manifestId == d.manifestId
  {
    var v, w := WhoValues(c), WhoValues(d);
    assert Normal(v[0]) == Normal(w[0]) && Normal(v[1]) == Normal(w[1]) && Normal(v[2]) == Normal(w[2]);
    assert Normal(v[3]) == Normal(w[3]) && Normal(v[4]) == Normal(w[4]) && Normal(v[5]) == Normal(w[5]);
    assert Normal(v[6]) == Normal(w[6]) && Normal(v[7]) == Normal(w[7]) && Normal(v[8]) == Normal(w[8]);
    assert Normal(v[9]) == Normal(w[9]) && Normal(v[11]) == Normal(w[11]);
  }

  lemma WhatNormal(c: Claim, d: Claim)
    requires forall i | 0 <= i < 12 :: Normal(WhatValues(c)[i]) == Normal(WhatValues(d)[i])
    ensures c.manifestVersion == d.manifestVersion && c.manifestDigest == d.manifestDigest && c.actionId == d.actionId
    ensures c.adapterId == d.adapterId && c.target == d.target && c.payloadCommitment == d.payloadCommitment
    ensures c.requestedPermissions == d.requestedPermissions && c.amount == d.amount && c.unit == d.unit
    ensures c.effects == d.effects && c.authorityContextId == d.authorityContextId && c.requirementId == d.requirementId
  {
    var v, w := WhatValues(c), WhatValues(d);
    assert Normal(v[0]) == Normal(w[0]) && Normal(v[1]) == Normal(w[1]) && Normal(v[2]) == Normal(w[2]);
    assert Normal(v[3]) == Normal(w[3]) && Normal(v[4]) == Normal(w[4]) && Normal(v[5]) == Normal(w[5]);
    assert Normal(v[6]) == Normal(w[6]) && Normal(v[7]) == Normal(w[7]) && Normal(v[8]) == Normal(w[8]);
    assert Normal(v[9]) == Normal(w[9]) && Normal(v[10]) == Normal(w[10]) && Normal(v[11]) == Normal(w[11]);
    StringsNormal(c.requestedPermissions);
    StringsNormal(d.requestedPermissions);
    StringsInjective(c.requestedPermissions, d.requestedPermissions);
    AmountInjective(c.amount, d.amount);
  }

  lemma StateNormal(c: Claim, d: Claim, aks: seq<string>, pks: seq<string>, eks: seq<string>)
    requires |aks| == 9 && |pks| == 4 && |eks| == 8
    requires WellTyped(c) && WellTyped(d) && (c.tenantId.Some? <==> d.tenantId.Some?)
    requires forall i | 0 <= i < 9 ::
        Normal(StateValues(c, aks, pks, eks)[i]) == Normal(StateValues(d, aks, pks, eks)[i])
    ensures c.requirementCommitment == d.requirementCommitment && c.operationCommitment == d.operationCommitment
    ensures c.approvals == d.approvals && c.approvalsCommitment == d.approvalsCommitment
    ensures c.policies == d.policies && c.policiesCommitment == d.policiesCommitment
    ensures c.evidence == d.evidence && c.evidenceCommitment == d.evidenceCommitment
    ensures c.authorityCommitment == d.authorityCommitment
  {
    var v, w := StateValues(c, aks, pks, eks), StateValues(d, aks, pks, eks);
    assert Normal(v[0]) == Normal(w[0]) && Normal(v[1]) == Normal(w[1]) && Normal(v[2]) == Normal(w[2]);
    assert Normal(v[3]) == Normal(w[3]) && Normal(v[4]) == Normal(w[4]) && Normal(v[5]) == Normal(w[5]);
    assert Normal(v[6]) == Normal(w[6]) && Normal(v[7]) == Normal(w[7]) && Normal(v[8]) == Normal(w[8]);
    ApprovalsNormal(aks, c.approvals, d.approvals);
    PolicyStatesNormal(pks, c.policies, d.policies);
    EvidencesNormal(eks, c.evidence, d.evidence);
  }

  lemma TermNormal(c: Claim, d: Claim)
    requires forall i | 0 <= i < 9 :: Normal(TermValues(c)[i]) == Normal(TermValues(d)[i])
    ensures c.budgetId == d.budgetId && c.maxEffects == d.maxEffects && c.notBefore == d.notBefore
    ensures c.expiresAt == d.expiresAt && c.issuedAt == d.issuedAt && c.inputCommitment == d.inputCommitment
    ensures c.inputProfileVersion == d.inputProfileVersion && c.source == d.source
    ensures c.authorizingByPossession == d.authorizingByPossession
  {
    var v, w := TermValues(c), TermValues(d);
    assert Normal(v[0]) == Normal(w[0]) && Normal(v[1]) == Normal(w[1]) && Normal(v[2]) == Normal(w[2]);
    assert Normal(v[3]) == Normal(w[3]) && Normal(v[4]) == Normal(w[4]) && Normal(v[5]) == Normal(w[5]);
    assert Normal(v[6]) == Normal(w[6]) && Normal(v[7]) == Normal(w[7]) && Normal(v[8]) == Normal(w[8]);
    IntTextInjective(c.notBefore, d.notBefore);
    IntTextInjective(c.expiresAt, d.expiresAt);
    IntTextInjective(c.issuedAt, d.issuedAt);
  }

  /** Where each group of values stands in the whole. */
  lemma ClaimValuesAt(c: Claim, aks: seq<string>, pks: seq<string>, eks: seq<string>)
    requires |aks| == 9 && |pks| == 4 && |eks| == 8
    ensures var vs := ClaimValues(c, aks, pks, eks);
      && vs[..12] == WhoValues(c) && vs[12..24] == WhatValues(c)
      && vs[24..33] == StateValues(c, aks, pks, eks) && vs[33..42] == TermValues(c)
      && (c.tenantId.Some? ==> vs[43] == Str(c.tenantId.value))
  {
    hide WhoValues, WhatValues, StateValues, TermValues;
  }

  lemma PlainValuesPrintable(c: Claim)
    ensures forall i | 0 <= i < 12 :: Printable(WhoValues(c)[i])
    ensures forall i | 0 <= i < 12 :: Printable(WhatValues(c)[i])
    ensures forall i | 0 <= i < 9 :: Printable(TermValues(c)[i])
  {
    StringsNormal(c.requestedPermissions);
    AmountInjective(c.amount, c.amount);
  }

  lemma StateValuesPrintable(c: Claim, aks: seq<string>, pks: seq<string>, eks: seq<string>)
    requires |aks| == 9 && |pks| == 4 && |eks| == 8 && WellTyped(c)
    ensures forall i | 0 <= i < 9 :: Printable(StateValues(c, aks, pks, eks)[i])
  {
    hide ApprovalsJson, PolicyStatesJson, EvidencesJson;
    ApprovalsNormal(aks, c.approvals, c.approvals);
    PolicyStatesNormal(pks, c.policies, c.policies);
    EvidencesNormal(eks, c.evidence, c.evidence);
  }

  lemma ClaimValuesPrintable(c: Claim, aks: seq<string>, pks: seq<string>, eks: seq<string>)
    requires |aks| == 9 && |pks| == 4 && |eks| == 8 && WellTyped(c)
    ensures forall i | 0 <= i < |ClaimValues(c, aks, pks, eks)| :: Printable(ClaimValues(c, aks, pks, eks)[i])
  {
    hide WhoValues, WhatValues, StateValues, TermValues, Printable;
    PlainValuesPrintable(c);
    StateValuesPrintable(c, aks, pks, eks);
    var vs := ClaimValues(c, aks, pks, eks);
    forall i | 0 <= i < |vs| ensures Printable(vs[i]) {
      if i >= 42 { TextPrintable(vs[i]); }
    }
  }

  lemma TextPrintable(v: Json)
    requires v.Str?
    ensures Printable(v)
  {}

  lemma SameSlices(vs: seq<Json>, ws: seq<Json>, from: nat, to: nat)
    requires from <= to <= |vs| == |ws| && forall i | 0 <= i < |vs| :: Normal(vs[i]) == Normal(ws[i])
    ensures forall i | 0 <= i < to - from :: Normal(vs[from..to][i]) == Normal(ws[from..to][i])
  {}

  lemma ClaimValuesIdentify(c: Claim, d: Claim, aks: seq<string>, pks: seq<string>, eks: seq<string>)
    requires |aks| == 9 && |pks| == 4 && |eks| == 8 && WellTyped(c) && WellTyped(d)
    requires var vs, ws := ClaimValues(c, aks, pks, eks), ClaimValues(d, aks, pks, eks);
      |vs| == |ws| && forall i | 0 <= i < |vs| :: Normal(vs[i]) == Normal(ws[i])
    ensures c.(claimCommitment := "") == d.(claimCommitment := "")
  {
    hide WhoValues, WhatValues, StateValues, TermValues;
    var vs, ws := ClaimValues(c, aks, pks, eks), ClaimValues(d, aks, pks, eks);
    ClaimValuesAt(c, aks, pks, eks);
    ClaimValuesAt(d, aks, pks, eks);
    hide ClaimValues, WellTyped;
    SameSlices(vs, ws, 0, 12);
    SameSlices(vs, ws, 12, 24);
    SameSlices(vs, ws, 24, 33);
    SameSlices(vs, ws, 33, 42);
    assert vs[0..12] == vs[..12] && ws[0..12] == ws[..12];
    WhoNormal(c, d);
    WhatNormal(c, d);
    StateNormal(c, d, aks, pks, eks);
    TermNormal(c, d);
    assert c.tenantId.Some? ==> Normal(vs[43]) == Normal(ws[43]);
  }

  lemma ClaimUnderKeys(hash: Hash, keys: seq<string>, aks: seq<string>, pks: seq<string>, eks: seq<string>,
                       c: Claim, d: Claim)
    requires Injective(hash) && WellTyped(c) && WellTyped(d)
    requires |keys| == 42 && |aks| == 9 && |pks| == 4 && |eks| == 8
    requires Commitment(hash, Record(ClaimKeys(keys, c.tenantId), ClaimValues(c, aks, pks, eks)))
          == Commitment(hash, Record(ClaimKeys(keys, d.tenantId), ClaimValues(d, aks, pks, eks)))
    ensures c.(claimCommitment := "") == d.(claimCommitment := "")
  {
    hide Commitment, ClaimValues, Printable, WellTyped;
    var vs, ws := ClaimValues(c, aks, pks, eks), ClaimValues(d, aks, pks, eks);
    ClaimValuesPrintable(c, aks, pks, eks);
    ClaimValuesPrintable(d, aks, pks, eks);
    RecordCommitsSize(hash, ClaimKeys(keys, c.tenantId), vs, ClaimKeys(keys, d.tenantId), ws);
    RecordCommitsValues(hash, ClaimKeys(keys, c.tenantId), vs, ws);
    ClaimValuesIdentify(c, d, aks, pks, eks);
  }

  /** With an injective hash, claims the verifier accepts under one claim commitment are one
      claim: equal in every field, nested approvals, policies and evidence included. */
  lemma OneCommitmentOneClaim(hash: Hash, c: Claim, d: Claim)
    requires Injective(hash) && WellTyped(c) && WellTyped(d) && Accepts(hash, c) && Accepts(hash, d)
    requires c.claimCommitment == d.claimCommitment
    ensures c == d
  {
    ClaimKeysCount();
    ClaimUnderKeys(hash, CLAIM_KEYS, APPROVAL_KEYS, POLICY_STATE_KEYS, EVIDENCE_KEYS, c, d);
  }

  /** Changing any field of an accepted claim, and nothing else, makes the verifier reject it. */
  lemma TamperingIsRejected(hash: Hash, c: Claim, d: Claim)
    requires Injective(hash) && WellTyped(c) && WellTyped(d) && Accepts(hash, c)
    requires d.claimCommitment == c.claimCommitment && d != c
    ensures !Accepts(hash, d)
  {
    if Accepts(hash, d) {
      OneCommitmentOneClaim(hash, c, d);
    }
  }

  // ---- the claim as text ---------------------------------------------------

  /** What a store keeps of a claim: all of it, its own commitment last. */
  function ClaimText(c: Claim): string {
    Canonical(SPACED, Obj(ClaimJson(c).fields + [Field("claim_commitment", Str(c.claimCommitment))]))
  }

  lemma TextIsOfRecord(c: Claim)
    ensures |CLAIM_KEYS| == 42
    ensures ClaimText(c) == Canonical(SPACED,
      Record(ClaimKeys(CLAIM_KEYS, c.tenantId) + ["claim_commitment"],
             ClaimValues(c, APPROVAL_KEYS, POLICY_STATE_KEYS, EVIDENCE_KEYS) + [Str(c.claimCommitment)]))
  {
    hide CLAIM_KEYS, ClaimValues, Canonical;
    ClaimKeysCount();
    var ks, vs := ClaimKeys(CLAIM_KEYS, c.tenantId), ClaimValues(c, APPROVAL_KEYS, POLICY_STATE_KEYS, EVIDENCE_KEYS);
    assert Record(ks, vs).fields + [Field("claim_commitment", Str(c.claimCommitment))]
        == Record(ks + ["claim_commitment"], vs + [Str(c.claimCommitment)]).fields;
  }

  lemma TextUnderKeys(keys: seq<string>, aks: seq<string>, pks: seq<string>, eks: seq<string>, last: string, c: Claim,
                      d: Claim)
    requires |keys| == 42 && |aks| == 9 && |pks| == 4 && |eks| == 8 && WellTyped(c) && WellTyped(d)
    requires Canonical(SPACED, Record(ClaimKeys(keys, c.tenantId) + [last],
                                      ClaimValues(c, aks, pks, eks) + [Str(c.claimCommitment)]))
          == Canonical(SPACED, Record(ClaimKeys(keys, d.tenantId) + [last],
                                      ClaimValues(d, aks, pks, eks) + [Str(d.claimCommitment)]))
    ensures c == d
  {
    hide Canonical, ClaimValues, WellTyped, Record, Printable;
    var ks, ls := ClaimKeys(keys, c.tenantId) + [last], ClaimKeys(keys, d.tenantId) + [last];
    var vs, ws := ClaimValues(c, aks, pks, eks), ClaimValues(d, aks, pks, eks);
    var all, every := vs + [Str(c.claimCommitment)], ws + [Str(d.claimCommitment)];
    WholePrintable(c, aks, pks, eks);
    WholePrintable(d, aks, pks, eks);
    RecordPrintable(ks, all);
    RecordPrintable(ls, every);
    CanonicalIsInjective(SPACED, Record(ks, all), Record(ls, every));
    RecordNormalSize(ks, all, ls, every);
    RecordNormal(ks, all, every);
    assert forall i | 0 <= i < |vs| :: all[i] == vs[i] && every[i] == ws[i];
    ClaimValuesIdentify(c, d, aks, pks, eks);
    assert Normal(all[|vs|]) == Normal(every[|vs|]);
  }

  lemma WholePrintable(c: Claim, aks: seq<string>, pks: seq<string>, eks: seq<string>)
    requires |aks| == 9 && |pks| == 4 && |eks| == 8 && WellTyped(c)
    ensures var all := ClaimValues(c, aks, pks, eks) + [Str(c.claimCommitment)];
      forall i | 0 <= i < |all| :: Printable(all[i])
  {
    hide ClaimValues, WellTyped;
    ClaimValuesPrintable(c, aks, pks, eks);
    TextPrintable(Str(c.claimCommitment));
    hide Printable;
  }

  /** One stored text is one claim: equal in every field. */
  lemma OneTextOneClaim(c: Claim, d: Claim)
    requires WellTyped(c) && WellTyped(d) && ClaimText(c) == ClaimText(d)
    ensures c == d
  {
    hide WellTyped, ClaimText, CLAIM_KEYS, APPROVAL_KEYS, POLICY_STATE_KEYS, EVIDENCE_KEYS, AUTHORITY_KEYS;
    hide Canonical, Record, ClaimValues;
    TextIsOfRecord(c);
    TextIsOfRecord(d);
    StateKeysCount();
    TextUnderKeys(CLAIM_KEYS, APPROVAL_KEYS, POLICY_STATE_KEYS, EVIDENCE_KEYS, "claim_commitment", c, d);
  }

  /** Whatever else a claim says, it says that its grant was active, and a tenant-aware one names its
      generation and tenant. */
  lemma ClaimSaysActive(c: Claim)
    ensures ClaimJson(c).Obj? && Field("grant_status", Str("active")) in ClaimJson(c).fields
    ensures AuthorityJson(c).Obj? && Field("grant_status", Str("active")) in AuthorityJson(c).fields
    ensures c.tenantId.Some? ==>
      && Field("authorization_generation", Str("bounded-authorization-effect/0.2")) in ClaimJson(c).fields
      && Field("tenant_id", Str(c.tenantId.value)) in ClaimJson(c).fields
  {
    StatusIsTenth(c);
    AuthorityStatus(c);
    if c.tenantId.Some? { TenantIsLast(c); }
  }

  lemma EvidenceSaysItsState(e: EvidenceProjection)
    ensures EvidenceJson(EVIDENCE_KEYS, e).Obj? && |EvidenceJson(EVIDENCE_KEYS, e).fields| == 8
    ensures EvidenceJson(EVIDENCE_KEYS, e).fields[6] == Field("state", Str(
      match e.state case Current => "current" case Stale => "stale" case Unknown => "unknown"))
  {
    assert EVIDENCE_KEYS[6] == "state";
  }

  lemma StatusIsTenth(c: Claim)
    ensures ClaimJson(c).Obj? && |ClaimJson(c).fields| > 10
      && ClaimJson(c).fields[10] == Field("grant_status", Str("active"))
  {
    hide WhatValues, StateValues, TermValues;
    ClaimKeysCount();
    assert CLAIM_KEYS[10] == "grant_status";
    assert ClaimKeys(CLAIM_KEYS, c.tenantId)[10] == "grant_status";
    hide CLAIM_KEYS;
    assert ClaimValues(c, APPROVAL_KEYS, POLICY_STATE_KEYS, EVIDENCE_KEYS)[10] == WhoValues(c)[10];
  }

  lemma AuthorityStatus(c: Claim)
    ensures AuthorityJson(c).Obj? && |AuthorityJson(c).fields| > 2
      && AuthorityJson(c).fields[2] == Field("grant_status", Str("active"))
  {
    hide ApprovalsJson, PolicyStatesJson, EvidencesJson;
    assert AUTHORITY_KEYS[2] == "grant_status";
  }

  lemma TenantIsLast(c: Claim)
    requires c.tenantId.Some?
    ensures ClaimJson(c).Obj? && |ClaimJson(c).fields| == 44
      && ClaimJson(c).fields[42] == Field("authorization_generation", Str("bounded-authorization-effect/0.2"))
      && ClaimJson(c).fields[43] == Field("tenant_id", Str(c.tenantId.value))
  {
    hide WhoValues, WhatValues, StateValues, TermValues, CLAIM_KEYS;
    ClaimKeysCount();
    var vs := ClaimValues(c, APPROVAL_KEYS, POLICY_STATE_KEYS, EVIDENCE_KEYS);
    assert vs[42] == Str(GENERATION) && vs[43] == Str(c.tenantId.value);
  }

  // ---- what the state commitments determine --------------------------------

  ghost predicate OneGeneration(c: Claim, d: Claim) {
    WellTyped(c) && WellTyped(d) && (c.tenantId.Some? <==> d.tenantId.Some?)
  }

  lemma ApprovalsUnderKeys(hash: Hash, keys: seq<string>, c: Claim, d: Claim)
    requires Injective(hash) && OneGeneration(c, d) && |keys| == 9
    ensures Commitment(hash, ApprovalsJson(keys, c.approvals)) == Commitment(hash, ApprovalsJson(keys, d.approvals))
       <==> c.approvals == d.approvals
  {
    hide Commitment, ApprovalsJson, Normal, Printable;
    var v, w := ApprovalsJson(keys, c.approvals), ApprovalsJson(keys, d.approvals);
    ApprovalsNormal(keys, c.approvals, d.approvals);
    ApprovalsNormal(keys, d.approvals, c.approvals);
    if Commitment(hash, v) == Commitment(hash, w) { CommitmentFixesNormal(hash, v, w); }
  }

  lemma PoliciesUnderKeys(hash: Hash, keys: seq<string>, c: Claim, d: Claim)
    requires Injective(hash) && OneGeneration(c, d) && |keys| == 4
    ensures Commitment(hash, PolicyStatesJson(keys, c.policies)) == Commitment(hash, PolicyStatesJson(keys, d.policies))
       <==> c.policies == d.policies
  {
    hide Commitment, PolicyStatesJson, Normal, Printable;
    var v, w := PolicyStatesJson(keys, c.policies), PolicyStatesJson(keys, d.policies);
    PolicyStatesNormal(keys, c.policies, d.policies);
    PolicyStatesNormal(keys, d.policies, c.policies);
    if Commitment(hash, v) == Commitment(hash, w) { CommitmentFixesNormal(hash, v, w); }
  }

  lemma EvidenceUnderKeys(hash: Hash, keys: seq<string>, c: Claim, d: Claim)
    requires Injective(hash) && |keys| == 8
    ensures Commitment(hash, EvidencesJson(keys, c.evidence)) == Commitment(hash, EvidencesJson(keys, d.evidence))
       <==> c.evidence == d.evidence
  {
    hide Commitment, EvidencesJson, Normal, Printable;
    var v, w := EvidencesJson(keys, c.evidence), EvidencesJson(keys, d.evidence);
    EvidencesNormal(keys, c.evidence, d.evidence);
    EvidencesNormal(keys, d.evidence, c.evidence);
    if Commitment(hash, v) == Commitment(hash, w) { CommitmentFixesNormal(hash, v, w); }
  }

  lemma AuthorityUnderKeys(hash: Hash, keys: seq<string>, aks: seq<string>, pks: seq<string>, eks: seq<string>,
                           c: Claim, d: Claim)
    requires Injective(hash) && OneGeneration(c, d) && |keys| == 7 && |aks| == 9 && |pks| == 4 && |eks| == 8
    requires Commitment(hash, Record(keys, AuthorityValues(c, aks, pks, eks)))
          == Commitment(hash, Record(keys, AuthorityValues(d, aks, pks, eks)))
    ensures c.grantId == d.grantId && c.grantRevision == d.grantRevision
    ensures c.requirementCommitment == d.requirementCommitment
    ensures c.approvals == d.approvals && c.policies == d.policies && c.evidence == d.evidence
  {
    hide Commitment, Record, ApprovalsJson, PolicyStatesJson, EvidencesJson;
    var v, w := AuthorityValues(c, aks, pks, eks), AuthorityValues(d, aks, pks, eks);
    ApprovalsNormal(aks, c.approvals, d.approvals);
    ApprovalsNormal(aks, d.approvals, c.approvals);
    PolicyStatesNormal(pks, c.policies, d.policies);
    PolicyStatesNormal(pks, d.policies, c.policies);
    EvidencesNormal(eks, c.evidence, d.evidence);
    EvidencesNormal(eks, d.evidence, c.evidence);
    RecordCommitsValues(hash, keys, v, w);
    assert Normal(v[0]) == Normal(w[0]) && Normal(v[1]) == Normal(w[1]) && Normal(v[3]) == Normal(w[3]);
    assert Normal(v[4]) == Normal(w[4]) && Normal(v[5]) == Normal(w[5]) && Normal(v[6]) == Normal(w[6]);
  }

  /** What each state commitment of an accepted claim fixes, among claims of one generation: its own
      list, and the commitment over the whole authority the grant revision, requirement and all
      three lists. */
  lemma StateCommitmentsFixState(hash: Hash, c: Claim, d: Claim)
    requires Injective(hash) && OneGeneration(c, d) && Accepts(hash, c) && Accepts(hash, d)
    ensures c.approvalsCommitment == d.approvalsCommitment <==> c.approvals == d.approvals
    ensures c.policiesCommitment == d.policiesCommitment <==> c.policies == d.policies
    ensures c.evidenceCommitment == d.evidenceCommitment <==> c.evidence == d.evidence
    ensures c.authorityCommitment == d.authorityCommitment <==>
      && c.grantId == d.grantId && c.grantRevision == d.grantRevision
      && c.requirementCommitment == d.requirementCommitment
      && c.approvals == d.approvals && c.policies == d.policies && c.evidence == d.evidence
  {
    hide Commitment, ClaimJson, Record, ApprovalsJson, PolicyStatesJson, EvidencesJson;
    hide APPROVAL_KEYS, POLICY_STATE_KEYS, EVIDENCE_KEYS, AUTHORITY_KEYS, PROFILE, SOURCE;
    StateKeysCount();
    ApprovalsUnderKeys(hash, APPROVAL_KEYS, c, d);
    PoliciesUnderKeys(hash, POLICY_STATE_KEYS, c, d);
    EvidenceUnderKeys(hash, EVIDENCE_KEYS, c, d);
    if c.authorityCommitment == d.authorityCommitment {
      AuthorityUnderKeys(hash, AUTHORITY_KEYS, APPROVAL_KEYS, POLICY_STATE_KEYS, EVIDENCE_KEYS, c, d);
    }
  }

  lemma StateKeysCount()
    ensures |APPROVAL_KEYS| == 9 && |POLICY_STATE_KEYS| == 4 && |EVIDENCE_KEYS| == 8 && |AUTHORITY_KEYS| == 7
  {}
}
