/** The records the bounded workflow reads: proposals, manifests, authority
    contexts and the resolver's answers. Times are integer instants. */
module Authority {
  import opened Text
  import opened CanonicalJson
  import opened Commitments

  type Time = int

  // ---- proposals -----------------------------------------------------------

  /** tenantId is Some exactly for the tenant-aware generation. */
  datatype Proposal = Proposal(
    manifestId: string, manifestVersion: string, manifestDigest: string,
    actor: string, principal: string, actionId: string, adapterId: string, target: string,
    payload: seq<Field>, payloadCommitment: string,
    requestedPermissions: seq<string>, amount: nat, unit: string, effects: nat,
    authorityContextRef: Option<string>, requirementId: Option<string>,
    riskMetadata: seq<Field>, notBefore: Option<Time>, expiresAt: Option<Time>,
    correlationId: Option<string>, runId: Option<string>,
    expectedSideEffects: seq<string>, evidenceRefs: seq<string>,
    tenantId: Option<string>)

  datatype PolicyRef = PolicyRef(ref: string, version: string)

  /** What one authorization is for. */
  datatype Binding = Binding(
    proposalCommitment: string, manifestId: string, manifestVersion: string, manifestDigest: string,
    actor: string, principal: string, actionId: string, adapterId: string, target: string,
    payloadCommitment: string, requestedPermissions: seq<string>, amount: nat, unit: string, effects: nat,
    authorityContextId: string, authorityContextVersion: string, authorityContextStatus: string,
    requirementId: string, requirementCommitment: string,
    grantId: string, grantRevision: string, policyVersions: seq<PolicyRef>,
    roleMappingVersion: string, roleMappingDigest: string, effectiveMaxEffects: int,
    tenantId: Option<string>)

  // ---- the manifest --------------------------------------------------------

  datatype TargetPolicy = TargetPolicy(allowAnyTarget: bool, allowedTargets: seq<string>)
  datatype PayloadPolicy = PayloadPolicy(required: seq<string>, optional: seq<string>, forbidden: seq<string>)
  datatype Limits = Limits(maxEffects: Option<int>, maxAmount: Option<int>, unit: Option<string>)
  datatype RequiredScope = RequiredScope(scope: string, required: bool)
  datatype DeclaredAuthority = DeclaredAuthority(
    profileRef: Option<string>, requirementId: Option<string>, institutionId: Option<string>,
    authorityDomain: Option<string>, consequenceTier: Option<string>)
  datatype Review = Review(mode: string, reviewerRole: Option<string>)

  /** An empty dictionary counts as absent wherever the source tests it for truth. */
  datatype Action = Action(
    actionId: string, actionName: string, toolName: string,
    targetPolicy: Option<TargetPolicy>, payloadPolicy: Option<PayloadPolicy>,
    effectLimits: Option<Limits>, authorityRequired: seq<RequiredScope>,
    authority: Option<DeclaredAuthority>, review: Option<Review>)

  datatype Tool = Tool(toolName: string, adapterId: string)

  /** The document is what the digest commits to; the rest is what is read from it. Nothing ties
      the two: decoding the one into the other is not modelled, so a digest says nothing here
      about actions or tools. */
  datatype Manifest = Manifest(
    document: Json, manifestVersion: Option<string>, manifestId: Option<string>,
    actions: seq<Action>, tools: seq<Tool>)

  // ---- the authority context -----------------------------------------------

  datatype Institution = Institution(institutionId: string, authorityDomain: string, authorityBasisRef: string)
  datatype Permission = Permission(
    action: string, targets: seq<string>, dataScopes: seq<string>, maxAmount: int, unit: string, maxEffects: int)
  datatype ApprovalRequirement = ApprovalRequirement(roleId: string, independentOfActor: bool)
  datatype Obligation = Obligation(
    obligationId: string, kind: string, sourceRef: string, maxAge: int, required: bool, unknownBehavior: string)

  /** The remaining requirement fields are carried only into its commitment. */
  datatype Requirement = Requirement(
    requirementId: string, permissions: seq<Permission>, approvals: seq<ApprovalRequirement>,
    evidence: seq<Obligation>, tier: Option<string>, document: Json)

  datatype Grant = Grant(
    grantId: string, revision: string, requirementId: string, issuer: string, issuerRole: string,
    issuanceRecordRef: string, grantee: string, actingIdentity: string,
    notBefore: Time, expiresAt: Time, statusRef: string, policyVersions: seq<PolicyRef>,
    permissions: seq<Permission>, parentGrantId: Option<string>, approvalRefs: seq<string>,
    tenantId: Option<string>)

  datatype Context = Context(
    schemaVersion: string, interfaceStatus: string, contextId: string, institution: Institution,
    principal: string, actingIdentity: string, tenantId: Option<string>,
    requirement: Requirement, precedenceRefs: seq<string>, grant: Option<Grant>)

  // ---- resolver answers ----------------------------------------------------

  datatype GrantState = Active | Suspended | Revoked | Unknown
  datatype ApprovalState = Active | Revoked | Unknown
  datatype PolicyState = Active | Superseded | Unknown
  datatype EvidenceState = Current | Stale | Unknown
  datatype ConflictState = Clear | Conflict | Unknown

  datatype GrantStatus = GrantStatus(
    grantId: string, revision: string, status: GrantState, observedAt: Time, version: string,
    statusRef: string, authorityBasisRef: string, institutionId: string, authorityDomain: string,
    tenantId: Option<string>)
  datatype ApprovalStatus = ApprovalStatus(
    approvalRef: string, roleId: string, approver: string, grantId: string, grantRevision: string,
    proposalCommitment: string, policyVersions: seq<PolicyRef>, status: ApprovalState, observedAt: Time,
    institutionId: string, authorityDomain: string, tenantId: Option<string>)
  datatype EvidenceStatus = EvidenceStatus(
    obligationId: string, state: EvidenceState, observedAt: Time, sourceRef: string,
    institutionId: string, authorityDomain: string)
  datatype PolicyStatus = PolicyStatus(
    ref: string, version: string, status: PolicyState, observedAt: Time,
    institutionId: string, authorityDomain: string, tenantId: Option<string>)
  datatype ConflictStatus = ConflictStatus(
    requirementId: string, state: ConflictState, observedAt: Time,
    institutionId: string, authorityDomain: string, conflictRefs: seq<string>)
  datatype IdentityStatus = IdentityStatus(
    identity: string, principal: string, authenticated: bool, delegationValid: bool, observedAt: Time,
    institutionId: string, authorityDomain: string, chain: seq<string>)
  datatype MandateStatus = MandateStatus(
    issuer: string, issuerRole: string, issuanceRecordRef: string, mandateValid: bool, observedAt: Time,
    institutionId: string, authorityDomain: string)
  datatype Alias = Alias(name: string, roles: seq<string>)
  datatype RoleMapping = RoleMapping(institutionId: string, version: string, digest: string, aliases: seq<Alias>)

  /** Everything a resolution may look up; clock dates the answers made up for unknown subjects. */
  datatype Resolver = Resolver(
    contexts: map<string, Context>, grants: map<string, GrantStatus>,
    identities: map<string, IdentityStatus>, mandates: map<string, MandateStatus>,
    approvals: map<string, ApprovalStatus>, policies: map<string, PolicyStatus>,
    conflicts: map<string, ConflictStatus>, evidence: map<string, EvidenceStatus>,
    roleMappings: map<string, RoleMapping>, clock: Time)
  {
    function Identity(actor: string, owner: string): IdentityStatus {
      if actor in identities then identities[actor]
      else IdentityStatus(actor, owner, false, false, clock, "urn:cognous:institution:unknown", "unknown", [])
    }

    function Mandate(issuer: string, role: string): MandateStatus {
      var key := issuer + "|" + role;
      if key in mandates then mandates[key]
      else MandateStatus(issuer, role, "urn:cognous:issuance:unknown", false, clock,
                         "urn:cognous:institution:unknown", "unknown")
    }
  }

  function Lookup<T>(m: map<string, T>, k: string): Option<T> {
    if k in m then Some(m[k]) else None
  }

  // ---- fixed configuration of one workflow instance -------------------------

  datatype ObservationPolicy = ObservationPolicy(maxAge: int, clockTolerance: int)

  datatype Config = Config(
    manifest: Manifest, statusMaxAge: int, identityMaxAge: int, mandateMaxAge: int, approvalMaxAge: int,
    clockTolerance: int, observationPolicy: Option<ObservationPolicy>)

  // ---- states as text -------------------------------------------------------

  function GrantStateText(s: GrantState): string {
    match s
    case Active => "active"
    case Suspended => "suspended"
    case Revoked => "revoked"
    case Unknown => "unknown"
  }

  function PolicyStateText(s: PolicyState): string {
    match s
    case Active => "active"
    case Superseded => "superseded"
    case Unknown => "unknown"
  }

  function ApprovalStateText(s: ApprovalState): string {
    match s
    case Active => "active"
    case Revoked => "revoked"
    case Unknown => "unknown"
  }

  function EvidenceStateText(s: EvidenceState): string {
    match s
    case Current => "current"
    case Stale => "stale"
    case Unknown => "unknown"
  }

  // ---- JSON forms ----------------------------------------------------------

  function OptionJson(o: Option<string>): Json {
    if o.Some? then Str(o.value) else Null
  }

  function TimeJson(t: Time): Json {
    Str(IntText(t))
  }

  function OptionTimeJson(o: Option<Time>): Json {
    if o.Some? then TimeJson(o.value) else Null
  }

  function StringsJson(xs: seq<string>): Json {
    Arr(seq(|xs|, i requires 0 <= i < |xs| => Str(xs[i])))
  }

  /** A whole amount as a float prints it. */
  function AmountJson(n: nat): Json {
    Float(NatText(n) + ".0")
  }

  const POLICY_KEYS := ["ref", "version"]

  function PolicyRefJson(p: PolicyRef): Json {
    Record(POLICY_KEYS, [Str(p.ref), Str(p.version)])
  }

  function PoliciesJson(ps: seq<PolicyRef>): Json {
    Arr(seq(|ps|, i requires 0 <= i < |ps| => PolicyRefJson(ps[i])))
  }

  const PROPOSAL_KEYS := [
    "manifest_id", "manifest_version", "manifest_digest", "actor", "principal", "action_id", "adapter_id",
    "target", "payload", "payload_commitment", "requested_permissions", "amount", "unit", "effects",
    "authority_context_ref", "requirement_id", "risk_metadata", "not_before", "expires_at",
    "correlation_id", "run_id", "expected_side_effects", "evidence_refs"]

  function ProposalHead(p: Proposal): (vs: seq<Json>)
    ensures |vs| == 12
  {
    [Str(p.manifestId), Str(p.manifestVersion), Str(p.manifestDigest), Str(p.actor), Str(p.principal),
     Str(p.actionId), Str(p.adapterId), Str(p.target), Obj(p.payload), Str(p.payloadCommitment),
     StringsJson(p.requestedPermissions), AmountJson(p.amount)]
  }

  function ProposalTail(p: Proposal): (vs: seq<Json>)
    ensures |vs| == 11
  {
    [Str(p.unit), Int(p.effects), OptionJson(p.authorityContextRef), OptionJson(p.requirementId),
     Obj(p.riskMetadata), OptionTimeJson(p.notBefore), OptionTimeJson(p.expiresAt),
     OptionJson(p.correlationId), OptionJson(p.runId), StringsJson(p.expectedSideEffects),
     StringsJson(p.evidenceRefs)]
  }

  function ProposalJson(p: Proposal): Json {
    if p.tenantId.None? then Record(PROPOSAL_KEYS, ProposalHead(p) + ProposalTail(p))
    else Record(PROPOSAL_KEYS + ["tenant_id"], ProposalHead(p) + ProposalTail(p) + [Str(p.tenantId.value)])
  }

  const EFFECT_KEYS := ["proposal", "grant_id", "grant_revision"]

  /** The effect identity of an authorization, or of a held proposal when there is no grant. */
  function EffectId(hash: Hash, proposalCommitment: string, grant: Option<(string, string)>): string {
    Commitment(hash, Record(EFFECT_KEYS,
      [Str(proposalCommitment),
       if grant.Some? then Str(grant.value.0) else Null,
       if grant.Some? then Str(grant.value.1) else Null]))
  }

  function BindingEffectId(hash: Hash, b: Binding): string {
    EffectId(hash, b.proposalCommitment, Some((b.grantId, b.grantRevision)))
  }

  function ProposalCommitment(hash: Hash, p: Proposal): string {
    Commitment(hash, ProposalJson(p))
  }
}
