/** Issuing an execution claim: a fresh resolution and one coherent snapshot, under the handoff. */
module Issuance {
  import opened Text
  import opened CanonicalJson
  import opened Commitments
  import opened Authority
  import opened Resolution
  import opened ResolutionLaws
  import opened ResolveLoops
  import opened RunRecords
  import opened Claims
  import opened EffectIdentity

  // ---- the snapshot --------------------------------------------------------

  datatype Snapshot = Snapshot(
    context: Context, grantStatus: Option<GrantStatus>, approvals: map<string, ApprovalStatus>,
    policies: map<string, PolicyStatus>, evidence: map<string, EvidenceStatus>)

  function GrantRefs(ctx: Context): seq<string> {
    if ctx.grant.None? then [] else ctx.grant.value.approvalRefs
  }

  /** What the resolver hands out for one context, read at one instant. */
  function SnapshotOf(r: Resolver, ref: string): Option<Snapshot> {
    if ref !in r.contexts then None else
      var ctx := r.contexts[ref];
      Some(Snapshot(
        ctx,
        if ctx.grant.None? then None else Lookup(r.grants, ctx.grant.value.grantId),
        map k | k in r.approvals && k in GrantRefs(ctx) :: r.approvals[k],
        map k | k in r.policies && ctx.grant.Some? && (exists i | i in ctx.grant.value.policyVersions :: i.ref == k)
          :: r.policies[k],
        map k | k in r.evidence && (exists o | o in ctx.requirement.evidence :: o.obligationId == k) :: r.evidence[k]))
  }

  // ---- what the snapshot must show -----------------------------------------

  /** Context, grant, requirement and grant status are those the binding names. */
  predicate HeaderHolds(hash: Hash, b: Binding, s: Snapshot) {
    var ctx := s.context;
    && ctx.grant.Some?
    && (b.tenantId.Some? ==> ctx.tenantId == b.tenantId && ctx.grant.value.tenantId == b.tenantId)
    && ctx.grant.value.grantId == b.grantId && ctx.grant.value.revision == b.grantRevision
    && ctx.requirement.requirementId == b.requirementId
    && RequirementCommitment(hash, ctx.requirement) == b.requirementCommitment
    && s.grantStatus.Some?
    && var g := s.grantStatus.value;
    && g.grantId == b.grantId && g.revision == b.grantRevision && g.status == GrantState.Active
    && SameInstitution(g.institutionId, g.authorityDomain, ctx)
    && (b.tenantId.Some? ==> g.tenantId == b.tenantId)
  }

  predicate ApprovalShown(b: Binding, s: Snapshot, ref: string) {
    && ref in s.approvals
    && var a := s.approvals[ref];
    && a.approvalRef == ref && a.status == ApprovalState.Active
    && a.grantId == b.grantId && a.grantRevision == b.grantRevision
    && a.proposalCommitment == b.proposalCommitment && a.policyVersions == b.policyVersions
    && SameInstitution(a.institutionId, a.authorityDomain, s.context)
    && (b.tenantId.Some? ==> a.tenantId == b.tenantId)
  }

  predicate PolicyShown(b: Binding, s: Snapshot, item: PolicyRef) {
    && item.ref in s.policies
    && var p := s.policies[item.ref];
    && p.ref == item.ref && p.version == item.version && p.status == PolicyState.Active
    && SameInstitution(p.institutionId, p.authorityDomain, s.context)
    && (b.tenantId.Some? ==> p.tenantId == b.tenantId)
  }

  predicate Critical(o: Obligation) {
    o.required || o.unknownBehavior == "hold_effect"
  }

  predicate EvidenceShown(c: Config, s: Snapshot, o: Obligation, now: Time) {
    if o.obligationId !in s.evidence then !Critical(o) else
      var e := s.evidence[o.obligationId];
      && EvidenceBound(e, o, s.context)
      && e.observedAt <= now + c.clockTolerance
      && (Critical(o) ==> e.state == EvidenceState.Current && now - e.observedAt <= o.maxAge)
  }

  predicate Shown(hash: Hash, c: Config, b: Binding, s: Snapshot, now: Time) {
    && HeaderHolds(hash, b, s)
    && (forall ref | ref in GrantRefs(s.context) :: ApprovalShown(b, s, ref))
    && (forall item | item in b.policyVersions :: PolicyShown(b, s, item))
    && (forall o | o in s.context.requirement.evidence :: EvidenceShown(c, s, o, now))
  }

  // ---- what the claim records of it ----------------------------------------

  function ProjectApproval(b: Binding, a: ApprovalStatus): ApprovalProjection {
    ApprovalProjection(b.tenantId, a.approvalRef, a.roleId, a.approver, a.status, a.grantId, a.grantRevision,
                       a.proposalCommitment, a.policyVersions, a.observedAt)
  }

  function ProjectPolicy(b: Binding, p: PolicyStatus): PolicyProjection {
    PolicyProjection(b.tenantId, p.ref, p.version, p.status, p.observedAt)
  }

  function ProjectEvidence(o: Obligation, e: EvidenceStatus): EvidenceProjection {
    EvidenceProjection(e.obligationId, e.sourceRef, o.required, o.kind, o.maxAge, o.unknownBehavior, e.state,
        e.observedAt)
  }

  function ApprovalsOf(b: Binding, s: Snapshot, refs: seq<string>): (r: seq<ApprovalProjection>)
    requires forall ref | ref in refs :: ref in s.approvals
    ensures |r| == |refs|
    ensures forall i | 0 <= i < |refs| :: r[i] == ProjectApproval(b, s.approvals[refs[i]])
  {
    seq(|refs|, i requires 0 <= i < |refs| => ProjectApproval(b, s.approvals[refs[i]]))
  }

  function PoliciesOf(b: Binding, s: Snapshot, items: seq<PolicyRef>): (r: seq<PolicyProjection>)
    requires forall item | item in items :: item.ref in s.policies
    ensures |r| == |items|
    ensures forall i | 0 <= i < |items| :: r[i] == ProjectPolicy(b, s.policies[items[i].ref])
  {
    seq(|items|, i requires 0 <= i < |items| => ProjectPolicy(b, s.policies[items[i].ref]))
  }

  /** Obligations without evidence leave no trace. */
  function EvidenceOf(s: Snapshot, os: seq<Obligation>): seq<EvidenceProjection> {
    if os == [] then [] else
      var o := os[|os| - 1];
      EvidenceOf(s, os[..|os| - 1])
      + (if o.obligationId in s.evidence then [ProjectEvidence(o, s.evidence[o.obligationId])] else [])
  }

  datatype Projections = Projections(
    approvals: seq<ApprovalProjection>, policies: seq<PolicyProjection>, evidence: seq<EvidenceProjection>)

  function ProjectionsOf(hash: Hash, c: Config, b: Binding, s: Snapshot, now: Time): Projections
    requires Shown(hash, c, b, s, now)
  {
    assert forall ref | ref in GrantRefs(s.context) :: ApprovalShown(b, s, ref);
    assert forall item | item in b.policyVersions :: PolicyShown(b, s, item);
    Projections(ApprovalsOf(b, s, GrantRefs(s.context)), PoliciesOf(b, s, b.policyVersions),
                EvidenceOf(s, s.context.requirement.evidence))
  }

  method CollectApprovals(b: Binding, s: Snapshot) returns (r: Option<seq<ApprovalProjection>>)
    ensures r.Some? <==> forall ref | ref in GrantRefs(s.context) :: ApprovalShown(b, s, ref)
    ensures r.Some? ==>
      && (forall ref | ref in GrantRefs(s.context) :: ref in s.approvals)
      && r.value == ApprovalsOf(b, s, GrantRefs(s.context))
  {
    var refs := GrantRefs(s.context);
    var found: seq<ApprovalProjection> := [];
    for i := 0 to |refs|
      invariant |found| == i
      invariant forall j | 0 <= j < i :: ApprovalShown(b, s, refs[j])
      invariant forall j | 0 <= j < i :: found[j] == ProjectApproval(b, s.approvals[refs[j]])
    {
      assert refs[i] in refs;
      if refs[i] !in s.approvals { return None; }
      var a, at := s.approvals[refs[i]], s.context.institution;
      if a.approvalRef != refs[i] || a.status != ApprovalState.Active { return None; }
      if a.grantId != b.grantId || a.grantRevision != b.grantRevision { return None; }
      if a.proposalCommitment != b.proposalCommitment || a.policyVersions != b.policyVersions { return None; }
      if a.institutionId != at.institutionId || a.authorityDomain != at.authorityDomain { return None; }
      if b.tenantId.Some? && a.tenantId != b.tenantId { return None; }
      found := found + [ApprovalProjection(
        b.tenantId, a.approvalRef, a.roleId, a.approver, a.status, a.grantId, a.grantRevision, a.proposalCommitment,
        a.policyVersions, a.observedAt)];
    }
    r := Some(found);
  }

  method CollectPolicies(b: Binding, s: Snapshot) returns (r: Option<seq<PolicyProjection>>)
    ensures r.Some? <==> forall item | item in b.policyVersions :: PolicyShown(b, s, item)
    ensures r.Some? ==>
      && (forall item | item in b.policyVersions :: item.ref in s.policies)
      && r.value == PoliciesOf(b, s, b.policyVersions)
  {
    var items := b.policyVersions;
    var found: seq<PolicyProjection> := [];
    for i := 0 to |items|
      invariant |found| == i
      invariant forall j | 0 <= j < i :: PolicyShown(b, s, items[j])
      invariant forall j | 0 <= j < i :: found[j] == ProjectPolicy(b, s.policies[items[j].ref])
    {
      assert items[i] in items;
      if items[i].ref !in s.policies { return None; }
      var p, at := s.policies[items[i].ref], s.context.institution;
      if p.ref != items[i].ref || p.version != items[i].version || p.status != PolicyState.Active { return None; }
      if p.institutionId != at.institutionId || p.authorityDomain != at.authorityDomain { return None; }
      if b.tenantId.Some? && p.tenantId != b.tenantId { return None; }
      found := found + [PolicyProjection(b.tenantId, p.ref, p.version, p.status, p.observedAt)];
    }
    r := Some(found);
  }

  method CollectEvidence(c: Config, s: Snapshot, now: Time) returns (r: Option<seq<EvidenceProjection>>)
    ensures r.Some? <==> forall o | o in s.context.requirement.evidence :: EvidenceShown(c, s, o, now)
    ensures r.Some? ==> r.value == EvidenceOf(s, s.context.requirement.evidence)
  {
    var os := s.context.requirement.evidence;
    var found: seq<EvidenceProjection> := [];
    for i := 0 to |os|
      invariant forall j | 0 <= j < i :: EvidenceShown(c, s, os[j], now)
      invariant found == EvidenceOf(s, os[..i])
    {
      var o := os[i];
      assert os[..i + 1][..i] == os[..i];
      assert o in s.context.requirement.evidence;
      var critical := o.required || o.unknownBehavior == "hold_effect";
      if o.obligationId !in s.evidence {
        if critical { return None; }
        continue;
      }
      var e, at := s.evidence[o.obligationId], s.context.institution;
      if e.obligationId != o.obligationId || e.sourceRef != o.sourceRef { return None; }
      if e.institutionId != at.institutionId || e.authorityDomain != at.authorityDomain { return None; }
      if critical && e.state != EvidenceState.Current { return None; }
      if e.observedAt > now + c.clockTolerance { return None; }
      if critical && now - e.observedAt > o.maxAge { return None; }
      found := found + [EvidenceProjection(
        o.obligationId, e.sourceRef, o.required, o.kind, o.maxAge, o.unknownBehavior, e.state, e.observedAt)];
    }
    assert os[..|os|] == os;
    r := Some(found);
  }

  method CheckHeader(hash: Hash, b: Binding, s: Snapshot) returns (ok: bool)
    ensures ok <==> HeaderHolds(hash, b, s)
  {
    hide RequirementCommitment;
    var ctx := s.context;
    if ctx.grant.None? { return false; }
    var g := ctx.grant.value;
    if b.tenantId.Some? && (ctx.tenantId != b.tenantId || g.tenantId != b.tenantId) { return false; }
    if g.grantId != b.grantId || g.revision != b.grantRevision { return false; }
    if ctx.requirement.requirementId != b.requirementId { return false; }
    if RequirementCommitment(hash, ctx.requirement) != b.requirementCommitment { return false; }
    if s.grantStatus.None? { return false; }
    var st := s.grantStatus.value;
    if st.grantId != b.grantId || st.revision != b.grantRevision || st.status != GrantState.Active { return false; }
    if st.institutionId != ctx.institution.institutionId { return false; }
    if st.authorityDomain != ctx.institution.authorityDomain { return false; }
    ok := b.tenantId.None? || st.tenantId == b.tenantId;
  }

  method ValidateIssuanceSnapshot(hash: Hash, c: Config, b: Binding, s: Snapshot, now: Time)
    returns (r: Option<Projections>)
    ensures r == if Shown(hash, c, b, s, now) then Some(ProjectionsOf(hash, c, b, s, now)) else None
  {
    var header := CheckHeader(hash, b, s);
    if !header { return None; }
    var approvals := CollectApprovals(b, s);
    if approvals.None? { return None; }
    var policies := CollectPolicies(b, s);
    if policies.None? { return None; }
    var evidence := CollectEvidence(c, s, now);
    if evidence.None? { return None; }
    r := Some(Projections(approvals.value, policies.value, evidence.value));
  }

  // ---- the claim -----------------------------------------------------------

  /** What the caller supplies; freshId is the identifier drawn when it supplies none. An empty
      identifier or budget counts as none, and so, being no instant, does an empty expiry. */
  datatype Order = Order(
    proposal: Proposal, decision: Decision, now: Time, claimId: Option<string>, freshId: string,
    budgetId: Option<string>, expiresAt: Option<Time>,
    inputCommitment: Option<string>, inputProfileVersion: Option<string>)

  /** supplied or fallback, as a test for truth decides it */
  function Supplied(o: Option<string>, fallback: string): string {
    if o == None || o == Some("") then fallback else o.value
  }

  function Latest(a: Time, b: Option<Time>): (r: Time)
    ensures r >= a && (b.Some? ==> r >= b.value) && (r == a || Some(r) == b)
  {
    if b.Some? && b.value > a then b.value else a
  }

  function Earliest(a: Time, b: Option<Time>): (r: Time)
    ensures r <= a && (b.Some? ==> r <= b.value) && (r == a || Some(r) == b)
  {
    if b.Some? && b.value < a then b.value else a
  }

  function StartOf(o: Order, g: Grant): Time {
    Latest(g.notBefore, o.proposal.notBefore)
  }

  function EndOf(o: Order, g: Grant): Time {
    Earliest(Earliest(g.expiresAt, o.proposal.expiresAt), o.expiresAt)
  }

  predicate Usable(o: Order, g: Grant) {
    StartOf(o, g) < EndOf(o, g) && o.now < EndOf(o, g)
  }

  const OPERATION_KEYS := [
    "actor", "principal", "institution_id", "authority_domain", "manifest_id", "manifest_version", "manifest_digest",
    "action_id", "adapter_id", "target", "payload", "payload_commitment", "requested_permissions", "amount", "unit",
    "effects", "authority_context_id", "requirement_id", "grant_id", "grant_revision"]

  function OperationValues(p: Proposal, b: Binding, i: Institution): (vs: seq<Json>)
    ensures |vs| == 20
  {
    [Str(p.actor), Str(p.principal), Str(i.institutionId), Str(i.authorityDomain), Str(p.manifestId),
     Str(p.manifestVersion), Str(p.manifestDigest), Str(p.actionId), Str(p.adapterId), Str(p.target), Obj(p.payload),
     Str(p.payloadCommitment), StringsJson(p.requestedPermissions), AmountJson(p.amount), Str(p.unit), Int(p.effects),
     OptionJson(p.authorityContextRef), OptionJson(p.requirementId), Str(b.grantId), Str(b.grantRevision)]
  }

  function OperationJson(p: Proposal, b: Binding, i: Institution): Json {
    assert |OPERATION_KEYS| == 20;
    Record(WithTenant(OPERATION_KEYS, b.tenantId), OperationValues(p, b, i) + TenantValue(b.tenantId))
  }

  /** The claim without the commitments over its nested state, and without its own. */
  function BareClaim(hash: Hash, o: Order, b: Binding, s: Snapshot, ps: Projections): Claim
    requires s.context.grant.Some?
  {
    var p, d, i, g := o.proposal, o.decision, s.context.institution, s.context.grant.value;
    Claim(
      PROFILE, Supplied(o.claimId, o.freshId), d.decisionId, d.effectId, i.institutionId, i.authorityDomain,
      p.actor, p.principal, b.grantId, b.grantRevision, p.manifestId,
      p.manifestVersion, p.manifestDigest, p.actionId, p.adapterId, p.target,
      p.payloadCommitment, p.requestedPermissions, p.amount, p.unit, p.effects,
      b.authorityContextId, b.requirementId, b.requirementCommitment,
      Commitment(hash, OperationJson(p, b, i)),
      ps.approvals, "", ps.policies, "", ps.evidence, "", "",
      Supplied(o.budgetId, "grant:" + b.grantId), b.effectiveMaxEffects, StartOf(o, g), EndOf(o, g), o.now,
      o.inputCommitment, o.inputProfileVersion, SOURCE, false, b.tenantId, "")
  }

  // ---- issuing -------------------------------------------------------------

  /** Everything issuance demands, over one resolver state held still by the handoff. */
  predicate Issuable(hash: Hash, c: Config, r: Resolver, decisions: seq<Decision>, o: Order) {
    && FindDecision(decisions, o.decision.decisionId) == Some(o.decision)
    && o.decision.result == DecisionResult.Authorized && o.decision.binding.Some?
    && Resolve(hash, c, r, o.proposal, o.now).reasons == []
    && Resolve(hash, c, r, o.proposal, o.now).binding == o.decision.binding
    && SnapshotOf(r, o.proposal.authorityContextRef.GetOr("")).Some?
    && var s := SnapshotOf(r, o.proposal.authorityContextRef.GetOr("")).value;
    && Shown(hash, c, o.decision.binding.value, s, o.now)
    && Usable(o, s.context.grant.value)
  }

  function ClaimFor(hash: Hash, c: Config, r: Resolver, decisions: seq<Decision>, o: Order): Claim
    requires Issuable(hash, c, r, decisions, o)
  {
    var b, s := o.decision.binding.value, SnapshotOf(r, o.proposal.authorityContextRef.GetOr("")).value;
    Sealed(hash, BareClaim(hash, o, b, s, ProjectionsOf(hash, c, b, s, o.now)))
  }

  /** The binding carries the tenant of the proposal it was resolved for. */
  lemma TenantMatches(hash: Hash, c: Config, r: Resolver, p: Proposal, now: Time, b: Binding)
    requires Resolve(hash, c, r, p, now).binding == Some(b)
    ensures b.tenantId == p.tenantId
  {
    BindingRecordsProposal(hash, c, r, p, now);
  }

  method Materialize(hash: Hash, c: Config, r: Resolver, decisions: seq<Decision>, o: Order)
    returns (claim: Option<Claim>)
    ensures claim == if Issuable(hash, c, r, decisions, o) then Some(ClaimFor(hash, c, r, decisions, o)) else None
  {
    hide Resolve, Shown, ProjectionsOf, Sealed, BareClaim, OperationJson;
    var d, p := o.decision, o.proposal;
    if FindDecision(decisions, d.decisionId) != Some(d) { return None; }
    if d.result != DecisionResult.Authorized || d.binding.None? { return None; }
    var reasons, current := ResolveAuthority(hash, c, r, p, o.now);
    if reasons != [] || current.None? || current != d.binding { return None; }
    var b := current.value;
    TenantMatches(hash, c, r, p, o.now, b);
    var snapshot := SnapshotOf(r, p.authorityContextRef.GetOr(""));
    if snapshot.None? { return None; }
    var s := snapshot.value;
    var shown := ValidateIssuanceSnapshot(hash, c, b, s, o.now);
    if shown.None? { return None; }
    ShownHasGrant(hash, c, b, s, o.now);
    if !Usable(o, s.context.grant.value) { return None; }
    claim := Some(Sealed(hash, BareClaim(hash, o, b, s, shown.value)));
  }

  lemma ShownHasGrant(hash: Hash, c: Config, b: Binding, s: Snapshot, now: Time)
    requires Shown(hash, c, b, s, now)
    ensures s.context.grant.Some?
  {}

  // ---- what an issued claim is ---------------------------------------------

  lemma {:induction false} EvidenceProjected(s: Snapshot, os: seq<Obligation>)
    ensures forall e | e in EvidenceOf(s, os) ::
      exists o | o in os && o.obligationId in s.evidence :: e == ProjectEvidence(o, s.evidence[o.obligationId])
    ensures forall o | o in os && o.obligationId in s.evidence ::
      ProjectEvidence(o, s.evidence[o.obligationId]) in EvidenceOf(s, os)
  {
    if os != [] {
      var n := |os| - 1;
      EvidenceProjected(s, os[..n]);
      assert os == os[..n] + [os[n]];
    }
  }

  /** Every claim issuance builds, tenant-aware or not, is accepted by the separate verifier. */
  lemma IssuedClaimsAreAccepted(hash: Hash, c: Config, r: Resolver, decisions: seq<Decision>, o: Order)
    requires Issuable(hash, c, r, decisions, o)
    ensures Accepts(hash, ClaimFor(hash, c, r, decisions, o))
    ensures WellTyped(ClaimFor(hash, c, r, decisions, o))
  {
    hide Resolve, Accepts, Sealed, OperationJson;
    var b, s := o.decision.binding.value, SnapshotOf(r, o.proposal.authorityContextRef.GetOr("")).value;
    var bare := BareClaim(hash, o, b, s, ProjectionsOf(hash, c, b, s, o.now));
    BareIsIssuable(hash, o, b, s, ProjectionsOf(hash, c, b, s, o.now));
    hide BareClaim, ProjectionsOf, Shown, SnapshotOf, Usable, FindDecision;
    SealedIsAccepted(hash, bare);
    ProjectionsAreTyped(hash, c, b, s, o.now);
  }

  lemma BareIsIssuable(hash: Hash, o: Order, b: Binding, s: Snapshot, ps: Projections)
    requires s.context.grant.Some?
    ensures var bare := BareClaim(hash, o, b, s, ps);
      && bare.profile == PROFILE && bare.source == SOURCE && !bare.authorizingByPossession
      && bare.tenantId == b.tenantId && bare.approvals == ps.approvals && bare.policies == ps.policies
  {
    hide OperationJson, PROFILE, SOURCE;
  }

  lemma ProjectionsAreTyped(hash: Hash, c: Config, b: Binding, s: Snapshot, now: Time)
    requires Shown(hash, c, b, s, now)
    ensures var ps := ProjectionsOf(hash, c, b, s, now);
      && (forall a | a in ps.approvals :: a.tenantId == b.tenantId)
      && (forall p | p in ps.policies :: p.tenantId == b.tenantId)
  {
    hide HeaderHolds, ApprovalShown, PolicyShown, EvidenceShown;
  }

  // ---- issuance strengthens authorization ----------------------------------

  /** Beyond being authorized: every approval the grant refers to, not only those that fill a
      required role, is there, active and bound to exactly this operation. */
  ghost predicate EveryApprovalStands(r: Resolver, ctx: Context, b: Binding) {
    ctx.grant.Some? ==> forall ref | ref in ctx.grant.value.approvalRefs ::
      && ref in r.approvals
      && var a := r.approvals[ref];
      && a.approvalRef == ref && a.status == ApprovalState.Active
      && a.grantId == b.grantId && a.grantRevision == b.grantRevision
      && a.proposalCommitment == b.proposalCommitment && a.policyVersions == b.policyVersions
      && a.institutionId == ctx.institution.institutionId && a.authorityDomain == ctx.institution.authorityDomain
      && (b.tenantId.Some? ==> a.tenantId == b.tenantId)
  }

  /** Evidence that is required, of whatever kind, or whose absence would hold the effect, is
      present, current and fresh; other evidence is bound to its obligation if it is there. */
  ghost predicate EveryObligationMet(c: Config, r: Resolver, ctx: Context, now: Time) {
    forall o | o in ctx.requirement.evidence ::
      && (o.obligationId in r.evidence ==>
            var e := r.evidence[o.obligationId];
            && e.obligationId == o.obligationId && e.sourceRef == o.sourceRef
            && e.institutionId == ctx.institution.institutionId && e.authorityDomain == ctx.institution.authorityDomain
            && e.observedAt <= now + c.clockTolerance)
      && (o.required || o.unknownBehavior == "hold_effect" ==>
            && o.obligationId in r.evidence && r.evidence[o.obligationId].state == EvidenceState.Current
            && now - r.evidence[o.obligationId].observedAt <= o.maxAge)
  }

  lemma ShownApprovals(r: Resolver, ref: string, b: Binding)
    requires SnapshotOf(r, ref).Some?
    ensures var s := SnapshotOf(r, ref).value;
      (forall a | a in GrantRefs(s.context) :: ApprovalShown(b, s, a)) <==> EveryApprovalStands(r, s.context, b)
  {
    var s := SnapshotOf(r, ref).value;
    forall a | a in GrantRefs(s.context)
      ensures (a in s.approvals <==> a in r.approvals) && (a in r.approvals ==> s.approvals[a] == r.approvals[a])
    {}
  }

  lemma ShownEvidence(c: Config, r: Resolver, ref: string, now: Time)
    requires SnapshotOf(r, ref).Some?
    ensures var s := SnapshotOf(r, ref).value;
      (forall o | o in s.context.requirement.evidence :: EvidenceShown(c, s, o, now))
      <==> EveryObligationMet(c, r, s.context, now)
  {
    var s := SnapshotOf(r, ref).value;
    forall o | o in s.context.requirement.evidence
      ensures o.obligationId in s.evidence <==> o.obligationId in r.evidence
    {}
  }

  /** After a fresh resolution to the same binding, the snapshot's checks of context, grant,
      requirement, status and policies can no longer fail. */
  lemma ResolvedHeaderHolds(hash: Hash, c: Config, r: Resolver, p: Proposal, now: Time, b: Binding)
    requires Resolve(hash, c, r, p, now).binding == Some(b)
    ensures SnapshotOf(r, p.authorityContextRef.GetOr("")).Some?
    ensures var s := SnapshotOf(r, p.authorityContextRef.GetOr("")).value;
      HeaderHolds(hash, b, s) && forall item | item in b.policyVersions :: PolicyShown(b, s, item)
  {
    hide Resolve, HeaderHolds, PolicyShown, BindingOf, Resolvable, ResolutionLaws.Authorized;
    ResolvedIsBindingOf(hash, c, r, p, now, b);
    AuthorizedHeader(hash, c, r, p, now, b);
    forall item | item in b.policyVersions
      ensures PolicyShown(b, SnapshotOf(r, p.authorityContextRef.GetOr("")).value, item)
    {
      AuthorizedPolicy(hash, c, r, p, now, b, item);
    }
  }

  lemma ResolvedIsBindingOf(hash: Hash, c: Config, r: Resolver, p: Proposal, now: Time, b: Binding)
    requires Resolve(hash, c, r, p, now).binding == Some(b)
    ensures ResolutionLaws.Authorized(hash, c, r, p, now) && Resolvable(c, r, p) && b == BindingOf(hash, c, r, p)
    ensures SnapshotOf(r, p.authorityContextRef.GetOr("")).Some?
  {
    hide ResolutionLaws.Authorized, BindingOf, ResolveReasons;
    ResolveDecides(hash, c, r, p, now);
    NoReasonMeansResolvable(hash, c, r, p, now);
  }

  lemma AuthorizedHeader(hash: Hash, c: Config, r: Resolver, p: Proposal, now: Time, b: Binding)
    requires ResolutionLaws.Authorized(hash, c, r, p, now) && Resolvable(c, r, p) && b == BindingOf(hash, c, r, p)
    ensures SnapshotOf(r, p.authorityContextRef.GetOr("")).Some?
      && HeaderHolds(hash, b, SnapshotOf(r, p.authorityContextRef.GetOr("")).value)
  {
    hide ManifestAdmits, Reviewed, MappingHolds, IdentityHolds, MandateHolds, ConflictsClear, RequirementApproved;
    hide EvidenceHolds, PolicyHolds, InScope, RequirementCommitment, ProposalCommitment, MatchingPermission,
        ManifestCap;
  }

  lemma AuthorizedPolicy(hash: Hash, c: Config, r: Resolver, p: Proposal, now: Time, b: Binding, item: PolicyRef)
    requires ResolutionLaws.Authorized(hash, c, r, p, now) && Resolvable(c, r, p) && b == BindingOf(hash, c, r, p)
    requires item in b.policyVersions
    ensures SnapshotOf(r, p.authorityContextRef.GetOr("")).Some?
      && PolicyShown(b, SnapshotOf(r, p.authorityContextRef.GetOr("")).value, item)
  {
    hide ManifestAdmits, Reviewed, MappingHolds, IdentityHolds, MandateHolds, ConflictsClear, RequirementApproved;
    hide EvidenceHolds, InScope, RequirementCommitment, ProposalCommitment, MatchingPermission, ManifestCap,
        ContextFits;
    hide GrantHolds;
    assert PolicyHolds(c, r, item, ContextOf(r, p).value, p, now);
  }

  /** Issuable in parts: the decision is the persisted one, the operation is authorized now under the
      same binding, approvals and obligations stand, and the windows leave time. */
  lemma IssuableParts(hash: Hash, c: Config, r: Resolver, decisions: seq<Decision>, o: Order)
    ensures Issuable(hash, c, r, decisions, o) <==>
      && FindDecision(decisions, o.decision.decisionId) == Some(o.decision)
      && o.decision.result == DecisionResult.Authorized && o.decision.binding.Some?
      && Resolve(hash, c, r, o.proposal, o.now).binding == o.decision.binding
      && ContextOf(r, o.proposal).Some? && ContextOf(r, o.proposal).value.grant.Some?
      && EveryApprovalStands(r, ContextOf(r, o.proposal).value, o.decision.binding.value)
      && EveryObligationMet(c, r, ContextOf(r, o.proposal).value, o.now)
      && Usable(o, ContextOf(r, o.proposal).value.grant.value)
  {
    hide Resolve, EveryApprovalStands, EveryObligationMet, ApprovalShown, PolicyShown, EvidenceShown, Usable;
    hide FindDecision, ResolutionLaws.Authorized;
    ResolveDecides(hash, c, r, o.proposal, o.now);
    var ref := o.proposal.authorityContextRef.GetOr("");
    if Resolve(hash, c, r, o.proposal, o.now).binding == o.decision.binding && o.decision.binding.Some? {
      var b := o.decision.binding.value;
      ResolvedHeaderHolds(hash, c, r, o.proposal, o.now, b);
      ShownApprovals(r, ref, b);
      ShownEvidence(c, r, ref, o.now);
    }
  }

  lemma BindingIsTheProposals(hash: Hash, c: Config, r: Resolver, p: Proposal, now: Time, b: Binding)
    requires Resolve(hash, c, r, p, now).binding == Some(b)
    ensures b.actor == p.actor && b.principal == p.principal && b.manifestId == p.manifestId
    ensures b.manifestVersion == p.manifestVersion && b.manifestDigest == p.manifestDigest
    ensures b.actionId == p.actionId && b.adapterId == p.adapterId && b.target == p.target
    ensures b.payloadCommitment == p.payloadCommitment && b.requestedPermissions == p.requestedPermissions
    ensures b.amount == p.amount && b.unit == p.unit && b.effects == p.effects <= b.effectiveMaxEffects
    ensures ContextOf(r, p).Some?
      && b.authorityContextId == ContextOf(r, p).value.contextId
      && b.authorityContextVersion == CONTEXT_VERSION && b.authorityContextStatus == CONTEXT_STATUS
      && b.requirementId == ContextOf(r, p).value.requirement.requirementId
      && b.requirementCommitment == RequirementCommitment(hash, ContextOf(r, p).value.requirement)
  {
    ResolvedIsBindingOf(hash, c, r, p, now, b);
    hide Resolve, ProposalCommitment, RequirementCommitment, Reviewed, MappingHolds, GrantAuthorizes;
    CapWithinLimits(hash, c, r, p);
  }

  /** The operation commitment commits the operation: equal ones mean one payload, target, amount
      and authority, up to the order of dictionary entries. */
  lemma OperationCommitmentIdentifies(hash: Hash, p: Proposal, b: Binding, i: Institution, q: Proposal, d: Binding,
                                      j: Institution)
    requires Injective(hash) && WellFormed(Obj(p.payload)) && WellFormed(Obj(q.payload))
    requires Commitment(hash, OperationJson(p, b, i)) == Commitment(hash, OperationJson(q, d, j))
    ensures SameOperationState(p, b, i, q, d, j)
  {
    hide Commitment, OperationValues;
    OperationUnderKeys(hash, OPERATION_KEYS, p, b, i, q, d, j);
  }

  ghost predicate SameOperationState(p: Proposal, b: Binding, i: Institution, q: Proposal, d: Binding, j: Institution) {
    && p.actor == q.actor && p.principal == q.principal
    && i.institutionId == j.institutionId && i.authorityDomain == j.authorityDomain
    && p.manifestId == q.manifestId && p.manifestVersion == q.manifestVersion && p.manifestDigest == q.manifestDigest
    && p.actionId == q.actionId && p.adapterId == q.adapterId && p.target == q.target
    && Same(Obj(p.payload), Obj(q.payload)) && p.payloadCommitment == q.payloadCommitment
    && p.requestedPermissions == q.requestedPermissions && p.amount == q.amount && p.unit == q.unit
    && p.effects == q.effects && p.authorityContextRef == q.authorityContextRef && p.requirementId == q.requirementId
    && b.grantId == d.grantId && b.grantRevision == d.grantRevision && b.tenantId == d.tenantId
  }

  lemma OperationPrintable(p: Proposal, b: Binding, i: Institution)
    requires WellFormed(Obj(p.payload))
    ensures forall k | 0 <= k < 20 :: Printable(OperationValues(p, b, i)[k])
    ensures forall k | 0 <= k < |TenantValue(b.tenantId)| :: Printable(TenantValue(b.tenantId)[k])
  {
    WellFormedIsPrintable(Obj(p.payload));
    StringsNormal(p.requestedPermissions);
    AmountInjective(p.amount, p.amount);
  }

  lemma FirstValuesNormal(p: Proposal, b: Binding, i: Institution, q: Proposal, d: Binding, j: Institution)
    requires forall k | 0 <= k < 20 :: Normal(OperationValues(p, b, i)[k]) == Normal(OperationValues(q, d, j)[k])
    ensures p.actor == q.actor && p.principal == q.principal
    ensures i.institutionId == j.institutionId && i.authorityDomain == j.authorityDomain
    ensures p.manifestId == q.manifestId && p.manifestVersion == q.manifestVersion
        && p.manifestDigest == q.manifestDigest
    ensures p.actionId == q.actionId && p.adapterId == q.adapterId && p.target == q.target
  {
    hide StringsJson, AmountJson, OptionJson, Normal;
    var v, w := OperationValues(p, b, i), OperationValues(q, d, j);
    forall k | 0 <= k < 10 ensures v[k] == w[k] {
      assert Normal(v[k]) == Normal(w[k]);
      ScalarIsNormal(v[k], w[k]);
    }
    assert v[0] == w[0] && v[1] == w[1] && v[2] == w[2] && v[3] == w[3] && v[4] == w[4];
    assert v[5] == w[5] && v[6] == w[6] && v[7] == w[7] && v[8] == w[8] && v[9] == w[9];
  }

  lemma LastValuesNormal(p: Proposal, b: Binding, i: Institution, q: Proposal, d: Binding, j: Institution)
    requires forall k | 0 <= k < 20 :: Normal(OperationValues(p, b, i)[k]) == Normal(OperationValues(q, d, j)[k])
    ensures Same(Obj(p.payload), Obj(q.payload)) && p.payloadCommitment == q.payloadCommitment
    ensures p.requestedPermissions == q.requestedPermissions && p.amount == q.amount && p.unit == q.unit
    ensures p.effects == q.effects && p.authorityContextRef == q.authorityContextRef
        && p.requirementId == q.requirementId
    ensures b.grantId == d.grantId && b.grantRevision == d.grantRevision
  {
    hide Same;
    var v, w := OperationValues(p, b, i), OperationValues(q, d, j);
    assert Normal(v[10]) == Normal(w[10]) && Normal(v[11]) == Normal(w[11]);
    assert Normal(v[12]) == Normal(w[12]) && Normal(v[13]) == Normal(w[13]) && Normal(v[14]) == Normal(w[14]);
    assert Normal(v[15]) == Normal(w[15]) && Normal(v[16]) == Normal(w[16]) && Normal(v[17]) == Normal(w[17]);
    assert Normal(v[18]) == Normal(w[18]) && Normal(v[19]) == Normal(w[19]);
    OneNormalIsSame(Obj(p.payload), Obj(q.payload));
    StringsNormal(p.requestedPermissions);
    StringsNormal(q.requestedPermissions);
    StringsInjective(p.requestedPermissions, q.requestedPermissions);
    AmountInjective(p.amount, q.amount);
  }

  lemma OperationUnderKeys(hash: Hash, keys: seq<string>, p: Proposal, b: Binding, i: Institution,
                           q: Proposal, d: Binding, j: Institution)
    requires Injective(hash) && WellFormed(Obj(p.payload)) && WellFormed(Obj(q.payload)) && |keys| == 20
    requires Commitment(hash, Record(WithTenant(keys, b.tenantId), OperationValues(p, b, i) + TenantValue(b.tenantId)))
          == Commitment(hash, Record(WithTenant(keys, d.tenantId), OperationValues(q, d, j) + TenantValue(d.tenantId)))
    ensures SameOperationState(p, b, i, q, d, j)
  {
    hide Commitment, OperationValues, Same;
    var v, w := OperationValues(p, b, i) + TenantValue(b.tenantId), OperationValues(q, d, j) + TenantValue(d.tenantId);
    OperationPrintable(p, b, i);
    OperationPrintable(q, d, j);
    hide Printable;
    RecordCommitsSize(hash, WithTenant(keys, b.tenantId), v, WithTenant(keys, d.tenantId), w);
    RecordCommitsValues(hash, WithTenant(keys, b.tenantId), v, w);
    if b.tenantId.Some? {
      assert v[20] == Str(b.tenantId.value) && w[20] == Str(d.tenantId.value);
      assert Normal(v[20]) == Normal(w[20]);
    }
    forall k | 0 <= k < 20 ensures Normal(OperationValues(p, b, i)[k]) == Normal(OperationValues(q, d, j)[k]) {
      assert v[k] == OperationValues(p, b, i)[k] && w[k] == OperationValues(q, d, j)[k];
    }
    FirstValuesNormal(p, b, i, q, d, j);
    LastValuesNormal(p, b, i, q, d, j);
  }
}
