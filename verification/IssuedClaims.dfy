/** When a claim is issued and what every field of it says, in terms of the order, the binding and
    the authority source it was issued on. */
module IssuedClaims {
  import opened Text
  import opened CanonicalJson
  import opened Commitments
  import opened Authority
  import opened Resolution
  import opened ResolutionLaws
  import opened AuthorizationTerms
  import opened RunRecords
  import opened Claims
  import opened Issuance

  // ---- the snapshot --------------------------------------------------------

  /** The context, the status of its grant, and of everything else what the grant or the requirement
      refers to: no more, and each as the source has it. */
  ghost predicate Photographs(s: Snapshot, r: Resolver, ctx: Context) {
    && s.context == ctx
    && (s.grantStatus.Some? <==> ctx.grant.Some? && ctx.grant.value.grantId in r.grants)
    && (s.grantStatus.Some? ==> s.grantStatus.value == r.grants[ctx.grant.value.grantId])
    && (forall k :: k in s.approvals <==> k in r.approvals && ctx.grant.Some? && k in ctx.grant.value.approvalRefs)
    && (forall k | k in s.approvals :: s.approvals[k] == r.approvals[k])
    && (forall k :: k in s.policies <==>
          k in r.policies && ctx.grant.Some? && exists i | i in ctx.grant.value.policyVersions :: i.ref == k)
    && (forall k | k in s.policies :: s.policies[k] == r.policies[k])
    && (forall k :: k in s.evidence <==>
          k in r.evidence && exists o | o in ctx.requirement.evidence :: o.obligationId == k)
    && (forall k | k in s.evidence :: s.evidence[k] == r.evidence[k])
  }

  lemma SnapshotPhotographs(r: Resolver, ref: string)
    ensures SnapshotOf(r, ref).Some? <==> ref in r.contexts
    ensures ref in r.contexts ==> Photographs(SnapshotOf(r, ref).value, r, r.contexts[ref])
  {}

  lemma OnePhotograph(s: Snapshot, t: Snapshot, r: Resolver, ctx: Context)
    requires Photographs(s, r, ctx) && Photographs(t, r, ctx)
    ensures s == t
  {
    assert s.approvals == t.approvals;
    assert s.policies == t.policies;
    assert s.evidence == t.evidence;
    assert s.grantStatus == t.grantStatus;
  }

  lemma SnapshotExactly(r: Resolver, ref: string, s: Snapshot)
    ensures SnapshotOf(r, ref) == Some(s) <==> ref in r.contexts && Photographs(s, r, r.contexts[ref])
  {
    hide SnapshotOf, Photographs;
    SnapshotPhotographs(r, ref);
    if ref in r.contexts && Photographs(s, r, r.contexts[ref]) {
      OnePhotograph(s, SnapshotOf(r, ref).value, r, r.contexts[ref]);
    }
  }

  // ---- when one is issued --------------------------------------------------

  ghost predicate IsStart(o: Order, g: Grant, t: Time) {
    t == g.notBefore || o.proposal.notBefore == Some(t)
  }

  ghost predicate IsEnd(o: Order, g: Grant, t: Time) {
    t == g.expiresAt || o.proposal.expiresAt == Some(t) || o.expiresAt == Some(t)
  }

  /** Whatever ends comes after whatever starts, and after now. */
  ghost predicate TimeToUse(o: Order, g: Grant) {
    && (forall t, e | IsStart(o, g, t) && IsEnd(o, g, e) :: t < e)
    && (forall e | IsEnd(o, g, e) :: o.now < e)
  }

  lemma WindowIs(o: Order, g: Grant)
    ensures Usable(o, g) <==> TimeToUse(o, g)
    ensures IsStart(o, g, StartOf(o, g)) && forall t | IsStart(o, g, t) :: t <= StartOf(o, g)
    ensures IsEnd(o, g, EndOf(o, g)) && forall e | IsEnd(o, g, e) :: EndOf(o, g) <= e
  {
    assert IsStart(o, g, StartOf(o, g)) && IsEnd(o, g, EndOf(o, g));
  }

  /** What issuance demands of the authority source, given the context and grant in it. */
  ghost predicate Stands(c: Config, r: Resolver, ctx: Context, g: Grant, o: Order, b: Binding) {
    && IsContext(r, o.proposal, ctx) && ctx.grant == Some(g)
    && EveryApprovalStands(r, ctx, b) && EveryObligationMet(c, r, ctx, o.now) && TimeToUse(o, g)
  }

  /** A claim is issued exactly when the decision is the one persisted under its id, the operation is
      authorized now under the same binding, every approval stands, every obligation is met, and the
      three windows leave time to use it. */
  lemma IssuanceDecides(hash: Hash, c: Config, r: Resolver, decisions: seq<Decision>, o: Order)
    ensures Issuable(hash, c, r, decisions, o) <==>
      && Sole(decisions, o.decision)
      && o.decision.result == DecisionResult.Authorized && o.decision.binding.Some?
      && Resolve(hash, c, r, o.proposal, o.now).binding == o.decision.binding
      && exists ctx: Context, g: Grant :: Stands(c, r, ctx, g, o, o.decision.binding.value)
  {
    hide Resolve, Issuable, FindDecision, Sole, EveryApprovalStands, EveryObligationMet, Usable, TimeToUse;
    IssuableParts(hash, c, r, decisions, o);
    FoundExactlyWhenSole(decisions, o.decision);
    if ContextOf(r, o.proposal).Some? && ContextOf(r, o.proposal).value.grant.Some? {
      var ctx := ContextOf(r, o.proposal).value;
      WindowIs(o, ctx.grant.value);
      if Issuable(hash, c, r, decisions, o) {
        assert Stands(c, r, ctx, ctx.grant.value, o, o.decision.binding.value);
      }
    }
  }

  // ---- what it says --------------------------------------------------------

  ghost function Given(o: Option<string>, fallback: string): string {
    match o
    case None => fallback
    case Some(s) => if s == "" then fallback else s
  }

  /** The claim speaks for the decision and its binding, not merely for what the caller passed. */
  ghost predicate SpeaksFor(k: Claim, d: Decision, b: Binding) {
    && k.decisionId == d.decisionId && k.effectId == d.effectId
    && k.actor == b.actor && k.principal == b.principal && k.grantId == b.grantId && k.grantRevision == b.grantRevision
    && k.manifestId == b.manifestId && k.manifestVersion == b.manifestVersion && k.manifestDigest == b.manifestDigest
    && k.actionId == b.actionId && k.adapterId == b.adapterId && k.target == b.target
    && k.payloadCommitment == b.payloadCommitment && k.requestedPermissions == b.requestedPermissions
    && k.amount == b.amount && k.unit == b.unit && k.effects == b.effects
    && k.authorityContextId == b.authorityContextId && k.requirementId == b.requirementId
    && k.requirementCommitment == b.requirementCommitment && k.maxEffects == b.effectiveMaxEffects
    && k.tenantId == b.tenantId && k.effects <= k.maxEffects
  }

  /** Its institution is the context's, its operation the order's, its name and budget those asked
      for or their defaults, and its inputs those handed in. */
  ghost predicate AnswersTo(hash: Hash, k: Claim, o: Order, b: Binding, ctx: Context) {
    && k.claimId == Given(o.claimId, o.freshId) && k.budgetId == Given(o.budgetId, "grant:" + b.grantId)
    && k.institutionId == ctx.institution.institutionId && k.authorityDomain == ctx.institution.authorityDomain
    && k.operationCommitment == Commitment(hash, OperationJson(o.proposal, b, ctx.institution))
    && k.inputCommitment == o.inputCommitment && k.inputProfileVersion == o.inputProfileVersion
    && k.issuedAt == o.now && !k.authorizingByPossession
  }

  lemma OrderedContext(hash: Hash, c: Config, r: Resolver, decisions: seq<Decision>, o: Order, ctx: Context, g: Grant)
    requires Issuable(hash, c, r, decisions, o) && IsContext(r, o.proposal, ctx) && ctx.grant == Some(g)
    ensures var s := SnapshotOf(r, o.proposal.authorityContextRef.GetOr(""));
      s.Some? && s.value.context == ctx
    ensures ContextOf(r, o.proposal) == Some(ctx)
  {
    hide Resolve, Shown, Usable, FindDecision;
  }

  lemma ClaimSpeaksForTheDecision(hash: Hash, c: Config, r: Resolver, decisions: seq<Decision>, o: Order,
                                  ctx: Context, g: Grant)
    requires Issuable(hash, c, r, decisions, o) && IsContext(r, o.proposal, ctx) && ctx.grant == Some(g)
    ensures o.decision in decisions
    ensures SpeaksFor(ClaimFor(hash, c, r, decisions, o), o.decision, o.decision.binding.value)
    ensures AnswersTo(hash, ClaimFor(hash, c, r, decisions, o), o, o.decision.binding.value, ctx)
  {
    hide Resolve, Shown, ProjectionsOf, OperationJson, ApprovalsJson, PolicyStatesJson, EvidencesJson, ClaimJson;
    hide AuthorityJson, Commitment, StartOf, EndOf, SnapshotOf, Usable, FindDecision, PROFILE, SOURCE;
    OrderedContext(hash, c, r, decisions, o, ctx, g);
    BindingIsTheProposals(hash, c, r, o.proposal, o.now, o.decision.binding.value);
  }

  /** The claim's window contains its issuance. It begins when the later of grant and proposal does,
      and ends with the first of grant, proposal and caller's own limit. */
  lemma IssuedWindow(hash: Hash, c: Config, r: Resolver, decisions: seq<Decision>, o: Order, ctx: Context, g: Grant)
    requires Issuable(hash, c, r, decisions, o) && IsContext(r, o.proposal, ctx) && ctx.grant == Some(g)
    ensures var k := ClaimFor(hash, c, r, decisions, o);
      && k.issuedAt == o.now && k.notBefore <= o.now < k.expiresAt
      && IsStart(o, g, k.notBefore) && (forall t | IsStart(o, g, t) :: t <= k.notBefore)
      && IsEnd(o, g, k.expiresAt) && (forall e | IsEnd(o, g, e) :: k.expiresAt <= e)
  {
    hide IsStart, IsEnd, Usable, Resolve, Issuable, IsContext, Terms;
    WindowIs(o, g);
    WindowKept(hash, c, r, decisions, o, ctx, g);
    BoundExactlyOnTerms(hash, c, r, o.proposal, o.now);
    IssuanceDecides(hash, c, r, decisions, o);
    var a: Action, x: Context, h: Grant :| Terms(hash, c, r, a, x, h, o.proposal, o.now);
    NothingStartsLater(hash, c, r, a, x, h, ctx, g, o);
  }

  lemma WindowKept(hash: Hash, c: Config, r: Resolver, decisions: seq<Decision>, o: Order, ctx: Context, g: Grant)
    requires Issuable(hash, c, r, decisions, o) && IsContext(r, o.proposal, ctx) && ctx.grant == Some(g)
    ensures var k := ClaimFor(hash, c, r, decisions, o);
      k.issuedAt == o.now && k.notBefore == StartOf(o, g) && k.expiresAt == EndOf(o, g) && Usable(o, g)
  {
    hide Resolve, Shown, ProjectionsOf, OperationJson, ApprovalsJson, PolicyStatesJson, EvidencesJson, ClaimJson;
    hide AuthorityJson, Commitment, StartOf, EndOf, SnapshotOf, Usable, FindDecision, PROFILE, SOURCE;
    OrderedContext(hash, c, r, decisions, o, ctx, g);
  }

  lemma NothingStartsLater(hash: Hash, c: Config, r: Resolver, a: Action, x: Context, h: Grant, ctx: Context, g: Grant,
                           o: Order)
    requires Terms(hash, c, r, a, x, h, o.proposal, o.now)
    requires IsContext(r, o.proposal, ctx) && ctx.grant == Some(g)
    ensures forall t | IsStart(o, g, t) :: t <= o.now
  {
    hide ContextTerms, MappingTerms, ReviewTerms, IdentityTerms, MandateTerms, ConflictTerms, PolicyTerms, RoleTerms;
    hide EvidenceTerms, Covered, IsFirst, PayloadTerms, LimitTerms, Commitment;
  }

  // ---- the authority it carries --------------------------------------------

  /** Approval i of the claim is the one the grant's reference i resolves to. */
  ghost predicate ApprovalRecorded(a: ApprovalProjection, r: Resolver, ref: string, b: Binding) {
    && a.approvalRef == ref && a.status == ApprovalState.Active && a.grantId == b.grantId
    && a.grantRevision == b.grantRevision && a.proposalCommitment == b.proposalCommitment
    && a.policyVersions == b.policyVersions && a.tenantId == b.tenantId
    && ref in r.approvals && a.roleId == r.approvals[ref].roleId && a.approver == r.approvals[ref].approver
    && a.observedAt == r.approvals[ref].observedAt
  }

  ghost predicate PolicyRecorded(p: PolicyProjection, r: Resolver, item: PolicyRef, b: Binding) {
    && p.ref == item.ref && p.version == item.version && p.status == PolicyState.Active && p.tenantId == b.tenantId
    && item.ref in r.policies && p.observedAt == r.policies[item.ref].observedAt
  }

  ghost predicate EvidenceRecorded(e: EvidenceProjection, r: Resolver, o: Obligation) {
    && e.obligationId == o.obligationId && e.sourceRef == o.sourceRef && e.required == o.required && e.kind == o.kind
    && e.maxAge == o.maxAge && e.unknownBehavior == o.unknownBehavior
    && o.obligationId in r.evidence && e.state == r.evidence[o.obligationId].state
    && e.observedAt == r.evidence[o.obligationId].observedAt
  }

  /** What is recorded is some obligation's, and no obligation that has evidence goes unrecorded. */
  ghost predicate EvidenceCarried(r: Resolver, os: seq<Obligation>, es: seq<EvidenceProjection>) {
    && (forall e | e in es :: exists o | o in os :: EvidenceRecorded(e, r, o))
    && (forall o | o in os && o.obligationId in r.evidence :: exists e | e in es :: EvidenceRecorded(e, r, o))
  }

  ghost predicate AuthorityCarried(k: Claim, r: Resolver, ctx: Context, g: Grant, b: Binding) {
    && |k.approvals| == |g.approvalRefs| && |k.policies| == |b.policyVersions|
    && (forall i | 0 <= i < |k.approvals| :: ApprovalRecorded(k.approvals[i], r, g.approvalRefs[i], b))
    && (forall i | 0 <= i < |k.policies| :: PolicyRecorded(k.policies[i], r, b.policyVersions[i], b))
    && EvidenceCarried(r, ctx.requirement.evidence, k.evidence)
  }

  /** The claim carries the authority it was issued on: each approval and each policy in the order of
      the grant, and all evidence there is for an obligation. */
  lemma ClaimCarriesItsAuthority(hash: Hash, c: Config, r: Resolver, decisions: seq<Decision>, o: Order, ctx: Context,
                                 g: Grant)
    requires Issuable(hash, c, r, decisions, o) && IsContext(r, o.proposal, ctx) && ctx.grant == Some(g)
    ensures AuthorityCarried(ClaimFor(hash, c, r, decisions, o), r, ctx, g, o.decision.binding.value)
  {
    hide Resolve, Shown, ProjectionsOf, OperationJson, ApprovalsJson, PolicyStatesJson, EvidencesJson, ClaimJson;
    hide AuthorityJson, Commitment, StartOf, EndOf, SnapshotOf, Usable, FindDecision, PROFILE, SOURCE;
    hide ApprovalRecorded, PolicyRecorded, EvidenceCarried;
    OrderedContext(hash, c, r, decisions, o, ctx, g);
    var ref := o.proposal.authorityContextRef.GetOr("");
    ProjectionsCarry(hash, c, o.decision.binding.value, r, ref, o.now);
  }

  lemma ProjectionsCarry(hash: Hash, c: Config, b: Binding, r: Resolver, ref: string, now: Time)
    requires SnapshotOf(r, ref).Some? && Shown(hash, c, b, SnapshotOf(r, ref).value, now)
    ensures var s := SnapshotOf(r, ref).value;
      var ps := ProjectionsOf(hash, c, b, s, now);
      && s.context.grant.Some?
      && var refs := s.context.grant.value.approvalRefs;
      && |ps.approvals| == |refs| && |ps.policies| == |b.policyVersions|
      && (forall i | 0 <= i < |ps.approvals| :: ApprovalRecorded(ps.approvals[i], r, refs[i], b))
      && (forall i | 0 <= i < |ps.policies| :: PolicyRecorded(ps.policies[i], r, b.policyVersions[i], b))
      && EvidenceCarried(r, s.context.requirement.evidence, ps.evidence)
  {
    hide EvidenceCarried, EvidenceShown;
    var s := SnapshotOf(r, ref).value;
    var ps := ProjectionsOf(hash, c, b, s, now);
    forall i | 0 <= i < |ps.approvals| ensures ApprovalRecorded(ps.approvals[i], r, GrantRefs(s.context)[i], b) {
      assert ApprovalShown(b, s, GrantRefs(s.context)[i]);
    }
    forall i | 0 <= i < |ps.policies| ensures PolicyRecorded(ps.policies[i], r, b.policyVersions[i], b) {
      assert PolicyShown(b, s, b.policyVersions[i]);
    }
    SnapshotEvidence(c, r, ref, now);
    EvidenceIsRecorded(s, r, s.context.requirement.evidence);
    assert ps.evidence == EvidenceOf(s, s.context.requirement.evidence);
  }

  /** The snapshot has the resolver's evidence for this obligation, if there is any. */
  ghost predicate Taken(s: Snapshot, r: Resolver, o: Obligation) {
    && (o.obligationId in s.evidence <==> o.obligationId in r.evidence)
    && (o.obligationId in s.evidence ==>
          var e := r.evidence[o.obligationId];
          s.evidence[o.obligationId] == e && e.obligationId == o.obligationId && e.sourceRef == o.sourceRef)
  }

  lemma SnapshotEvidence(c: Config, r: Resolver, ref: string, now: Time)
    requires SnapshotOf(r, ref).Some?
    requires var s := SnapshotOf(r, ref).value;
      forall o | o in s.context.requirement.evidence :: EvidenceShown(c, s, o, now)
    ensures var s := SnapshotOf(r, ref).value;
      forall o | o in s.context.requirement.evidence :: Taken(s, r, o)
  {
    var s := SnapshotOf(r, ref).value;
    forall o | o in s.context.requirement.evidence ensures Taken(s, r, o) {
      assert EvidenceShown(c, s, o, now);
    }
  }

  lemma ProjectionRecords(s: Snapshot, r: Resolver, o: Obligation)
    requires Taken(s, r, o) && o.obligationId in s.evidence
    ensures EvidenceRecorded(ProjectEvidence(o, s.evidence[o.obligationId]), r, o)
  {}

  lemma EvidenceIsRecorded(s: Snapshot, r: Resolver, os: seq<Obligation>)
    requires forall o | o in os :: Taken(s, r, o)
    ensures EvidenceCarried(r, os, EvidenceOf(s, os))
  {
    hide EvidenceOf, EvidenceRecorded, ProjectEvidence;
    var es := EvidenceOf(s, os);
    EvidenceProjected(s, os);
    forall e | e in es ensures exists o | o in os :: EvidenceRecorded(e, r, o) {
      var o :| o in os && o.obligationId in s.evidence && e == ProjectEvidence(o, s.evidence[o.obligationId]);
      ProjectionRecords(s, r, o);
    }
    forall o | o in os && o.obligationId in r.evidence ensures exists e | e in es :: EvidenceRecorded(e, r, o) {
      ProjectionRecords(s, r, o);
    }
  }

  // ---- what its commitments fix --------------------------------------------

  /** Whatever two stores, sources and orders they were issued on: claims with one operation
      commitment are for one operation, under one revision of one grant, for one tenant. */
  lemma OneOperationCommitmentOneOperation(
      hash: Hash, c: Config, r: Resolver, decisions: seq<Decision>, o: Order, ctx: Context, g: Grant,
      d: Config, v: Resolver, others: seq<Decision>, q: Order, dtx: Context, h: Grant)
    requires Injective(hash) && WellFormed(Obj(o.proposal.payload)) && WellFormed(Obj(q.proposal.payload))
    requires Issuable(hash, c, r, decisions, o) && IsContext(r, o.proposal, ctx) && ctx.grant == Some(g)
    requires Issuable(hash, d, v, others, q) && IsContext(v, q.proposal, dtx) && dtx.grant == Some(h)
    requires ClaimFor(hash, c, r, decisions, o).operationCommitment
          == ClaimFor(hash, d, v, others, q).operationCommitment
    ensures SameOperationState(o.proposal, o.decision.binding.value, ctx.institution,
                               q.proposal, q.decision.binding.value, dtx.institution)
  {
    hide Issuable, ClaimFor, OperationJson, Commitment, SameOperationState, WellFormed, SpeaksFor, IsContext;
    ClaimSpeaksForTheDecision(hash, c, r, decisions, o, ctx, g);
    ClaimSpeaksForTheDecision(hash, d, v, others, q, dtx, h);
    BindingIsThere(hash, c, r, decisions, o);
    BindingIsThere(hash, d, v, others, q);
    OperationCommitmentIdentifies(hash, o.proposal, o.decision.binding.value, ctx.institution,
                                  q.proposal, q.decision.binding.value, dtx.institution);
  }

  lemma BindingIsThere(hash: Hash, c: Config, r: Resolver, decisions: seq<Decision>, o: Order)
    requires Issuable(hash, c, r, decisions, o)
    ensures o.decision.binding.Some?
  {
    hide Resolve, Shown, Usable, FindDecision, SnapshotOf;
  }
}
