/** The resolution as it runs: local lists grown in loops. Each check gathers the reasons its
    specification lists, in order, and gathers none exactly when what it checks holds. */
module ResolveLoops {
  import opened Text
  import opened CanonicalJson
  import opened Authority
  import opened Commitments
  import opened Reasons
  import opened Resolution
  import opened ResolutionLaws
  import opened AuthorizationTerms

  /** The first permission of a container that covers the proposal. */
  method MatchPermission(m: Manifest, perms: seq<Permission>, p: Proposal) returns (found: Option<Permission>)
    ensures found == MatchingPermission(m, perms, p)
    ensures FoundRightly(m, perms, p, found)
  {
    MatchingIsFirst(m, perms, p);
    var action := FindAction(m.actions, p.actionId);
    if action.None? {
      return None;
    }
    var i := 0;
    while i < |perms|
      invariant 0 <= i <= |perms|
      invariant FirstPermission(perms, action.value, p) == FirstPermission(perms[i..], action.value, p)
    {
      if Permits(perms[i], action.value, p) {
        return Some(perms[i]);
      }
      assert perms[i..][1..] == perms[i + 1..];
      i := i + 1;
    }
    return None;
  }

  // ---- the manifest --------------------------------------------------------

  method CheckDocument(hash: Hash, m: Manifest, p: Proposal) returns (reasons: seq<Reason>)
    ensures reasons == DocumentReasons(hash, m, p)
  {
    hide When, Commitment;
    reasons := [];
    reasons := AppendWhen(reasons, p.manifestVersion != MANIFEST_VERSION, UnsupportedManifestVersion);
    reasons := AppendWhen(reasons, m.manifestVersion != Some(MANIFEST_VERSION), ManifestVersionMismatch);
    reasons := AppendWhen(reasons, m.manifestId != Some(p.manifestId), ManifestIdMismatch);
    reasons := AppendWhen(reasons, p.manifestDigest != Commitment(hash, m.document), ManifestDigestMismatch);
    reasons := AppendWhen(reasons, p.payloadCommitment != Commitment(hash, Obj(p.payload)),
                          PayloadCommitmentMismatch);
  }

  method CheckPayload(policy: Option<PayloadPolicy>, keys: seq<string>) returns (reasons: seq<Reason>)
    ensures reasons == PayloadReasons(policy, keys)
  {
    hide When;
    if policy.None? { return [MissingPayloadPolicy]; }
    var pp := policy.value;
    reasons := [];
    reasons := AppendWhen(reasons, !Subset(pp.required, keys), MissingRequiredPayloadField);
    reasons := AppendWhen(reasons, exists k | k in keys :: k in pp.forbidden, ForbiddenPayloadField);
    reasons := AppendWhen(reasons, exists k | k in keys :: k !in pp.required && k !in pp.optional,
                          UndeclaredPayloadField);
  }

  method CheckLimits(limits: Option<Limits>, p: Proposal) returns (reasons: seq<Reason>)
    ensures reasons == LimitReasons(limits, p)
  {
    hide When;
    reasons := [];
    if limits.None? { return; }
    var l := limits.value;
    reasons := AppendWhen(reasons, p.effects > l.maxEffects.GetOr(0), EffectCountExceeded);
    reasons := AppendWhen(reasons, l.maxAmount.Some? && p.amount > l.maxAmount.value, AmountExceeded);
    reasons := AppendWhen(reasons, l.unit.Some? && p.unit != l.unit.value, AmountUnitMismatch);
  }

  method CheckAction(m: Manifest, a: Action, p: Proposal) returns (reasons: seq<Reason>)
    ensures reasons == ActionReasons(m, a, p)
  {
    hide When, PayloadReasons, LimitReasons, Keys, NeedsMore;
    reasons := [];
    var tool := FindTool(m.tools, a.toolName);
    reasons := AppendWhen(reasons, tool.None? || tool.value.adapterId != p.adapterId, AdapterMismatch);
    reasons := AppendWhen(reasons, a.targetPolicy.None? || a.targetPolicy.value.allowAnyTarget
                          || p.target !in a.targetPolicy.value.allowedTargets, TargetOutOfScope);
    var found := CheckPayload(a.payloadPolicy, Keys(p.payload));
    reasons := reasons + found;
    found := CheckLimits(a.effectLimits, p);
    reasons := reasons + found;
    reasons := AppendWhen(reasons, NeedsMore(a, p), MissingRequestedPermission);
    var declared := a.authority;
    reasons := AppendWhen(reasons, declared.Some? && p.authorityContextRef != declared.value.profileRef,
                          AuthorityProfileMismatch);
    reasons := AppendWhen(reasons, declared.Some? && p.requirementId != declared.value.requirementId,
                          AuthorityRequirementMismatch);
  }

  method CheckManifest(hash: Hash, m: Manifest, p: Proposal, now: Time) returns (reasons: seq<Reason>)
    ensures reasons == ManifestReasons(hash, m, p, now)
    ensures reasons == [] <==>
      && ManifestAdmits(hash, m, p)
      && (p.notBefore.Some? ==> p.notBefore.value <= now) && (p.expiresAt.Some? ==> now < p.expiresAt.value)
      && NamesAuthority(FindAction(m.actions, p.actionId).value, p)
  {
    hide ManifestAdmits, NamesAuthority;
    ManifestPart(hash, m, p, now);
    hide DocumentReasons, ActionReasons;
    reasons := CheckDocument(hash, m, p);
    var action := FindAction(m.actions, p.actionId);
    if action.None? { return reasons + [UnknownAction]; }
    var found := CheckAction(m, action.value, p);
    if p.notBefore.Some? && p.notBefore.value > now { found := found + [ProposalNotYetValid]; }
    if p.expiresAt.Some? && p.expiresAt.value <= now { found := found + [ProposalExpired]; }
    assert found == ActionReasons(m, action.value, p) + WindowReasons(p, now);
    reasons := reasons + found;
  }

  // ---- identity, mandate, grant, conflict ----------------------------------

  method CheckIdentity(c: Config, id: IdentityStatus, ctx: Context, now: Time) returns (reasons: seq<Reason>)
    ensures reasons == IdentityReasons(c, id, ctx, now)
  {
    hide When;
    reasons := [];
    reasons := AppendWhen(reasons, id.identity != ctx.actingIdentity || id.principal != ctx.principal
                          || !SameInstitution(id.institutionId, id.authorityDomain, ctx),
                          IdentityBindingMismatch);
    reasons := AppendWhen(reasons, !id.authenticated || !id.delegationValid, IdentityOrDelegationInvalid);
    reasons := AppendWhen(reasons, !Fresh(c.clockTolerance, id.observedAt, now, c.identityMaxAge),
                          IdentityStaleOrFuture);
  }

  method CheckMandate(c: Config, md: MandateStatus, g: Grant, ctx: Context, now: Time) returns (reasons: seq<Reason>)
    ensures reasons == MandateReasons(c, md, g, ctx, now)
  {
    hide When;
    reasons := [];
    reasons := AppendWhen(reasons, md.issuer != g.issuer || md.issuerRole != g.issuerRole
                          || md.issuanceRecordRef != g.issuanceRecordRef
                          || !SameInstitution(md.institutionId, md.authorityDomain, ctx),
                          MandateBindingMismatch);
    reasons := AppendWhen(reasons, !md.mandateValid, MandateInvalid);
    reasons := AppendWhen(reasons, !Fresh(c.clockTolerance, md.observedAt, now, c.mandateMaxAge),
                          MandateStaleOrFuture);
  }

  method CheckStatus(c: Config, status: Option<GrantStatus>, g: Grant, ctx: Context, p: Proposal, now: Time)
    returns (reasons: seq<Reason>)
    ensures reasons == GrantStatusReasons(c, status, g, ctx, p, now)
  {
    hide When;
    if status.None? { return [GrantNotActive]; }
    var s := status.value;
    reasons := [];
    reasons := AppendWhen(reasons, s.grantId != g.grantId || s.statusRef != g.statusRef
                          || s.authorityBasisRef != ctx.institution.authorityBasisRef
                          || !SameInstitution(s.institutionId, s.authorityDomain, ctx),
                          GrantStatusBindingMismatch);
    reasons := AppendWhen(reasons, p.tenantId.Some? && s.tenantId != p.tenantId, GrantTenantMismatch);
    reasons := AppendWhen(reasons, s.status != GrantState.Active, GrantNotActive);
    reasons := AppendWhen(reasons, s.revision != g.revision, GrantRevisionStale);
    reasons := AppendWhen(reasons, !Fresh(c.clockTolerance, s.observedAt, now, c.statusMaxAge),
                          GrantStatusStaleOrFuture);
  }

  method CheckTerms(c: Config, g: Grant, ctx: Context, id: IdentityStatus, p: Proposal, now: Time)
    returns (reasons: seq<Reason>)
    ensures reasons == GrantReasons(c, g, ctx, id, p, now)
    ensures reasons == [] <==> TermsHold(c, g, ctx, id, p, now)
  {
    hide TermsHold, FoundRightly, When, MatchingPermission;
    reasons := [];
    reasons := AppendWhen(reasons, g.requirementId != ctx.requirement.requirementId, GrantRequirementMismatch);
    reasons := AppendWhen(reasons, g.grantee != ctx.principal || g.actingIdentity != ctx.actingIdentity,
                          GrantIdentityMismatch);
    reasons := AppendWhen(reasons, p.tenantId.Some? && g.tenantId != p.tenantId, GrantTenantMismatch);
    reasons := AppendWhen(reasons, g.notBefore > now || g.expiresAt <= now, GrantOutsideValidity);
    var fromRequirement := MatchPermission(c.manifest, ctx.requirement.permissions, p);
    var fromGrant := MatchPermission(c.manifest, g.permissions, p);
    reasons := AppendWhen(reasons, fromRequirement.None?, RequirementScopeMismatch);
    reasons := AppendWhen(reasons, fromGrant.None?, GrantScopeMismatch);
    reasons := AppendWhen(reasons, g.parentGrantId.Some? && id.chain == [], DelegationChainMissing);
    assert reasons == GrantReasons(c, g, ctx, id, p, now);
    hide GrantReasons;
    TermsPart(c, g, ctx, id, p, now);
  }

  method CheckConflict(c: Config, r: Resolver, ctx: Context, now: Time)
    returns (reasons: seq<Reason>)
    ensures reasons == ConflictReasons(c, Lookup(r.conflicts, ctx.requirement.requirementId), ctx, now)
    ensures reasons == [] <==> ConflictsClear(c, r, ctx, now)
  {
    hide When, Sort, SameInstitution, ConflictsClear;
    ConflictPart(c, r, ctx, now);
    var conflict := Lookup(r.conflicts, ctx.requirement.requirementId);
    if conflict.None? { return [ConflictUnresolved]; }
    var s := conflict.value;
    reasons := [];
    reasons := AppendWhen(reasons, s.requirementId != ctx.requirement.requirementId
                          || Sort(s.conflictRefs) != Sort(ctx.precedenceRefs)
                          || !SameInstitution(s.institutionId, s.authorityDomain, ctx),
                          ConflictBindingMismatch);
    reasons := AppendWhen(reasons, s.state != ConflictState.Clear, ConflictUnresolved);
    reasons := AppendWhen(reasons, !Fresh(c.clockTolerance, s.observedAt, now, c.statusMaxAge),
                          ConflictStaleOrFuture);
  }

  // ---- policies, approvals, evidence ---------------------------------------

  method CheckPolicy(c: Config, r: Resolver, item: PolicyRef, ctx: Context, p: Proposal, now: Time)
    returns (reasons: seq<Reason>)
    ensures reasons == PolicyReasons(c, r, item, ctx, p, now)
    ensures reasons == [] <==> PolicyHolds(c, r, item, ctx, p, now)
  {
    hide PolicyHolds;
    PolicyPart(c, r, item, ctx, p, now);
    hide When;
    reasons := [];
    if item.ref !in r.policies { return [PolicyStaleOrChanged]; }
    var s := r.policies[item.ref];
    reasons := AppendWhen(reasons, s.ref != item.ref
                          || !SameInstitution(s.institutionId, s.authorityDomain, ctx),
                          PolicyBindingMismatch);
    reasons := AppendWhen(reasons, p.tenantId.Some? && s.tenantId != p.tenantId, PolicyTenantMismatch);
    reasons := AppendWhen(reasons, s.status != PolicyState.Active || s.version != item.version,
                          PolicyStaleOrChanged);
    reasons := AppendWhen(reasons, !Fresh(c.clockTolerance, s.observedAt, now, c.statusMaxAge),
                          PolicyStatusStaleOrFuture);
  }

  method CheckPolicies(c: Config, r: Resolver, items: seq<PolicyRef>, ctx: Context, p: Proposal, now: Time)
    returns (reasons: seq<Reason>)
    ensures reasons == PoliciesReasons(c, r, items, ctx, p, now)
    ensures reasons == [] <==> forall item | item in items :: PolicyHolds(c, r, item, ctx, p, now)
  {
    hide PolicyHolds;
    PoliciesPart(c, r, items, ctx, p, now);
    hide PolicyReasons;
    reasons := [];
    for i := 0 to |items|
      invariant reasons == PoliciesReasons(c, r, items[..i], ctx, p, now)
    {
      assert items[..i + 1][..i] == items[..i];
      var found := CheckPolicy(c, r, items[i], ctx, p, now);
      reasons := reasons + found;
    }
    assert items[..|items|] == items;
  }

  /** One pass over the approval references for one required role. */
  method CollectApprovals(r: Resolver, refs: seq<string>, role: string, ctx: Context, p: Proposal)
    returns (reasons: seq<Reason>, matches: seq<ApprovalStatus>)
    ensures reasons == RefsReasons(r, refs, ctx, p)
    ensures matches == Matches(r, refs, role, ctx, p)
  {
    reasons, matches := [], [];
    for i := 0 to |refs|
      invariant reasons == RefsReasons(r, refs[..i], ctx, p)
      invariant matches == Matches(r, refs[..i], role, ctx, p)
    {
      var ref := refs[i];
      assert refs[..i + 1][..i] == refs[..i];
      if ref !in r.approvals {
        assert matches + [] == matches;
        continue;
      }
      var approval := r.approvals[ref];
      if !ApprovalBound(approval, ref, ctx) {
        reasons := reasons + [ApprovalBindingMismatch];
        continue;
      }
      if p.tenantId.Some? && approval.tenantId != p.tenantId {
        reasons := reasons + [ApprovalTenantMismatch];
        continue;
      }
      if approval.roleId == role {
        matches := matches + [approval];
      }
    }
    assert refs[..|refs|] == refs;
  }

  method CheckApproval(c: Config, r: Resolver, req: ApprovalRequirement, g: Grant, ctx: Context, p: Proposal,
                       commitment: string, now: Time)
    returns (reasons: seq<Reason>)
    ensures reasons == ApprovalReasons(c, r, req, g, ctx, p, commitment, now)
  {
    hide Matches, MatchesReasons, RefsReasons, Approves;
    var matches;
    reasons, matches := CollectApprovals(r, g.approvalRefs, req.roleId, ctx, p);
    if matches == [] {
      reasons := reasons + [RequiredApprovalMissing];
    } else {
      var judged := JudgeMatches(c, matches, req, g, p, commitment, now);
      reasons := reasons + judged;
    }
  }

  method CheckApprovals(c: Config, r: Resolver, reqs: seq<ApprovalRequirement>, g: Grant, ctx: Context, p: Proposal,
                        commitment: string, now: Time)
    returns (reasons: seq<Reason>)
    ensures reasons == ApprovalsReasons(c, r, reqs, g, ctx, p, commitment, now)
    ensures reasons == [] <==> forall req | req in reqs :: RequirementApproved(c, r, req, g, ctx, p, commitment, now)
  {
    hide RequirementApproved, ApprovalReasons;
    ApprovalsPart(c, r, reqs, g, ctx, p, commitment, now);
    reasons := [];
    for i := 0 to |reqs|
      invariant reasons == ApprovalsReasons(c, r, reqs[..i], g, ctx, p, commitment, now)
    {
      assert reqs[..i + 1][..i] == reqs[..i];
      var found := CheckApproval(c, r, reqs[i], g, ctx, p, commitment, now);
      reasons := reasons + found;
    }
    assert reqs[..|reqs|] == reqs;
  }

  method JudgeMatches(c: Config, matches: seq<ApprovalStatus>, req: ApprovalRequirement, g: Grant, p: Proposal,
                      commitment: string, now: Time)
    returns (reasons: seq<Reason>)
    ensures reasons == MatchesReasons(c, matches, req, g, p, commitment, now)
    ensures reasons == [] <==> forall a | a in matches :: Approves(c, a, req, g, p, commitment, now)
  {
    hide Approves;
    MatchesPart(c, matches, req, g, p, commitment, now);
    hide MatchReasons;
    reasons := [];
    for k := 0 to |matches|
      invariant reasons == MatchesReasons(c, matches[..k], req, g, p, commitment, now)
    {
      assert matches[..k + 1][..k] == matches[..k];
      var found := JudgeMatch(c, matches[k], req, g, p, commitment, now);
      reasons := reasons + found;
    }
    assert matches[..|matches|] == matches;
  }

  method JudgeMatch(c: Config, a: ApprovalStatus, req: ApprovalRequirement, g: Grant, p: Proposal, commitment: string,
                    now: Time)
    returns (reasons: seq<Reason>)
    ensures reasons == MatchReasons(c, a, req, g, p, commitment, now)
    ensures reasons == [] <==> Approves(c, a, req, g, p, commitment, now)
  {
    hide Approves;
    MatchPart(c, a, req, g, p, commitment, now);
    hide When;
    reasons := [];
    reasons := AppendWhen(reasons, a.status != ApprovalState.Active, ApprovalNotActive);
    reasons := AppendWhen(reasons, !Fresh(c.clockTolerance, a.observedAt, now, c.approvalMaxAge),
                          ApprovalStaleOrFuture);
    reasons := AppendWhen(reasons, a.grantId != g.grantId || a.grantRevision != g.revision,
                          ApprovalGrantMismatch);
    reasons := AppendWhen(reasons, a.proposalCommitment != commitment, ApprovalOperationMismatch);
    reasons := AppendWhen(reasons, a.policyVersions != g.policyVersions, ApprovalPolicyMismatch);
    reasons := AppendWhen(reasons, req.independentOfActor && a.approver == p.actor,
                          ApprovalIndependenceViolation);
  }

  /** Evidence that does not bind is dropped, and the obligation judged without it. */
  method CheckObligation(c: Config, r: Resolver, o: Obligation, ctx: Context, now: Time) returns (reasons: seq<Reason>)
    ensures reasons == EvidenceReasons(c, r, o, ctx, now)
    ensures reasons == [] <==> EvidenceHolds(c, r, o, ctx, now)
  {
    hide EvidenceHolds;
    EvidencePart(c, r, o, ctx, now);
    reasons := [];
    var current := Lookup(r.evidence, o.obligationId);
    if current.Some? && !EvidenceBound(current.value, o, ctx) {
      reasons := reasons + [EvidenceBindingMismatch];
      current := None;
    }
    if o.required && o.kind == "authorization" {
      if current.None? || current.value.state != EvidenceState.Current {
        reasons := reasons + [RequiredEvidenceNotCurrent];
      } else if !Fresh(c.clockTolerance, current.value.observedAt, now, o.maxAge) {
        reasons := reasons + [RequiredEvidenceStaleOrFuture];
      }
    } else if current.Some? {
      if !Fresh(c.clockTolerance, current.value.observedAt, now, o.maxAge) {
        if o.unknownBehavior == "hold_effect" { reasons := reasons + [ContextUnknownRequiresHold]; }
      }
    } else if o.unknownBehavior == "hold_effect" {
      reasons := reasons + [ContextUnknownRequiresHold];
    }
  }

  method CheckEvidence(c: Config, r: Resolver, os: seq<Obligation>, ctx: Context, now: Time)
    returns (reasons: seq<Reason>)
    ensures reasons == EvidencesReasons(c, r, os, ctx, now)
    ensures reasons == [] <==> forall o | o in os :: EvidenceHolds(c, r, o, ctx, now)
  {
    hide EvidenceHolds;
    EvidencesPart(c, r, os, ctx, now);
    hide EvidenceReasons;
    reasons := [];
    for i := 0 to |os|
      invariant reasons == EvidencesReasons(c, r, os[..i], ctx, now)
    {
      assert os[..i + 1][..i] == os[..i];
      var found := CheckObligation(c, r, os[i], ctx, now);
      reasons := reasons + found;
    }
    assert os[..|os|] == os;
  }

  method CheckGrant(hash: Hash, c: Config, r: Resolver, g: Grant, ctx: Context, p: Proposal, now: Time)
    returns (reasons: seq<Reason>)
    ensures reasons == GrantedReasons(hash, c, r, g, ctx, p, now)
    ensures reasons == [] <==> GrantAuthorizes(hash, c, r, ctx, g, p, now)
  {
    hide GrantAuthorizes;
    GrantedPart(hash, c, r, g, ctx, p, now);
    hide IdentityReasons, MandateReasons, GrantStatusReasons, GrantReasons, ConflictReasons, PoliciesReasons;
    hide ApprovalsReasons, EvidencesReasons, ProposalCommitment, Lookup;
    var identity := r.Identity(ctx.actingIdentity, ctx.principal);
    reasons := CheckIdentity(c, identity, ctx, now);
    var found := CheckMandate(c, r.Mandate(g.issuer, g.issuerRole), g, ctx, now);
    reasons := reasons + found;
    found := CheckStatus(c, Lookup(r.grants, g.grantId), g, ctx, p, now);
    reasons := reasons + found;
    found := CheckTerms(c, g, ctx, identity, p, now);
    reasons := reasons + found;
    found := CheckConflict(c, r, ctx, now);
    reasons := reasons + found;
    found := CheckPolicies(c, r, g.policyVersions, ctx, p, now);
    reasons := reasons + found;
    found := CheckApprovals(c, r, ctx.requirement.approvals, g, ctx, p, ProposalCommitment(hash, p), now);
    reasons := reasons + found;
    found := CheckEvidence(c, r, ctx.requirement.evidence, ctx, now);
    reasons := reasons + found;
  }

  // ---- context, mapping, review --------------------------------------------

  method CheckContext(m: Manifest, ctx: Context, p: Proposal) returns (reasons: seq<Reason>)
    ensures reasons == ContextReasons(m, ctx, p)
  {
    hide When, FindAction, CONTEXT_VERSION, CONTEXT_STATUS;
    var action := FindAction(m.actions, p.actionId);
    var declared := if action.None? then None else action.value.authority;
    reasons := [];
    reasons := AppendWhen(reasons, p.tenantId.Some? && ctx.tenantId != p.tenantId, TenantContextMismatch);
    reasons := AppendWhen(reasons, ctx.schemaVersion != CONTEXT_VERSION, ContextVersionMismatch);
    reasons := AppendWhen(reasons, ctx.interfaceStatus != CONTEXT_STATUS, ContextStatusMismatch);
    reasons := AppendWhen(reasons, p.requirementId != Some(ctx.requirement.requirementId),
                          AuthorityRequirementMismatch);
    reasons := AppendWhen(reasons, ctx.principal != p.principal || ctx.actingIdentity != p.actor,
                          ProposalIdentityBindingMismatch);
    reasons := AppendWhen(reasons, declared.None?
                          || declared.value.institutionId != Some(ctx.institution.institutionId), InstitutionMismatch);
    reasons := AppendWhen(reasons, declared.None?
                          || declared.value.authorityDomain != Some(ctx.institution.authorityDomain),
                          AuthorityDomainMismatch);
    var tier := if declared.None? then None else declared.value.consequenceTier;
    reasons := AppendWhen(reasons, ctx.requirement.tier != tier, ConsequenceTierMismatch);
  }

  method CheckMapping(hash: Hash, r: Resolver, ctx: Context) returns (reasons: seq<Reason>)
    ensures reasons == MappingReasons(hash, Lookup(r.roleMappings, ctx.institution.institutionId), ctx)
  {
    if ctx.institution.institutionId !in r.roleMappings { return [RoleMappingMissing]; }
    var mp := r.roleMappings[ctx.institution.institutionId];
    if mp.institutionId != ctx.institution.institutionId || mp.digest != MappingDigest(hash, mp) {
      return [RoleMappingInvalid];
    }
    return [];
  }

  method CheckReview(m: Manifest, mapping: Option<RoleMapping>, ctx: Context, p: Proposal)
    returns (reasons: seq<Reason>)
    ensures reasons == ReviewReasons(m, mapping, ctx, p)
  {
    hide ResolveRole, FindAction;
    var action := FindAction(m.actions, p.actionId);
    if action.None? || action.value.review.None? { return []; }
    var review := action.value.review.value;
    if review.mode == "human_review" || review.mode == "approval_required" {
      var role := ResolveRole(review.reviewerRole, RolesOf(ctx.requirement.approvals),
                              ctx.institution.institutionId, mapping);
      if role.None? { return [ReviewRequirementNotResolved]; }
    }
    return [];
  }

  /** Resolve one proposal: sorted reasons, or a binding when there are none. */
  method ResolveAuthority(hash: Hash, c: Config, r: Resolver, p: Proposal, now: Time)
    returns (reasons: seq<string>, binding: Option<Binding>)
    ensures Resolved(reasons, binding) == Resolve(hash, c, r, p, now)
    ensures binding.Some? <==> Authorized(hash, c, r, p, now)
    ensures reasons == [] <==> binding.Some?
  {
    hide Authorized;
    ResolveDecides(hash, c, r, p, now);
    hide ManifestReasons, ContextReasons, MappingReasons, ReviewReasons, GrantedReasons;
    var found := CheckManifest(hash, c.manifest, p, now);
    var context := ContextOf(r, p);
    if context.None? {
      return Report(found + [AuthorityContextMissing]), None;
    }
    var ctx := context.value;
    var mapping := Lookup(r.roleMappings, ctx.institution.institutionId);
    var inContext := CheckContext(c.manifest, ctx, p);
    var mapped := CheckMapping(hash, r, ctx);
    inContext := inContext + mapped;
    var reviewed := CheckReview(c.manifest, mapping, ctx, p);
    inContext := inContext + reviewed;
    if ctx.grant.None? {
      return Report(found + (inContext + [IssuedGrantMissing])), None;
    }
    var granted := CheckGrant(hash, c, r, ctx.grant.value, ctx, p, now);
    found := found + (inContext + granted);
    if found != [] {
      return Report(found), None;
    }
    NoReasonMeansResolvable(hash, c, r, p, now);
    return [], Some(BindingOf(hash, c, r, p));
  }
}
