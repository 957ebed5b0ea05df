/** What resolution decides: the declarative meaning of "no reason to refuse",
    its scope, and its shape over time. */
module ResolutionLaws {
  import opened Text
  import opened CanonicalJson
  import opened Commitments
  import opened Authority
  import opened Reasons
  import opened Resolution

  // ---- the declarative predicate -------------------------------------------

  /** now lies in the window an observation covers. */
  ghost predicate Covers(tolerance: int, observedAt: Time, maxAge: int, now: Time) {
    observedAt - tolerance <= now <= observedAt + maxAge
  }

  ghost predicate PayloadAllowed(pp: PayloadPolicy, payload: seq<Field>) {
    && (forall k | k in pp.required :: exists f | f in payload :: f.key == k)
    && (forall f | f in payload :: f.key !in pp.forbidden)
    && (forall f | f in payload :: f.key in pp.required || f.key in pp.optional)
  }

  ghost predicate InLimits(l: Limits, p: Proposal) {
    && (match l.maxEffects case Some(n) => p.effects <= n case None => p.effects == 0)
    && (match l.maxAmount case Some(n) => p.amount <= n case None => true)
    && (match l.unit case Some(u) => p.unit == u case None => true)
  }

  ghost predicate Declares(m: Manifest, a: Action, p: Proposal) {
    && FindTool(m.tools, a.toolName).Some? && FindTool(m.tools, a.toolName).value.adapterId == p.adapterId
    && a.targetPolicy.Some? && !a.targetPolicy.value.allowAnyTarget && p.target in a.targetPolicy.value.allowedTargets
    && a.payloadPolicy.Some? && PayloadAllowed(a.payloadPolicy.value, p.payload)
    && (a.effectLimits.Some? ==> InLimits(a.effectLimits.value, p))
    && (forall s | s in a.authorityRequired && s.required :: s.scope in p.requestedPermissions)
  }

  ghost predicate ManifestAdmits(hash: Hash, m: Manifest, p: Proposal) {
    && p.manifestVersion == MANIFEST_VERSION && m.manifestVersion == Some(MANIFEST_VERSION)
    && m.manifestId == Some(p.manifestId) && p.manifestDigest == Commitment(hash, m.document)
    && p.payloadCommitment == Commitment(hash, Obj(p.payload))
    && FindAction(m.actions, p.actionId).Some? && Declares(m, FindAction(m.actions, p.actionId).value, p)
  }

  /** The context speaks about this proposal, as the manifest action says it must. */
  ghost predicate ContextFits(m: Manifest, ctx: Context, p: Proposal) {
    && (p.tenantId.Some? ==> ctx.tenantId == p.tenantId)
    && ctx.schemaVersion == CONTEXT_VERSION && ctx.interfaceStatus == CONTEXT_STATUS
    && p.requirementId == Some(ctx.requirement.requirementId)
    && ctx.principal == p.principal && ctx.actingIdentity == p.actor
    && FindAction(m.actions, p.actionId).Some?
    && var a := FindAction(m.actions, p.actionId).value;
    && a.authority.Some?
    && a.authority.value == DeclaredAuthority(p.authorityContextRef, p.requirementId,
         Some(ctx.institution.institutionId), Some(ctx.institution.authorityDomain), ctx.requirement.tier)
  }

  ghost predicate MappingHolds(hash: Hash, r: Resolver, ctx: Context) {
    && ctx.institution.institutionId in r.roleMappings
    && var mp := r.roleMappings[ctx.institution.institutionId];
    && mp.institutionId == ctx.institution.institutionId && mp.digest == MappingDigest(hash, mp)
  }

  /** A review the action calls for names, directly or through one alias, a required URN role. */
  ghost predicate Reviewed(m: Manifest, r: Resolver, ctx: Context, p: Proposal) {
    var action := FindAction(m.actions, p.actionId);
    action.Some? && action.value.review.Some? && action.value.review.value.mode in ["human_review", "approval_required"]
    ==>
      exists role: string ::
        && role in RolesOf(ctx.requirement.approvals)
        && "urn:" <= role
        && (action.value.review.value.reviewerRole == Some(role)
            || StandsFor(action.value.review.value.reviewerRole, role,
                 Lookup(r.roleMappings, ctx.institution.institutionId), ctx.institution.institutionId))
  }

  ghost predicate StandsFor(declared: Option<string>, role: string, mapping: Option<RoleMapping>,
      institutionId: string) {
    && declared.Some? && !("urn:" <= declared.value)
    && mapping.Some? && mapping.value.institutionId == institutionId
    && FindAlias(mapping.value.aliases, declared.value) == [role]
  }

  ghost predicate IdentityHolds(c: Config, r: Resolver, ctx: Context, g: Grant, now: Time) {
    && ctx.actingIdentity in r.identities
    && var id := r.identities[ctx.actingIdentity];
    && id.identity == ctx.actingIdentity && id.principal == ctx.principal
    && SameInstitution(id.institutionId, id.authorityDomain, ctx)
    && id.authenticated && id.delegationValid
    && Covers(c.clockTolerance, id.observedAt, c.identityMaxAge, now)
    && (g.parentGrantId.Some? ==> id.chain != [])
  }

  ghost predicate MandateHolds(c: Config, r: Resolver, ctx: Context, g: Grant, now: Time) {
    && g.issuer + "|" + g.issuerRole in r.mandates
    && var md := r.mandates[g.issuer + "|" + g.issuerRole];
    && md.issuer == g.issuer && md.issuerRole == g.issuerRole && md.issuanceRecordRef == g.issuanceRecordRef
    && SameInstitution(md.institutionId, md.authorityDomain, ctx)
    && md.mandateValid && Covers(c.clockTolerance, md.observedAt, c.mandateMaxAge, now)
  }

  ghost predicate GrantHolds(c: Config, r: Resolver, ctx: Context, g: Grant, p: Proposal, now: Time) {
    && g.grantId in r.grants
    && var s := r.grants[g.grantId];
    && s.grantId == g.grantId && s.statusRef == g.statusRef
    && s.authorityBasisRef == ctx.institution.authorityBasisRef
    && SameInstitution(s.institutionId, s.authorityDomain, ctx)
    && s.status == GrantState.Active && s.revision == g.revision
    && Covers(c.clockTolerance, s.observedAt, c.statusMaxAge, now)
    && (p.tenantId.Some? ==> s.tenantId == p.tenantId == g.tenantId)
    && g.requirementId == ctx.requirement.requirementId
    && g.grantee == ctx.principal && g.actingIdentity == ctx.actingIdentity
    && g.notBefore <= now < g.expiresAt
  }

  /** Some declared permission covers the proposal. */
  ghost predicate InScope(m: Manifest, perms: seq<Permission>, p: Proposal) {
    && FindAction(m.actions, p.actionId).Some?
    && exists perm | perm in perms :: Permits(perm, FindAction(m.actions, p.actionId).value, p)
  }

  ghost predicate ConflictsClear(c: Config, r: Resolver, ctx: Context, now: Time) {
    && ctx.requirement.requirementId in r.conflicts
    && var s := r.conflicts[ctx.requirement.requirementId];
    && s.requirementId == ctx.requirement.requirementId
    && multiset(s.conflictRefs) == multiset(ctx.precedenceRefs)
    && SameInstitution(s.institutionId, s.authorityDomain, ctx)
    && s.state == ConflictState.Clear && Covers(c.clockTolerance, s.observedAt, c.statusMaxAge, now)
  }

  ghost predicate PolicyHolds(c: Config, r: Resolver, item: PolicyRef, ctx: Context, p: Proposal, now: Time) {
    && item.ref in r.policies
    && var s := r.policies[item.ref];
    && s.ref == item.ref && s.version == item.version && s.status == PolicyState.Active
    && SameInstitution(s.institutionId, s.authorityDomain, ctx)
    && (p.tenantId.Some? ==> s.tenantId == p.tenantId)
    && Covers(c.clockTolerance, s.observedAt, c.statusMaxAge, now)
  }

  ghost predicate Approves(c: Config, a: ApprovalStatus, req: ApprovalRequirement, g: Grant, p: Proposal,
                           commitment: string, now: Time) {
    && a.status == ApprovalState.Active && Covers(c.clockTolerance, a.observedAt, c.approvalMaxAge, now)
    && a.grantId == g.grantId && a.grantRevision == g.revision
    && a.proposalCommitment == commitment && a.policyVersions == g.policyVersions
    && (req.independentOfActor ==> a.approver != p.actor)
  }

  /** Every approval on record belongs here, each required role is filled, and all that fill it approve. */
  ghost predicate RequirementApproved(c: Config, r: Resolver, req: ApprovalRequirement, g: Grant, ctx: Context,
                                      p: Proposal, commitment: string, now: Time) {
    && (forall ref | ref in g.approvalRefs && ref in r.approvals ::
          && ApprovalBound(r.approvals[ref], ref, ctx)
          && (p.tenantId.Some? ==> r.approvals[ref].tenantId == p.tenantId))
    && (exists ref | ref in g.approvalRefs :: RefMatches(r, ref, req.roleId, ctx, p))
    && (forall ref | ref in g.approvalRefs && RefMatches(r, ref, req.roleId, ctx, p) ::
          Approves(c, r.approvals[ref], req, g, p, commitment, now))
  }

  ghost predicate EvidenceHolds(c: Config, r: Resolver, o: Obligation, ctx: Context, now: Time) {
    var present := o.obligationId in r.evidence;
    && (present ==> EvidenceBound(r.evidence[o.obligationId], o, ctx))
    && (o.required && o.kind == "authorization" ==>
          present && r.evidence[o.obligationId].state == EvidenceState.Current)
    && ((o.required && o.kind == "authorization") || o.unknownBehavior == "hold_effect" ==>
          present && Covers(c.clockTolerance, r.evidence[o.obligationId].observedAt, o.maxAge, now))
  }

  ghost predicate GrantAuthorizes(hash: Hash, c: Config, r: Resolver, ctx: Context, g: Grant, p: Proposal, now: Time) {
    && IdentityHolds(c, r, ctx, g, now) && MandateHolds(c, r, ctx, g, now) && GrantHolds(c, r, ctx, g, p, now)
    && InScope(c.manifest, ctx.requirement.permissions, p) && InScope(c.manifest, g.permissions, p)
    && ConflictsClear(c, r, ctx, now)
    && (forall item | item in g.policyVersions :: PolicyHolds(c, r, item, ctx, p, now))
    && (forall req | req in ctx.requirement.approvals ::
          RequirementApproved(c, r, req, g, ctx, p, ProposalCommitment(hash, p), now))
    && (forall o | o in ctx.requirement.evidence :: EvidenceHolds(c, r, o, ctx, now))
  }

  ghost predicate Authorized(hash: Hash, c: Config, r: Resolver, p: Proposal, now: Time) {
    && ManifestAdmits(hash, c.manifest, p)
    && (p.notBefore.Some? ==> p.notBefore.value <= now) && (p.expiresAt.Some? ==> now < p.expiresAt.value)
    && ContextOf(r, p).Some?
    && var ctx := ContextOf(r, p).value;
    && ContextFits(c.manifest, ctx, p) && MappingHolds(hash, r, ctx) && Reviewed(c.manifest, r, ctx, p)
    && ctx.grant.Some? && GrantAuthorizes(hash, c, r, ctx, ctx.grant.value, p, now)
  }

  // ---- no reason, part by part ---------------------------------------------

  lemma KeysAre(fs: seq<Field>, k: string)
    ensures k in Keys(fs) <==> exists f | f in fs :: f.key == k
  {
    if k in Keys(fs) {
      var i :| 0 <= i < |fs| && Keys(fs)[i] == k;
      assert fs[i] in fs;
    }
    if f :| f in fs && f.key == k {
      var i :| 0 <= i < |fs| && fs[i] == f;
      assert Keys(fs)[i] == k;
    }
  }

  lemma PayloadPart(pp: PayloadPolicy, payload: seq<Field>)
    ensures PayloadReasons(Some(pp), Keys(payload)) == [] <==> PayloadAllowed(pp, payload)
  {
    forall k ensures k in Keys(payload) <==> exists f | f in payload :: f.key == k {
      KeysAre(payload, k);
    }
    forall f | f in payload ensures f.key in Keys(payload) {
      KeysAre(payload, f.key);
    }
    var keys := Keys(payload);
    EightParts([], [], [], [], [], When(!Subset(pp.required, keys), MissingRequiredPayloadField),
      When(exists k | k in keys :: k in pp.forbidden, ForbiddenPayloadField),
      When(exists k | k in keys :: k !in pp.required && k !in pp.optional, UndeclaredPayloadField));
  }

  ghost predicate NamesAuthority(a: Action, p: Proposal) {
    a.authority.Some? ==>
      a.authority.value.profileRef == p.authorityContextRef && a.authority.value.requirementId == p.requirementId
  }

  lemma ActionPart(m: Manifest, a: Action, p: Proposal)
    ensures ActionReasons(m, a, p) == [] <==>
      && Declares(m, a, p)
      && NamesAuthority(a, p)
  {
    var tool := FindTool(m.tools, a.toolName);
    EightParts([], When(tool.None? || tool.value.adapterId != p.adapterId, AdapterMismatch),
      When(a.targetPolicy.None? || a.targetPolicy.value.allowAnyTarget
           || p.target !in a.targetPolicy.value.allowedTargets, TargetOutOfScope),
      PayloadReasons(a.payloadPolicy, Keys(p.payload)),
      LimitReasons(a.effectLimits, p),
      When(NeedsMore(a, p), MissingRequestedPermission),
      When(a.authority.Some? && p.authorityContextRef != a.authority.value.profileRef, AuthorityProfileMismatch),
      When(a.authority.Some? && p.requirementId != a.authority.value.requirementId, AuthorityRequirementMismatch));
    if a.payloadPolicy.Some? {
      PayloadPart(a.payloadPolicy.value, p.payload);
    }
    assert LimitReasons(a.effectLimits, p) == [] <==> (a.effectLimits.Some? ==> InLimits(a.effectLimits.value, p));
  }

  lemma ManifestPart(hash: Hash, m: Manifest, p: Proposal, now: Time)
    ensures ManifestReasons(hash, m, p, now) == [] <==>
      && ManifestAdmits(hash, m, p)
      && (p.notBefore.Some? ==> p.notBefore.value <= now) && (p.expiresAt.Some? ==> now < p.expiresAt.value)
      && NamesAuthority(FindAction(m.actions, p.actionId).value, p)
  {
    var action := FindAction(m.actions, p.actionId);
    if action.Some? {
      ActionPart(m, action.value, p);
    }
  }

  lemma ContextPart(m: Manifest, ctx: Context, p: Proposal)
    requires FindAction(m.actions, p.actionId).Some?
    requires NamesAuthority(FindAction(m.actions, p.actionId).value, p)
    ensures ContextReasons(m, ctx, p) == [] <==> ContextFits(m, ctx, p)
  {
    var declared := FindAction(m.actions, p.actionId).value.authority;
    EightParts(
      When(p.tenantId.Some? && ctx.tenantId != p.tenantId, TenantContextMismatch),
      When(ctx.schemaVersion != CONTEXT_VERSION, ContextVersionMismatch),
      When(ctx.interfaceStatus != CONTEXT_STATUS, ContextStatusMismatch),
      When(p.requirementId != Some(ctx.requirement.requirementId), AuthorityRequirementMismatch),
      When(ctx.principal != p.principal || ctx.actingIdentity != p.actor, ProposalIdentityBindingMismatch),
      When(declared.None? || declared.value.institutionId != Some(ctx.institution.institutionId),
           InstitutionMismatch),
      When(declared.None? || declared.value.authorityDomain != Some(ctx.institution.authorityDomain),
           AuthorityDomainMismatch),
      When(ctx.requirement.tier != (if declared.None? then None else declared.value.consequenceTier),
           ConsequenceTierMismatch));
  }

  lemma FittingNames(m: Manifest, ctx: Context, p: Proposal)
    requires ContextFits(m, ctx, p)
    ensures FindAction(m.actions, p.actionId).Some? && NamesAuthority(FindAction(m.actions, p.actionId).value, p)
  {}

  lemma RoleResolves(declared: Option<string>, required: seq<string>, institutionId: string,
      mapping: Option<RoleMapping>)
    ensures ResolveRole(declared, required, institutionId, mapping).Some? <==>
      exists role: string :: role in required && "urn:" <= role
        && (declared == Some(role) || StandsFor(declared, role, mapping, institutionId))
  {
    var found := ResolveRole(declared, required, institutionId, mapping);
    if found.Some? {
      assert found.value in required && "urn:" <= found.value;
    }
  }

  lemma MappingPart(hash: Hash, r: Resolver, ctx: Context)
    ensures MappingReasons(hash, Lookup(r.roleMappings, ctx.institution.institutionId), ctx) == []
       <==> MappingHolds(hash, r, ctx)
  {}

  lemma ReviewPart(m: Manifest, r: Resolver, ctx: Context, p: Proposal)
    ensures ReviewReasons(m, Lookup(r.roleMappings, ctx.institution.institutionId), ctx, p) == []
       <==> Reviewed(m, r, ctx, p)
  {
    var action := FindAction(m.actions, p.actionId);
    if action.Some? && action.value.review.Some? {
      RoleResolves(action.value.review.value.reviewerRole, RolesOf(ctx.requirement.approvals),
        ctx.institution.institutionId, Lookup(r.roleMappings, ctx.institution.institutionId));
    }
  }

  lemma ScopePart(m: Manifest, perms: seq<Permission>, p: Proposal)
    ensures MatchingPermission(m, perms, p).Some? <==> InScope(m, perms, p)
  {}

  lemma GrantPart(hash: Hash, c: Config, r: Resolver, g: Grant, ctx: Context, p: Proposal, now: Time)
    ensures
      (&& IdentityReasons(c, r.Identity(ctx.actingIdentity, ctx.principal), ctx, now) == []
       && MandateReasons(c, r.Mandate(g.issuer, g.issuerRole), g, ctx, now) == []
       && GrantStatusReasons(c, Lookup(r.grants, g.grantId), g, ctx, p, now) == []
       && GrantReasons(c, g, ctx, r.Identity(ctx.actingIdentity, ctx.principal), p, now) == [])
      <==>
      (&& IdentityHolds(c, r, ctx, g, now) && MandateHolds(c, r, ctx, g, now) && GrantHolds(c, r, ctx, g, p, now)
       && InScope(c.manifest, ctx.requirement.permissions, p) && InScope(c.manifest, g.permissions, p))
  {
    hide IdentityReasons, MandateReasons, GrantStatusReasons, GrantReasons, MandateHolds, InScope;
    IdentityPart(c, r, ctx, now);
    MandatePart(c, r, g, ctx, now);
    StatusPart(c, r, g, ctx, p, now);
    TermsPart(c, g, ctx, r.Identity(ctx.actingIdentity, ctx.principal), p, now);
  }

  lemma IdentityPart(c: Config, r: Resolver, ctx: Context, now: Time)
    ensures IdentityReasons(c, r.Identity(ctx.actingIdentity, ctx.principal), ctx, now) == [] <==>
      && ctx.actingIdentity in r.identities
      && var id := r.identities[ctx.actingIdentity];
      && id.identity == ctx.actingIdentity && id.principal == ctx.principal
      && SameInstitution(id.institutionId, id.authorityDomain, ctx)
      && id.authenticated && id.delegationValid
      && Covers(c.clockTolerance, id.observedAt, c.identityMaxAge, now)
  {}

  lemma StatusPart(c: Config, r: Resolver, g: Grant, ctx: Context, p: Proposal, now: Time)
    ensures GrantStatusReasons(c, Lookup(r.grants, g.grantId), g, ctx, p, now) == [] <==>
      && g.grantId in r.grants
      && var s := r.grants[g.grantId];
      && s.grantId == g.grantId && s.statusRef == g.statusRef
      && s.authorityBasisRef == ctx.institution.authorityBasisRef
      && SameInstitution(s.institutionId, s.authorityDomain, ctx)
      && s.status == GrantState.Active && s.revision == g.revision
      && Covers(c.clockTolerance, s.observedAt, c.statusMaxAge, now)
      && (p.tenantId.Some? ==> s.tenantId == p.tenantId)
  {}

  /** The grant's own terms cover the proposal now, as the requirement's scope does. */
  ghost predicate TermsHold(c: Config, g: Grant, ctx: Context, id: IdentityStatus, p: Proposal, now: Time) {
    && g.requirementId == ctx.requirement.requirementId
    && g.grantee == ctx.principal && g.actingIdentity == ctx.actingIdentity
    && (p.tenantId.Some? ==> g.tenantId == p.tenantId)
    && g.notBefore <= now < g.expiresAt
    && InScope(c.manifest, ctx.requirement.permissions, p) && InScope(c.manifest, g.permissions, p)
    && (g.parentGrantId.Some? ==> id.chain != [])
  }

  lemma TermsPart(c: Config, g: Grant, ctx: Context, id: IdentityStatus, p: Proposal, now: Time)
    ensures GrantReasons(c, g, ctx, id, p, now) == [] <==> TermsHold(c, g, ctx, id, p, now)
  {
    hide MatchingPermission, InScope;
    ScopePart(c.manifest, ctx.requirement.permissions, p);
    ScopePart(c.manifest, g.permissions, p);
    EightParts([],
      When(g.requirementId != ctx.requirement.requirementId, GrantRequirementMismatch),
      When(g.grantee != ctx.principal || g.actingIdentity != ctx.actingIdentity, GrantIdentityMismatch),
      When(p.tenantId.Some? && g.tenantId != p.tenantId, GrantTenantMismatch),
      When(g.notBefore > now || g.expiresAt <= now, GrantOutsideValidity),
      When(MatchingPermission(c.manifest, ctx.requirement.permissions, p).None?, RequirementScopeMismatch),
      When(MatchingPermission(c.manifest, g.permissions, p).None?, GrantScopeMismatch),
      When(g.parentGrantId.Some? && id.chain == [], DelegationChainMissing));
  }

  lemma MandatePart(c: Config, r: Resolver, g: Grant, ctx: Context, now: Time)
    ensures MandateReasons(c, r.Mandate(g.issuer, g.issuerRole), g, ctx, now) == [] <==> MandateHolds(c, r, ctx, g, now)
  {}

  lemma ConflictPart(c: Config, r: Resolver, ctx: Context, now: Time)
    ensures ConflictReasons(c, Lookup(r.conflicts, ctx.requirement.requirementId), ctx, now) == []
       <==> ConflictsClear(c, r, ctx, now)
  {
    if ctx.requirement.requirementId in r.conflicts {
      SortIsMultiset(r.conflicts[ctx.requirement.requirementId].conflictRefs, ctx.precedenceRefs);
    }
  }

  lemma PolicyPart(c: Config, r: Resolver, item: PolicyRef, ctx: Context, p: Proposal, now: Time)
    ensures PolicyReasons(c, r, item, ctx, p, now) == [] <==> PolicyHolds(c, r, item, ctx, p, now)
  {}

  lemma {:induction false} PoliciesPart(c: Config, r: Resolver, items: seq<PolicyRef>, ctx: Context, p: Proposal,
      now: Time)
    ensures PoliciesReasons(c, r, items, ctx, p, now) == []
       <==> forall item | item in items :: PolicyHolds(c, r, item, ctx, p, now)
  {
    hide PolicyReasons, PolicyHolds;
    if items != [] {
      var n := |items| - 1;
      PolicyPart(c, r, items[n], ctx, p, now);
      PoliciesPart(c, r, items[..n], ctx, p, now);
      assert items == items[..n] + [items[n]];
    }
  }

  /** What is on record under the reference, if anything, belongs to this context and tenant. */
  ghost predicate RefBelongs(r: Resolver, ref: string, ctx: Context, p: Proposal) {
    ref in r.approvals ==>
      ApprovalBound(r.approvals[ref], ref, ctx) && (p.tenantId.Some? ==> r.approvals[ref].tenantId == p.tenantId)
  }

  lemma RefPart(r: Resolver, ref: string, ctx: Context, p: Proposal)
    ensures RefReasons(r, ref, ctx, p) == [] <==> RefBelongs(r, ref, ctx, p)
  {}

  lemma {:induction false} RefsPart(r: Resolver, refs: seq<string>, ctx: Context, p: Proposal)
    ensures RefsReasons(r, refs, ctx, p) == [] <==> forall ref | ref in refs :: RefBelongs(r, ref, ctx, p)
  {
    hide RefReasons, RefBelongs;
    if refs != [] {
      var n := |refs| - 1;
      RefsPart(r, refs[..n], ctx, p);
      RefPart(r, refs[n], ctx, p);
      assert refs == refs[..n] + [refs[n]];
    }
  }

  lemma MatchPart(c: Config, a: ApprovalStatus, req: ApprovalRequirement, g: Grant, p: Proposal, commitment: string,
                  now: Time)
    ensures MatchReasons(c, a, req, g, p, commitment, now) == [] <==> Approves(c, a, req, g, p, commitment, now)
  {}

  lemma {:induction false} MatchesPart(c: Config, ms: seq<ApprovalStatus>, req: ApprovalRequirement, g: Grant,
                                       p: Proposal, commitment: string, now: Time)
    ensures MatchesReasons(c, ms, req, g, p, commitment, now) == []
       <==> forall a | a in ms :: Approves(c, a, req, g, p, commitment, now)
  {
    hide MatchReasons, Approves;
    if ms != [] {
      var n := |ms| - 1;
      MatchesPart(c, ms[..n], req, g, p, commitment, now);
      MatchPart(c, ms[n], req, g, p, commitment, now);
      assert ms == ms[..n] + [ms[n]];
    }
  }

  lemma ApprovalPart(c: Config, r: Resolver, req: ApprovalRequirement, g: Grant, ctx: Context, p: Proposal,
                     commitment: string, now: Time)
    ensures ApprovalReasons(c, r, req, g, ctx, p, commitment, now) == []
       <==> RequirementApproved(c, r, req, g, ctx, p, commitment, now)
  {
    var ms := Matches(r, g.approvalRefs, req.roleId, ctx, p);
    RefsPart(r, g.approvalRefs, ctx, p);
    MatchesPart(c, ms, req, g, p, commitment, now);
    if ref :| ref in g.approvalRefs && RefMatches(r, ref, req.roleId, ctx, p) {
      assert r.approvals[ref] in ms;
    }
    if ms != [] {
      assert ms[0] in ms;
    }
  }

  lemma {:induction false} ApprovalsPart(c: Config, r: Resolver, reqs: seq<ApprovalRequirement>, g: Grant, ctx: Context,
                                         p: Proposal, commitment: string, now: Time)
    ensures ApprovalsReasons(c, r, reqs, g, ctx, p, commitment, now) == []
       <==> forall req | req in reqs :: RequirementApproved(c, r, req, g, ctx, p, commitment, now)
  {
    hide ApprovalReasons, RequirementApproved;
    if reqs != [] {
      var n := |reqs| - 1;
      ApprovalsPart(c, r, reqs[..n], g, ctx, p, commitment, now);
      ApprovalPart(c, r, reqs[n], g, ctx, p, commitment, now);
      assert reqs == reqs[..n] + [reqs[n]];
    }
  }

  lemma EvidencePart(c: Config, r: Resolver, o: Obligation, ctx: Context, now: Time)
    ensures EvidenceReasons(c, r, o, ctx, now) == [] <==> EvidenceHolds(c, r, o, ctx, now)
  {}

  lemma {:induction false} EvidencesPart(c: Config, r: Resolver, os: seq<Obligation>, ctx: Context, now: Time)
    ensures EvidencesReasons(c, r, os, ctx, now) == [] <==> forall o | o in os :: EvidenceHolds(c, r, o, ctx, now)
  {
    hide EvidenceReasons, EvidenceHolds;
    if os != [] {
      var n := |os| - 1;
      EvidencesPart(c, r, os[..n], ctx, now);
      EvidencePart(c, r, os[n], ctx, now);
      assert os == os[..n] + [os[n]];
    }
  }

  // ---- main results --------------------------------------------------------

  /** No reasons, a binding, and the declarative predicate are one condition. */
  lemma ResolveDecides(hash: Hash, c: Config, r: Resolver, p: Proposal, now: Time)
    ensures Resolve(hash, c, r, p, now).reasons == [] <==> Resolve(hash, c, r, p, now).binding.Some?
    ensures Resolve(hash, c, r, p, now).reasons == [] <==> Authorized(hash, c, r, p, now)
  {
    hide ManifestReasons, ContextReasons, MappingReasons, ReviewReasons, GrantedReasons, ResolveReasons, Report;
    hide ContextFits, Declares, MappingHolds, Reviewed, GrantAuthorizes, NamesAuthority, BindingOf;
    ResolveParts(hash, c, r, p, now);
    ManifestPart(hash, c.manifest, p, now);
    if ContextOf(r, p).Some? {
      var ctx := ContextOf(r, p).value;
      if ManifestReasons(hash, c.manifest, p, now) == [] {
        ContextPart(c.manifest, ctx, p);
      }
      if ContextFits(c.manifest, ctx, p) {
        FittingNames(c.manifest, ctx, p);
      }
      MappingPart(hash, r, ctx);
      ReviewPart(c.manifest, r, ctx, p);
      if ctx.grant.Some? {
        GrantedPart(hash, c, r, ctx.grant.value, ctx, p, now);
      }
    }
  }

  lemma GrantedPart(hash: Hash, c: Config, r: Resolver, g: Grant, ctx: Context, p: Proposal, now: Time)
    ensures GrantedReasons(hash, c, r, g, ctx, p, now) == [] <==> GrantAuthorizes(hash, c, r, ctx, g, p, now)
  {
    GrantedParts(hash, c, r, g, ctx, p, now);
    GrantPart(hash, c, r, g, ctx, p, now);
    ConflictPart(c, r, ctx, now);
    PoliciesPart(c, r, g.policyVersions, ctx, p, now);
    ApprovalsPart(c, r, ctx.requirement.approvals, g, ctx, p, ProposalCommitment(hash, p), now);
    EvidencesPart(c, r, ctx.requirement.evidence, ctx, now);
  }

  /** What a permission allows includes all that the proposal asks. */
  ghost predicate Encloses(perm: Permission, a: Action, p: Proposal) {
    && perm.action == a.actionName && p.target in perm.targets
    && (forall scope | scope in p.requestedPermissions :: scope in perm.dataScopes)
    && p.amount <= perm.maxAmount && p.unit == perm.unit && p.effects <= perm.maxEffects
  }

  lemma PermitsEncloses(perm: Permission, a: Action, p: Proposal)
    ensures Permits(perm, a, p) <==> Encloses(perm, a, p)
  {}

  /** The proposal lies inside the manifest, requirement and grant envelopes, and the cap
      bound for execution admits it and exceeds none of the three declared limits. */
  lemma AuthorizedIsInEveryEnvelope(hash: Hash, c: Config, r: Resolver, p: Proposal, now: Time)
    requires Resolve(hash, c, r, p, now).binding.Some?
    ensures Resolvable(c, r, p)
    ensures
      var b := Resolve(hash, c, r, p, now).binding.value;
      var ctx := ContextOf(r, p).value;
      var a := FindAction(c.manifest.actions, p.actionId).value;
      var fromRequirement := MatchingPermission(c.manifest, ctx.requirement.permissions, p).value;
      var fromGrant := MatchingPermission(c.manifest, ctx.grant.value.permissions, p).value;
      && Declares(c.manifest, a, p)
      && fromRequirement in ctx.requirement.permissions && fromGrant in ctx.grant.value.permissions
      && Encloses(fromRequirement, a, p) && Encloses(fromGrant, a, p)
      && p.effects <= b.effectiveMaxEffects
      && b.effectiveMaxEffects <= fromRequirement.maxEffects
      && b.effectiveMaxEffects <= fromGrant.maxEffects
      && (a.effectLimits.Some? && a.effectLimits.value.maxEffects.Some? ==>
            b.effectiveMaxEffects <= a.effectLimits.value.maxEffects.value)
  {
    ResolveDecides(hash, c, r, p, now);
    NoReasonMeansResolvable(hash, c, r, p, now);
    CapWithinLimits(hash, c, r, p);
    hide Resolve, Encloses, Declares;
    var a := FindAction(c.manifest.actions, p.actionId).value;
    var ctx := ContextOf(r, p).value;
    PermitsEncloses(MatchingPermission(c.manifest, ctx.requirement.permissions, p).value, a, p);
    PermitsEncloses(MatchingPermission(c.manifest, ctx.grant.value.permissions, p).value, a, p);
  }

  lemma CapWithinLimits(hash: Hash, c: Config, r: Resolver, p: Proposal)
    requires Resolvable(c, r, p)
    requires Declares(c.manifest, FindAction(c.manifest.actions, p.actionId).value, p)
    ensures
      var cap := BindingOf(hash, c, r, p).effectiveMaxEffects;
      var ctx := ContextOf(r, p).value;
      var a := FindAction(c.manifest.actions, p.actionId).value;
      && p.effects <= cap
      && cap <= MatchingPermission(c.manifest, ctx.requirement.permissions, p).value.maxEffects
      && cap <= MatchingPermission(c.manifest, ctx.grant.value.permissions, p).value.maxEffects
      && (a.effectLimits.Some? && a.effectLimits.value.maxEffects.Some? ==>
            cap <= a.effectLimits.value.maxEffects.value)
  {
    var ctx := ContextOf(r, p).value;
    var a := FindAction(c.manifest.actions, p.actionId).value;
    assert Permits(MatchingPermission(c.manifest, ctx.requirement.permissions, p).value, a, p);
    assert Permits(MatchingPermission(c.manifest, ctx.grant.value.permissions, p).value, a, p);
    assert p.effects <= ManifestCap(a, p);
  }

  /** The binding records the operation it was resolved for. */
  lemma BindingRecordsProposal(hash: Hash, c: Config, r: Resolver, p: Proposal, now: Time)
    requires Resolve(hash, c, r, p, now).binding.Some?
    ensures
      var b := Resolve(hash, c, r, p, now).binding.value;
      && b.proposalCommitment == ProposalCommitment(hash, p)
      && b.payloadCommitment == p.payloadCommitment == Commitment(hash, Obj(p.payload))
      && b.target == p.target && b.amount == p.amount && b.unit == p.unit && b.effects == p.effects
      && b.adapterId == p.adapterId && b.actionId == p.actionId && b.tenantId == p.tenantId
      && ContextOf(r, p).Some? && ContextOf(r, p).value.grant.Some?
      && b.grantId == ContextOf(r, p).value.grant.value.grantId
      && b.grantRevision == ContextOf(r, p).value.grant.value.revision
  {
    ResolveDecides(hash, c, r, p, now);
    NoReasonMeansResolvable(hash, c, r, p, now);
  }

  /** The authority a binding stands on, in the terms it records. */
  lemma BindingStandsOn(hash: Hash, c: Config, r: Resolver, p: Proposal, now: Time, b: Binding)
    requires Resolve(hash, c, r, p, now).binding == Some(b)
    ensures ContextOf(r, p).Some?
    ensures
      var ctx := ContextOf(r, p).value;
      && ctx.grant.Some? && GrantAuthorizes(hash, c, r, ctx, ctx.grant.value, p, now)
      && ctx.institution.institutionId in r.roleMappings
      && b.proposalCommitment == ProposalCommitment(hash, p)
      && b.grantId == ctx.grant.value.grantId && b.grantRevision == ctx.grant.value.revision
      && b.policyVersions == ctx.grant.value.policyVersions
      && b.roleMappingVersion == r.roleMappings[ctx.institution.institutionId].version
      && b.roleMappingDigest == r.roleMappings[ctx.institution.institutionId].digest
  {
    ResolveDecides(hash, c, r, p, now);
    NoReasonMeansResolvable(hash, c, r, p, now);
  }

  lemma EvidenceBetween(c: Config, r: Resolver, o: Obligation, ctx: Context, t1: Time, t2: Time, t3: Time)
    requires t1 <= t2 <= t3
    requires EvidenceHolds(c, r, o, ctx, t1) && EvidenceHolds(c, r, o, ctx, t3)
    ensures EvidenceHolds(c, r, o, ctx, t2)
  {}

  lemma GrantAuthorizesBetween(hash: Hash, c: Config, r: Resolver, ctx: Context, g: Grant, p: Proposal,
                               t1: Time, t2: Time, t3: Time)
    requires t1 <= t2 <= t3
    requires GrantAuthorizes(hash, c, r, ctx, g, p, t1) && GrantAuthorizes(hash, c, r, ctx, g, p, t3)
    ensures GrantAuthorizes(hash, c, r, ctx, g, p, t2)
  {
    forall o | o in ctx.requirement.evidence ensures EvidenceHolds(c, r, o, ctx, t2) {
      EvidenceBetween(c, r, o, ctx, t1, t2, t3);
    }
    forall item | item in g.policyVersions ensures PolicyHolds(c, r, item, ctx, p, t2) {
      assert PolicyHolds(c, r, item, ctx, p, t1) && PolicyHolds(c, r, item, ctx, p, t3);
    }
    var commitment := ProposalCommitment(hash, p);
    forall req | req in ctx.requirement.approvals
      ensures RequirementApproved(c, r, req, g, ctx, p, commitment, t2)
    {
      assert RequirementApproved(c, r, req, g, ctx, p, commitment, t1);
      assert RequirementApproved(c, r, req, g, ctx, p, commitment, t3);
      forall ref | ref in g.approvalRefs && RefMatches(r, ref, req.roleId, ctx, p)
        ensures Approves(c, r.approvals[ref], req, g, p, commitment, t2)
      {
        assert Approves(c, r.approvals[ref], req, g, p, commitment, t1);
        assert Approves(c, r.approvals[ref], req, g, p, commitment, t3);
      }
    }
  }

  /** The instants at which one resolver state authorizes a proposal form an interval,
      and the binding is the same throughout it. */
  lemma AuthorizationIsAnInterval(hash: Hash, c: Config, r: Resolver, p: Proposal, t1: Time, t2: Time, t3: Time)
    requires t1 <= t2 <= t3
    requires Resolve(hash, c, r, p, t1).binding.Some? && Resolve(hash, c, r, p, t3).binding.Some?
    ensures Resolve(hash, c, r, p, t2) == Resolve(hash, c, r, p, t1) == Resolve(hash, c, r, p, t3)
  {
    ResolveDecides(hash, c, r, p, t1);
    ResolveDecides(hash, c, r, p, t2);
    ResolveDecides(hash, c, r, p, t3);
    var ctx := ContextOf(r, p).value;
    GrantAuthorizesBetween(hash, c, r, ctx, ctx.grant.value, p, t1, t2, t3);
  }
}
