/** Authorization in the records' own terms: what each field must say for a proposal to be bound, and
    what every field of the binding then holds. No helper of the resolution stands in between. */
module AuthorizationTerms {
  import opened Text
  import opened CanonicalJson
  import opened Commitments
  import opened Authority
  import opened Reasons
  import opened Resolution
  import opened ResolutionLaws

  // ---- the first entry of a list -------------------------------------------

  ghost predicate IsFirst<T(!new)>(xs: seq<T>, holds: T -> bool, x: T) {
    exists i | 0 <= i < |xs| :: xs[i] == x && holds(x) && forall j | 0 <= j < i :: !holds(xs[j])
  }

  lemma FirstStep<T(!new)>(xs: seq<T>, holds: T -> bool, x: T)
    requires xs != []
    ensures IsFirst(xs, holds, x) <==> if holds(xs[0]) then x == xs[0] else IsFirst(xs[1..], holds, x)
  {
    if holds(xs[0]) {
      if x == xs[0] { assert xs[0] == x; }
    } else {
      if IsFirst(xs, holds, x) {
        var i :| 0 <= i < |xs| && xs[i] == x && holds(x) && forall j | 0 <= j < i :: !holds(xs[j]);
        assert xs[1..][i - 1] == x;
        assert forall j | 0 <= j < i - 1 :: xs[1..][j] == xs[j + 1];
      }
      if IsFirst(xs[1..], holds, x) {
        var i :| 0 <= i < |xs[1..]| && xs[1..][i] == x && holds(x) && forall j | 0 <= j < i :: !holds(xs[1..][j]);
        assert xs[i + 1] == x;
        assert forall j | 1 <= j < i + 1 :: xs[j] == xs[1..][j - 1];
      }
    }
  }

  ghost function WithActionId(id: string): Action -> bool {
    (x: Action) => x.actionId == id
  }

  ghost function WithToolName(name: string): Tool -> bool {
    (x: Tool) => x.toolName == name
  }

  ghost function WithAlias(name: string): Alias -> bool {
    (x: Alias) => x.name == name
  }

  ghost predicate IsAction(m: Manifest, p: Proposal, a: Action) {
    IsFirst(m.actions, WithActionId(p.actionId), a)
  }

  lemma {:induction false} ActionFound(actions: seq<Action>, id: string, a: Action)
    ensures FindAction(actions, id) == Some(a) <==> IsFirst(actions, WithActionId(id), a)
  {
    hide IsFirst;
    if actions == [] {
      NothingFirst(WithActionId(id), a);
    } else {
      FirstStep(actions, WithActionId(id), a);
      ActionFound(actions[1..], id, a);
    }
  }

  lemma {:induction false} ToolFound(tools: seq<Tool>, name: string, t: Tool)
    ensures FindTool(tools, name) == Some(t) <==> IsFirst(tools, WithToolName(name), t)
  {
    hide IsFirst;
    if tools == [] {
      NothingFirst(WithToolName(name), t);
    } else {
      FirstStep(tools, WithToolName(name), t);
      ToolFound(tools[1..], name, t);
    }
  }

  lemma {:induction false} AliasFound(aliases: seq<Alias>, name: string, role: string)
    ensures FindAlias(aliases, name) == [role] <==>
      exists a: Alias :: IsFirst(aliases, WithAlias(name), a) && a.roles == [role]
  {
    hide IsFirst;
    var named := WithAlias(name);
    if aliases == [] {
      forall a: Alias ensures !IsFirst(aliases, named, a) { NothingFirst(named, a); }
    } else {
      forall a: Alias
        ensures IsFirst(aliases, named, a) <==>
          if aliases[0].name == name then a == aliases[0] else IsFirst(aliases[1..], named, a)
      {
        FirstStep(aliases, named, a);
      }
      AliasFound(aliases[1..], name, role);
    }
  }

  lemma NothingFirst<T(!new)>(holds: T -> bool, x: T)
    ensures !IsFirst([], holds, x)
  {}

  // ---- the manifest --------------------------------------------------------

  ghost predicate PayloadTerms(a: Action, p: Proposal) {
    && a.payloadPolicy.Some?
    && var pp := a.payloadPolicy.value;
    && (forall k | k in pp.required :: exists f | f in p.payload :: f.key == k)
    && (forall f | f in p.payload :: f.key !in pp.forbidden && (f.key in pp.required || f.key in pp.optional))
  }

  /** Effect limits that are there bound the count, none declared allowing none, the amount and the unit. */
  ghost predicate LimitTerms(a: Action, p: Proposal) {
    a.effectLimits.Some? ==>
      var l := a.effectLimits.value;
      && (if l.maxEffects.Some? then p.effects <= l.maxEffects.value else p.effects == 0)
      && (l.maxAmount.Some? ==> p.amount <= l.maxAmount.value)
      && (l.unit.Some? ==> p.unit == l.unit.value)
  }

  ghost predicate ManifestTerms(hash: Hash, m: Manifest, a: Action, p: Proposal, now: Time) {
    && p.manifestVersion == "1.1" && m.manifestVersion == Some("1.1") && m.manifestId == Some(p.manifestId)
    && p.manifestDigest == Commitment(hash, m.document) && p.payloadCommitment == Commitment(hash, Obj(p.payload))
    && (exists t: Tool ::
          IsFirst(m.tools, WithToolName(a.toolName), t) && t.adapterId == p.adapterId)
    && a.targetPolicy.Some? && !a.targetPolicy.value.allowAnyTarget && p.target in a.targetPolicy.value.allowedTargets
    && PayloadTerms(a, p) && LimitTerms(a, p)
    && (forall s | s in a.authorityRequired && s.required :: s.scope in p.requestedPermissions)
    && (p.notBefore.Some? ==> p.notBefore.value <= now) && (p.expiresAt.Some? ==> now < p.expiresAt.value)
  }

  // ---- the context ---------------------------------------------------------

  ghost predicate ContextTerms(a: Action, ctx: Context, p: Proposal) {
    && (p.tenantId.Some? ==> ctx.tenantId == p.tenantId)
    && ctx.schemaVersion == "0.1.0" && ctx.interfaceStatus == "proposed_pending_governor_review"
    && p.requirementId == Some(ctx.requirement.requirementId)
    && ctx.principal == p.principal && ctx.actingIdentity == p.actor
    && a.authority.Some?
    && var d := a.authority.value;
    && d.profileRef == p.authorityContextRef && d.requirementId == p.requirementId
    && d.institutionId == Some(ctx.institution.institutionId)
    && d.authorityDomain == Some(ctx.institution.authorityDomain) && d.consequenceTier == ctx.requirement.tier
  }

  ghost predicate MappingTerms(hash: Hash, r: Resolver, ctx: Context) {
    && ctx.institution.institutionId in r.roleMappings
    && var mp := r.roleMappings[ctx.institution.institutionId];
    && mp.institutionId == ctx.institution.institutionId && mp.digest == MappingDigest(hash, mp)
  }

  /** The first alias of that name stands for this role and no other. */
  ghost predicate Stands(mp: RoleMapping, declared: string, role: string) {
    exists x: Alias :: IsFirst(mp.aliases, WithAlias(declared), x) && x.roles == [role]
  }

  ghost predicate CallsForReview(a: Action) {
    a.review.Some? && (a.review.value.mode == "human_review" || a.review.value.mode == "approval_required")
  }

  ghost predicate Fills(mp: RoleMapping, declared: string, q: ApprovalRequirement) {
    "urn:" <= q.roleId && (if "urn:" <= declared then q.roleId == declared else Stands(mp, declared, q.roleId))
  }

  /** A review the action calls for is by a required URN role, named outright or by its only alias. */
  ghost predicate ReviewTerms(a: Action, r: Resolver, ctx: Context)
    requires ctx.institution.institutionId in r.roleMappings
  {
    CallsForReview(a) ==>
      && a.review.value.reviewerRole.Some?
      && exists q | q in ctx.requirement.approvals ::
           Fills(r.roleMappings[ctx.institution.institutionId], a.review.value.reviewerRole.value, q)
  }

  // ---- the grant -----------------------------------------------------------

  ghost predicate IdentityTerms(c: Config, r: Resolver, ctx: Context, g: Grant, now: Time) {
    && ctx.actingIdentity in r.identities
    && var id := r.identities[ctx.actingIdentity];
    && id.identity == ctx.actingIdentity && id.principal == ctx.principal && id.authenticated && id.delegationValid
    && id.institutionId == ctx.institution.institutionId && id.authorityDomain == ctx.institution.authorityDomain
    && id.observedAt <= now + c.clockTolerance && now - id.observedAt <= c.identityMaxAge
    && (g.parentGrantId.Some? ==> id.chain != [])
  }

  ghost predicate MandateTerms(c: Config, r: Resolver, ctx: Context, g: Grant, now: Time) {
    && g.issuer + "|" + g.issuerRole in r.mandates
    && var md := r.mandates[g.issuer + "|" + g.issuerRole];
    && md.issuer == g.issuer && md.issuerRole == g.issuerRole && md.issuanceRecordRef == g.issuanceRecordRef
    && md.institutionId == ctx.institution.institutionId && md.authorityDomain == ctx.institution.authorityDomain
    && md.mandateValid && md.observedAt <= now + c.clockTolerance && now - md.observedAt <= c.mandateMaxAge
  }

  ghost predicate GrantTerms(c: Config, r: Resolver, ctx: Context, g: Grant, p: Proposal, now: Time) {
    && g.grantId in r.grants
    && var s := r.grants[g.grantId];
    && s.grantId == g.grantId && s.statusRef == g.statusRef && s.revision == g.revision
    && s.status == GrantState.Active && s.authorityBasisRef == ctx.institution.authorityBasisRef
    && s.institutionId == ctx.institution.institutionId && s.authorityDomain == ctx.institution.authorityDomain
    && s.observedAt <= now + c.clockTolerance && now - s.observedAt <= c.statusMaxAge
    && (p.tenantId.Some? ==> s.tenantId == p.tenantId && g.tenantId == p.tenantId)
    && g.requirementId == ctx.requirement.requirementId
    && g.grantee == ctx.principal && g.actingIdentity == ctx.actingIdentity
    && g.notBefore <= now && now < g.expiresAt
  }

  ghost function ThatCover(a: Action, p: Proposal): Permission -> bool {
    (x: Permission) => Encloses(x, a, p)
  }

  lemma {:induction false} PermissionFound(perms: seq<Permission>, a: Action, p: Proposal, perm: Permission)
    ensures FirstPermission(perms, a, p) == Some(perm) <==>
      IsFirst(perms, ThatCover(a, p), perm)
  {
    hide IsFirst, Permits, Encloses;
    if perms == [] {
      NothingFirst(ThatCover(a, p), perm);
    } else {
      PermitsEncloses(perms[0], a, p);
      FirstStep(perms, ThatCover(a, p), perm);
      PermissionFound(perms[1..], a, p, perm);
    }
  }

  /** Some permission of the list covers the proposal. */
  ghost predicate Covered(perms: seq<Permission>, a: Action, p: Proposal) {
    exists perm | perm in perms :: Encloses(perm, a, p)
  }

  /** A permission is found exactly when the action is known and some permission has all six
      conditions; then it is the first that has. */
  ghost predicate FoundRightly(m: Manifest, perms: seq<Permission>, p: Proposal, found: Option<Permission>) {
    && (found.Some? <==> exists a: Action :: IsAction(m, p, a) && Covered(perms, a, p))
    && (found.Some? ==> exists a: Action :: IsAction(m, p, a) && IsFirst(perms, ThatCover(a, p), found.value))
  }

  lemma MatchingIsFirst(m: Manifest, perms: seq<Permission>, p: Proposal)
    ensures FoundRightly(m, perms, p, MatchingPermission(m, perms, p))
  {
    hide IsFirst, FindAction, FirstPermission, Encloses, Permits;
    var found := MatchingPermission(m, perms, p);
    forall a: Action ensures IsAction(m, p, a) <==> FindAction(m.actions, p.actionId) == Some(a) {
      ActionFound(m.actions, p.actionId, a);
    }
    if FindAction(m.actions, p.actionId).Some? {
      var a := FindAction(m.actions, p.actionId).value;
      forall perm ensures Permits(perm, a, p) <==> Encloses(perm, a, p) { PermitsEncloses(perm, a, p); }
      if found.Some? {
        assert found.value in perms;
        PermissionFound(perms, a, p, found.value);
      }
    }
  }

  ghost predicate ConflictTerms(c: Config, r: Resolver, ctx: Context, now: Time) {
    && ctx.requirement.requirementId in r.conflicts
    && var s := r.conflicts[ctx.requirement.requirementId];
    && s.requirementId == ctx.requirement.requirementId && s.state == ConflictState.Clear
    && multiset(s.conflictRefs) == multiset(ctx.precedenceRefs)
    && s.institutionId == ctx.institution.institutionId && s.authorityDomain == ctx.institution.authorityDomain
    && s.observedAt <= now + c.clockTolerance && now - s.observedAt <= c.statusMaxAge
  }

  ghost predicate PolicyTerms(c: Config, r: Resolver, item: PolicyRef, ctx: Context, p: Proposal, now: Time) {
    && item.ref in r.policies
    && var s := r.policies[item.ref];
    && s.ref == item.ref && s.version == item.version && s.status == PolicyState.Active
    && s.institutionId == ctx.institution.institutionId && s.authorityDomain == ctx.institution.authorityDomain
    && (p.tenantId.Some? ==> s.tenantId == p.tenantId)
    && s.observedAt <= now + c.clockTolerance && now - s.observedAt <= c.statusMaxAge
  }

  /** An approval on record under one of the grant's references belongs to this context and tenant. */
  ghost predicate OnRecord(r: Resolver, ref: string, ctx: Context, p: Proposal) {
    ref in r.approvals ==>
      var a := r.approvals[ref];
      && a.approvalRef == ref
      && a.institutionId == ctx.institution.institutionId && a.authorityDomain == ctx.institution.authorityDomain
      && (p.tenantId.Some? ==> a.tenantId == p.tenantId)
  }

  ghost predicate ApprovalTerms(c: Config, a: ApprovalStatus, q: ApprovalRequirement, g: Grant, p: Proposal,
                                commitment: string, now: Time) {
    && a.status == ApprovalState.Active && a.observedAt <= now + c.clockTolerance
    && now - a.observedAt <= c.approvalMaxAge
    && a.grantId == g.grantId && a.grantRevision == g.revision && a.proposalCommitment == commitment
    && a.policyVersions == g.policyVersions && (q.independentOfActor ==> a.approver != p.actor)
  }

  /** All references belong, some fill the role, and whichever fill it approve. */
  ghost predicate RoleTerms(hash: Hash, c: Config, r: Resolver, q: ApprovalRequirement, ctx: Context, g: Grant,
                            p: Proposal, now: Time) {
    && (forall ref | ref in g.approvalRefs :: OnRecord(r, ref, ctx, p))
    && (exists ref | ref in g.approvalRefs :: ref in r.approvals && r.approvals[ref].roleId == q.roleId)
    && (forall ref | ref in g.approvalRefs && ref in r.approvals && r.approvals[ref].roleId == q.roleId ::
          ApprovalTerms(c, r.approvals[ref], q, g, p, ProposalCommitment(hash, p), now))
  }

  /** Evidence on record is of this obligation; it is there, current and fresh where that is required. */
  ghost predicate EvidenceTerms(c: Config, r: Resolver, o: Obligation, ctx: Context, now: Time) {
    var required := o.required && o.kind == "authorization";
    && (o.obligationId in r.evidence ==>
          var e := r.evidence[o.obligationId];
          && e.obligationId == o.obligationId && e.sourceRef == o.sourceRef
          && e.institutionId == ctx.institution.institutionId && e.authorityDomain == ctx.institution.authorityDomain)
    && (required || o.unknownBehavior == "hold_effect" ==>
          && o.obligationId in r.evidence
          && var e := r.evidence[o.obligationId];
          && e.observedAt <= now + c.clockTolerance && now - e.observedAt <= o.maxAge
          && (required ==> e.state == EvidenceState.Current))
  }

  // ---- authorization -------------------------------------------------------

  ghost predicate GrantedTerms(hash: Hash, c: Config, r: Resolver, a: Action, ctx: Context, g: Grant, p: Proposal,
                               now: Time) {
    && IdentityTerms(c, r, ctx, g, now) && MandateTerms(c, r, ctx, g, now) && GrantTerms(c, r, ctx, g, p, now)
    && Covered(ctx.requirement.permissions, a, p) && Covered(g.permissions, a, p) && ConflictTerms(c, r, ctx, now)
    && (forall item | item in g.policyVersions :: PolicyTerms(c, r, item, ctx, p, now))
    && (forall q | q in ctx.requirement.approvals :: RoleTerms(hash, c, r, q, ctx, g, p, now))
    && (forall o | o in ctx.requirement.evidence :: EvidenceTerms(c, r, o, ctx, now))
  }

  /** The context the proposal refers to; no reference reads as the empty one. */
  ghost predicate IsContext(r: Resolver, p: Proposal, ctx: Context) {
    var ref := if p.authorityContextRef.Some? then p.authorityContextRef.value else "";
    ref in r.contexts && r.contexts[ref] == ctx
  }

  ghost predicate Terms(hash: Hash, c: Config, r: Resolver, a: Action, ctx: Context, g: Grant, p: Proposal, now: Time) {
    && IsAction(c.manifest, p, a) && ManifestTerms(hash, c.manifest, a, p, now)
    && IsContext(r, p, ctx) && ContextTerms(a, ctx, p)
    && MappingTerms(hash, r, ctx) && ReviewTerms(a, r, ctx)
    && ctx.grant == Some(g) && GrantedTerms(hash, c, r, a, ctx, g, p, now)
  }

  lemma GrantedAre(hash: Hash, c: Config, r: Resolver, a: Action, ctx: Context, g: Grant, p: Proposal, now: Time)
    requires FindAction(c.manifest.actions, p.actionId) == Some(a)
    ensures GrantAuthorizes(hash, c, r, ctx, g, p, now) <==> GrantedTerms(hash, c, r, a, ctx, g, p, now)
  {
    hide ProposalCommitment, FindAction, RequirementApproved, RoleTerms, PolicyHolds, PolicyTerms, EvidenceHolds;
    hide EvidenceTerms, InScope, Covered;
    ScopeIs(c.manifest, ctx.requirement.permissions, a, p);
    ScopeIs(c.manifest, g.permissions, a, p);
    forall item ensures PolicyHolds(c, r, item, ctx, p, now) <==> PolicyTerms(c, r, item, ctx, p, now) {
      PolicyIs(c, r, item, ctx, p, now);
    }
    forall q ensures RequirementApproved(c, r, q, g, ctx, p, ProposalCommitment(hash, p), now)
                <==> RoleTerms(hash, c, r, q, ctx, g, p, now) {
      RoleIs(hash, c, r, q, ctx, g, p, now);
    }
    forall o ensures EvidenceHolds(c, r, o, ctx, now) <==> EvidenceTerms(c, r, o, ctx, now) {
      EvidenceIs(c, r, o, ctx, now);
    }
  }

  lemma ScopeIs(m: Manifest, perms: seq<Permission>, a: Action, p: Proposal)
    requires FindAction(m.actions, p.actionId) == Some(a)
    ensures InScope(m, perms, p) <==> Covered(perms, a, p)
  {
    hide Permits, Encloses;
    forall perm ensures Permits(perm, a, p) <==> Encloses(perm, a, p) { PermitsEncloses(perm, a, p); }
  }

  lemma PolicyIs(c: Config, r: Resolver, item: PolicyRef, ctx: Context, p: Proposal, now: Time)
    ensures PolicyHolds(c, r, item, ctx, p, now) <==> PolicyTerms(c, r, item, ctx, p, now)
  {}

  lemma RoleIs(hash: Hash, c: Config, r: Resolver, q: ApprovalRequirement, ctx: Context, g: Grant, p: Proposal,
               now: Time)
    ensures RequirementApproved(c, r, q, g, ctx, p, ProposalCommitment(hash, p), now)
       <==> RoleTerms(hash, c, r, q, ctx, g, p, now)
  {
    hide ProposalCommitment;
    forall ref | ref in g.approvalRefs && (forall x | x in g.approvalRefs :: OnRecord(r, x, ctx, p))
      ensures RefMatches(r, ref, q.roleId, ctx, p) <==> ref in r.approvals && r.approvals[ref].roleId == q.roleId
    {
      assert OnRecord(r, ref, ctx, p);
    }
  }

  lemma EvidenceIs(c: Config, r: Resolver, o: Obligation, ctx: Context, now: Time)
    ensures EvidenceHolds(c, r, o, ctx, now) <==> EvidenceTerms(c, r, o, ctx, now)
  {}

  lemma ManifestIs(hash: Hash, m: Manifest, a: Action, p: Proposal, now: Time)
    requires FindAction(m.actions, p.actionId) == Some(a)
    ensures ManifestTerms(hash, m, a, p, now) <==>
      && ManifestAdmits(hash, m, p)
      && (p.notBefore.Some? ==> p.notBefore.value <= now) && (p.expiresAt.Some? ==> now < p.expiresAt.value)
  {
    hide Commitment, IsFirst, FindAction, FindTool;
    forall t: Tool
      ensures FindTool(m.tools, a.toolName) == Some(t) <==> IsFirst(m.tools, WithToolName(a.toolName), t)
    {
      ToolFound(m.tools, a.toolName, t);
    }
  }

  lemma ReviewIs(hash: Hash, m: Manifest, r: Resolver, a: Action, ctx: Context, p: Proposal)
    requires FindAction(m.actions, p.actionId) == Some(a) && MappingTerms(hash, r, ctx)
    ensures Reviewed(m, r, ctx, p) <==> ReviewTerms(a, r, ctx)
  {
    hide FindAction, FindAlias, MappingDigest, RolesOf, Stands;
    RolesAre(ctx.requirement.approvals);
    var mp := r.roleMappings[ctx.institution.institutionId];
    if a.review.Some? && a.review.value.reviewerRole.Some? {
      var declared := a.review.value.reviewerRole.value;
      forall role: string
        ensures a.review.value.reviewerRole == Some(role)
             || StandsFor(Some(declared), role, Some(mp), ctx.institution.institutionId)
           <==> declared == role || (!("urn:" <= declared) && Stands(mp, declared, role))
      {
        StandsIs(mp, declared, role);
      }
      if Reviewed(m, r, ctx, p) && CallsForReview(a) {
        var role: string :| role in RolesOf(ctx.requirement.approvals) && "urn:" <= role
          && (Some(declared) == Some(role) || StandsFor(Some(declared), role, Some(mp), ctx.institution.institutionId));
        var q :| q in ctx.requirement.approvals && q.roleId == role;
        assert Fills(mp, declared, q);
      }
      if ReviewTerms(a, r, ctx) && CallsForReview(a) {
        var q :| q in ctx.requirement.approvals && Fills(mp, declared, q);
        assert q.roleId in RolesOf(ctx.requirement.approvals);
      }
    }
  }

  lemma StandsIs(mp: RoleMapping, declared: string, role: string)
    ensures FindAlias(mp.aliases, declared) == [role] <==> Stands(mp, declared, role)
  {
    AliasFound(mp.aliases, declared, role);
  }

  lemma RolesAre(approvals: seq<ApprovalRequirement>)
    ensures forall role :: role in RolesOf(approvals) <==> exists q | q in approvals :: q.roleId == role
  {
    forall role ensures role in RolesOf(approvals) <==> exists q | q in approvals :: q.roleId == role {
      if role in RolesOf(approvals) {
        var i :| 0 <= i < |approvals| && RolesOf(approvals)[i] == role;
        assert approvals[i] in approvals;
      }
      if q :| q in approvals && q.roleId == role {
        var i :| 0 <= i < |approvals| && approvals[i] == q;
        assert RolesOf(approvals)[i] == role;
      }
    }
  }

  /** A proposal is bound exactly when action, context and grant are those it names and every term
      holds, field by field. */
  lemma BoundExactlyOnTerms(hash: Hash, c: Config, r: Resolver, p: Proposal, now: Time)
    ensures Resolve(hash, c, r, p, now).binding.Some? <==>
      exists a: Action, ctx: Context, g: Grant :: Terms(hash, c, r, a, ctx, g, p, now)
  {
    hide Resolve, ManifestTerms, ContextTerms, MappingTerms, ReviewTerms, GrantedTerms, IsFirst, FindAction;
    hide ManifestAdmits, ContextFits, MappingHolds, Reviewed, GrantAuthorizes;
    ResolveDecides(hash, c, r, p, now);
    forall a: Action ensures IsAction(c.manifest, p, a) <==> FindAction(c.manifest.actions, p.actionId) == Some(a) {
      ActionFound(c.manifest.actions, p.actionId, a);
    }
    forall a: Action, ctx: Context, g: Grant
      | FindAction(c.manifest.actions, p.actionId) == Some(a) && IsContext(r, p, ctx) && ctx.grant == Some(g)
      ensures Terms(hash, c, r, a, ctx, g, p, now) <==> ResolutionLaws.Authorized(hash, c, r, p, now)
    {
      TermsAre(hash, c, r, a, ctx, g, p, now);
    }
    if ResolutionLaws.Authorized(hash, c, r, p, now) {
      ActionIsThere(hash, c.manifest, p);
      var a, ctx := FindAction(c.manifest.actions, p.actionId).value, ContextOf(r, p).value;
      assert Terms(hash, c, r, a, ctx, ctx.grant.value, p, now);
    }
  }

  lemma ActionIsThere(hash: Hash, m: Manifest, p: Proposal)
    requires ManifestAdmits(hash, m, p)
    ensures FindAction(m.actions, p.actionId).Some?
  {}

  lemma TermsAre(hash: Hash, c: Config, r: Resolver, a: Action, ctx: Context, g: Grant, p: Proposal, now: Time)
    requires FindAction(c.manifest.actions, p.actionId) == Some(a) && IsContext(r, p, ctx) && ctx.grant == Some(g)
    ensures Terms(hash, c, r, a, ctx, g, p, now) <==> ResolutionLaws.Authorized(hash, c, r, p, now)
  {
    hide ManifestTerms, ManifestAdmits, GrantedTerms, GrantAuthorizes, ReviewTerms, Reviewed, IsFirst, FindAction;
    hide MappingDigest;
    ActionFound(c.manifest.actions, p.actionId, a);
    ManifestIs(hash, c.manifest, a, p, now);
    if MappingTerms(hash, r, ctx) { ReviewIs(hash, c.manifest, r, a, ctx, p); }
    GrantedAre(hash, c, r, a, ctx, g, p, now);
  }

  /** Nothing is known of an actor or issuer the source has no record of: it is neither authenticated
      nor mandated, and belongs to the institution that stands for an unknown one. */
  lemma UnknownSubjects(c: Config, r: Resolver, ctx: Context, g: Grant, now: Time)
    ensures ctx.actingIdentity !in r.identities ==>
      var found := IdentityReasons(c, r.Identity(ctx.actingIdentity, ctx.principal), ctx, now);
      && IdentityOrDelegationInvalid in found
      && (IdentityBindingMismatch in found <==> !IsUnknown(ctx.institution))
    ensures g.issuer + "|" + g.issuerRole !in r.mandates ==>
      var found := MandateReasons(c, r.Mandate(g.issuer, g.issuerRole), g, ctx, now);
      && MandateInvalid in found
      && (MandateBindingMismatch in found <==>
            !IsUnknown(ctx.institution) || g.issuanceRecordRef != "urn:cognous:issuance:unknown")
  {}

  ghost predicate IsUnknown(i: Institution) {
    i.institutionId == "urn:cognous:institution:unknown" && i.authorityDomain == "unknown"
  }

  // ---- the binding ---------------------------------------------------------

  /** Every field of a binding, and the cap: the least of what the first covering permission of the
      requirement and of the grant allow and of the action's limit, or failing one the proposal's count. */
  ghost predicate BindingSays(hash: Hash, r: Resolver, a: Action, ctx: Context, g: Grant, p: Proposal, b: Binding) {
    && b.proposalCommitment == ProposalCommitment(hash, p)
    && b.manifestId == p.manifestId && b.manifestVersion == p.manifestVersion && b.manifestDigest == p.manifestDigest
    && b.actor == p.actor && b.principal == p.principal && b.actionId == p.actionId && b.adapterId == p.adapterId
    && b.target == p.target && b.payloadCommitment == p.payloadCommitment
    && b.requestedPermissions == p.requestedPermissions && b.amount == p.amount && b.unit == p.unit
    && b.effects == p.effects && b.tenantId == p.tenantId
    && b.authorityContextId == ctx.contextId && b.authorityContextVersion == ctx.schemaVersion
    && b.authorityContextStatus == ctx.interfaceStatus
    && p.requirementId == Some(b.requirementId)
    && b.requirementCommitment == RequirementCommitment(hash, ctx.requirement)
    && b.grantId == g.grantId && b.grantRevision == g.revision && b.policyVersions == g.policyVersions
    && ctx.institution.institutionId in r.roleMappings
    && b.roleMappingVersion == r.roleMappings[ctx.institution.institutionId].version
    && b.roleMappingDigest == r.roleMappings[ctx.institution.institutionId].digest
    && (exists x: Permission, y: Permission ::
          && IsFirst(ctx.requirement.permissions, ThatCover(a, p), x) && IsFirst(g.permissions, ThatCover(a, p), y)
          && IsLeast(b.effectiveMaxEffects, [x.maxEffects, y.maxEffects, Allowed(a, p)]))
  }

  ghost function Allowed(a: Action, p: Proposal): int {
    match a.effectLimits
    case None => p.effects
    case Some(l) => match l.maxEffects case None => p.effects case Some(n) => n
  }

  ghost predicate IsLeast(n: int, xs: seq<int>) {
    n in xs && forall x | x in xs :: n <= x
  }

  lemma BindingSaysAll(hash: Hash, c: Config, r: Resolver, p: Proposal, now: Time, a: Action, ctx: Context, g: Grant)
    requires Terms(hash, c, r, a, ctx, g, p, now)
    ensures Resolve(hash, c, r, p, now).reasons == []
    ensures Resolve(hash, c, r, p, now).binding.Some?
      && BindingSays(hash, r, a, ctx, g, p, Resolve(hash, c, r, p, now).binding.value)
  {
    hide ManifestTerms, MappingTerms, ReviewTerms, GrantedTerms, IsFirst, FindAction, RequirementCommitment;
    hide ProposalCommitment, ResolveReasons, FirstPermission;
    BoundExactlyOnTerms(hash, c, r, p, now);
    ResolveDecides(hash, c, r, p, now);
    NoReasonMeansResolvable(hash, c, r, p, now);
    ActionFound(c.manifest.actions, p.actionId, a);
    var x := MatchingPermission(c.manifest, ctx.requirement.permissions, p).value;
    var y := MatchingPermission(c.manifest, g.permissions, p).value;
    PermissionFound(ctx.requirement.permissions, a, p, x);
    PermissionFound(g.permissions, a, p, y);
    CapIsLeast(x.maxEffects, y.maxEffects, a, p);
  }

  lemma CapIsLeast(x: int, y: int, a: Action, p: Proposal)
    ensures IsLeast(Min(Min(x, y), ManifestCap(a, p)), [x, y, Allowed(a, p)])
  {}
}
