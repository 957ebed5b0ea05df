/** Resolving current authority for one proposal: the reasons it is refused for,
    in the order they are found, and the binding it earns when there are none. */
module Resolution {
  import opened Text
  import opened CanonicalJson
  import opened Commitments
  import opened Authority
  import opened Reasons

  const MANIFEST_VERSION := "1.1"
  const CONTEXT_VERSION := "0.1.0"
  const CONTEXT_STATUS := "proposed_pending_governor_review"

  // ---- small lookups -------------------------------------------------------

  function FindAction(actions: seq<Action>, id: string): (r: Option<Action>)
    ensures r.Some? ==> r.value in actions && r.value.actionId == id
    ensures r.None? ==> forall a | a in actions :: a.actionId != id
  {
    if actions == [] then None
    else if actions[0].actionId == id then Some(actions[0])
    else FindAction(actions[1..], id)
  }

  function FindTool(tools: seq<Tool>, name: string): Option<Tool> {
    if tools == [] then None
    else if tools[0].toolName == name then Some(tools[0])
    else FindTool(tools[1..], name)
  }

  function FindAlias(aliases: seq<Alias>, name: string): seq<string> {
    if aliases == [] then []
    else if aliases[0].name == name then aliases[0].roles
    else FindAlias(aliases[1..], name)
  }

  predicate Fresh(tolerance: int, observedAt: Time, now: Time, maxAge: int) {
    observedAt <= now + tolerance && now - observedAt <= maxAge
  }

  predicate SameInstitution(institutionId: string, authorityDomain: string, ctx: Context) {
    institutionId == ctx.institution.institutionId && authorityDomain == ctx.institution.authorityDomain
  }

  predicate Subset(xs: seq<string>, ys: seq<string>) {
    forall x | x in xs :: x in ys
  }

  predicate Permits(perm: Permission, action: Action, p: Proposal) {
    && perm.action == action.actionName
    && p.target in perm.targets
    && Subset(p.requestedPermissions, perm.dataScopes)
    && p.amount <= perm.maxAmount
    && p.unit == perm.unit
    && p.effects <= perm.maxEffects
  }

  function FirstPermission(perms: seq<Permission>, action: Action, p: Proposal): (r: Option<Permission>)
    ensures r.Some? ==> r.value in perms && Permits(r.value, action, p)
    ensures r.None? ==> forall perm | perm in perms :: !Permits(perm, action, p)
  {
    if perms == [] then None
    else if Permits(perms[0], action, p) then Some(perms[0])
    else FirstPermission(perms[1..], action, p)
  }

  /** No permission matches when the manifest does not know the action. */
  function MatchingPermission(m: Manifest, perms: seq<Permission>, p: Proposal): Option<Permission> {
    var action := FindAction(m.actions, p.actionId);
    if action.None? then None else FirstPermission(perms, action.value, p)
  }

  function Keys(fs: seq<Field>): seq<string> {
    seq(|fs|, i requires 0 <= i < |fs| => fs[i].key)
  }

  function RolesOf(approvals: seq<ApprovalRequirement>): seq<string> {
    seq(|approvals|, i requires 0 <= i < |approvals| => approvals[i].roleId)
  }

  /** The canonical role a declared reviewer role stands for; empty roles are never required. */
  function ResolveRole(declared: Option<string>, required: seq<string>, institutionId: string,
                       mapping: Option<RoleMapping>): Option<string> {
    if declared.None? then None
    else if "urn:" <= declared.value then
      if declared.value in required then declared else None
    else if mapping.None? || mapping.value.institutionId != institutionId then None
    else
      var candidates := FindAlias(mapping.value.aliases, declared.value);
      if |candidates| != 1 || !("urn:" <= candidates[0]) then None
      else if candidates[0] in required then Some(candidates[0]) else None
  }

  const MAPPING_KEYS := ["institution_id", "version", "aliases"]

  function AliasFields(aliases: seq<Alias>): seq<Field> {
    seq(|aliases|, i requires 0 <= i < |aliases| => Field(aliases[i].name, StringsJson(aliases[i].roles)))
  }

  function MappingDigest(hash: Hash, mapping: RoleMapping): string {
    Commitment(hash, Record(MAPPING_KEYS,
      [Str(mapping.institutionId), Str(mapping.version), Obj(AliasFields(mapping.aliases))]))
  }

  const REQUIREMENT_KEYS := ["requirement_id", "permissions", "approvals", "evidence", "consequence", "document"]

  function PermissionJson(p: Permission): Json {
    Arr([Str(p.action), StringsJson(p.targets), StringsJson(p.dataScopes), Int(p.maxAmount), Str(p.unit),
         Int(p.maxEffects)])
  }

  function RequiredRoleJson(q: ApprovalRequirement): Json {
    Arr([Str(q.roleId), Bool(q.independentOfActor)])
  }

  function ObligationJson(o: Obligation): Json {
    Arr([Str(o.obligationId), Str(o.kind), Str(o.sourceRef), Int(o.maxAge), Bool(o.required), Str(o.unknownBehavior)])
  }

  function PermissionsJson(ps: seq<Permission>): Json {
    Arr(seq(|ps|, i requires 0 <= i < |ps| => PermissionJson(ps[i])))
  }

  function RequiredRolesJson(qs: seq<ApprovalRequirement>): Json {
    Arr(seq(|qs|, i requires 0 <= i < |qs| => RequiredRoleJson(qs[i])))
  }

  function ObligationsJson(os: seq<Obligation>): Json {
    Arr(seq(|os|, i requires 0 <= i < |os| => ObligationJson(os[i])))
  }

  function RequirementValues(r: Requirement): (vs: seq<Json>)
    ensures |vs| == 6
  {
    [Str(r.requirementId), PermissionsJson(r.permissions), RequiredRolesJson(r.approvals), ObligationsJson(r.evidence),
     OptionJson(r.tier), r.document]
  }

  /** The requirement as a record of the fields this model reads, with the rest of the dictionary
      in document. The source commits the raw dictionary; only that equal requirements commit
      equally, and that the commitment depends on all of it, is used here. */
  function RequirementCommitment(hash: Hash, r: Requirement): string {
    Commitment(hash, Record(REQUIREMENT_KEYS, RequirementValues(r)))
  }

  // ---- the manifest --------------------------------------------------------

  function PayloadReasons(policy: Option<PayloadPolicy>, keys: seq<string>): seq<Reason> {
    match policy
    case None => [MissingPayloadPolicy]
    case Some(pp) =>
      When(!Subset(pp.required, keys), MissingRequiredPayloadField)
      + When(exists k | k in keys :: k in pp.forbidden, ForbiddenPayloadField)
      + When(exists k | k in keys :: k !in pp.required && k !in pp.optional, UndeclaredPayloadField)
  }

  function LimitReasons(limits: Option<Limits>, p: Proposal): seq<Reason> {
    match limits
    case None => []
    case Some(l) =>
      When(p.effects > l.maxEffects.GetOr(0), EffectCountExceeded)
      + When(l.maxAmount.Some? && p.amount > l.maxAmount.value, AmountExceeded)
      + When(l.unit.Some? && p.unit != l.unit.value, AmountUnitMismatch)
  }

  predicate NeedsMore(a: Action, p: Proposal) {
    exists s | s in a.authorityRequired :: s.required && s.scope !in p.requestedPermissions
  }

  function ActionReasons(m: Manifest, a: Action, p: Proposal): seq<Reason> {
    var tool := FindTool(m.tools, a.toolName);
    When(tool.None? || tool.value.adapterId != p.adapterId, AdapterMismatch)
    + When(a.targetPolicy.None? || a.targetPolicy.value.allowAnyTarget
           || p.target !in a.targetPolicy.value.allowedTargets, TargetOutOfScope)
    + PayloadReasons(a.payloadPolicy, Keys(p.payload))
    + LimitReasons(a.effectLimits, p)
    + When(NeedsMore(a, p), MissingRequestedPermission)
    + When(a.authority.Some? && p.authorityContextRef != a.authority.value.profileRef, AuthorityProfileMismatch)
    + When(a.authority.Some? && p.requirementId != a.authority.value.requirementId, AuthorityRequirementMismatch)
  }

  function WindowReasons(p: Proposal, now: Time): seq<Reason> {
    When(p.notBefore.Some? && p.notBefore.value > now, ProposalNotYetValid)
    + When(p.expiresAt.Some? && p.expiresAt.value <= now, ProposalExpired)
  }

  function DocumentReasons(hash: Hash, m: Manifest, p: Proposal): seq<Reason> {
    When(p.manifestVersion != MANIFEST_VERSION, UnsupportedManifestVersion)
    + When(m.manifestVersion != Some(MANIFEST_VERSION), ManifestVersionMismatch)
    + When(m.manifestId != Some(p.manifestId), ManifestIdMismatch)
    + When(p.manifestDigest != Commitment(hash, m.document), ManifestDigestMismatch)
    + When(p.payloadCommitment != Commitment(hash, Obj(p.payload)), PayloadCommitmentMismatch)
  }

  function ManifestReasons(hash: Hash, m: Manifest, p: Proposal, now: Time): seq<Reason> {
    var action := FindAction(m.actions, p.actionId);
    DocumentReasons(hash, m, p) +
    (if action.None? then [UnknownAction] else ActionReasons(m, action.value, p) + WindowReasons(p, now))
  }

  // ---- context, identity, mandate, grant -----------------------------------

  function ContextReasons(m: Manifest, ctx: Context, p: Proposal): seq<Reason> {
    var action := FindAction(m.actions, p.actionId);
    var declared := if action.None? then None else action.value.authority;
    When(p.tenantId.Some? && ctx.tenantId != p.tenantId, TenantContextMismatch)
    + When(ctx.schemaVersion != CONTEXT_VERSION, ContextVersionMismatch)
    + When(ctx.interfaceStatus != CONTEXT_STATUS, ContextStatusMismatch)
    + When(p.requirementId != Some(ctx.requirement.requirementId), AuthorityRequirementMismatch)
    + When(ctx.principal != p.principal || ctx.actingIdentity != p.actor, ProposalIdentityBindingMismatch)
    + When(declared.None? || declared.value.institutionId != Some(ctx.institution.institutionId),
           InstitutionMismatch)
    + When(declared.None? || declared.value.authorityDomain != Some(ctx.institution.authorityDomain),
           AuthorityDomainMismatch)
    + When(ctx.requirement.tier != (if declared.None? then None else declared.value.consequenceTier),
           ConsequenceTierMismatch)
  }

  function MappingReasons(hash: Hash, mapping: Option<RoleMapping>, ctx: Context): seq<Reason> {
    match mapping
    case None => [RoleMappingMissing]
    case Some(mp) =>
      When(mp.institutionId != ctx.institution.institutionId || mp.digest != MappingDigest(hash, mp),
           RoleMappingInvalid)
  }

  function ReviewReasons(m: Manifest, mapping: Option<RoleMapping>, ctx: Context, p: Proposal): seq<Reason> {
    var action := FindAction(m.actions, p.actionId);
    if action.None? || action.value.review.None? then [] else
      var review := action.value.review.value;
      When((review.mode == "human_review" || review.mode == "approval_required")
           && ResolveRole(review.reviewerRole, RolesOf(ctx.requirement.approvals),
                          ctx.institution.institutionId, mapping).None?,
           ReviewRequirementNotResolved)
  }

  function IdentityReasons(c: Config, id: IdentityStatus, ctx: Context, now: Time): seq<Reason> {
    When(id.identity != ctx.actingIdentity || id.principal != ctx.principal
         || !SameInstitution(id.institutionId, id.authorityDomain, ctx), IdentityBindingMismatch)
    + When(!id.authenticated || !id.delegationValid, IdentityOrDelegationInvalid)
    + When(!Fresh(c.clockTolerance, id.observedAt, now, c.identityMaxAge), IdentityStaleOrFuture)
  }

  function MandateReasons(c: Config, md: MandateStatus, g: Grant, ctx: Context, now: Time): seq<Reason> {
    When(md.issuer != g.issuer || md.issuerRole != g.issuerRole || md.issuanceRecordRef != g.issuanceRecordRef
         || !SameInstitution(md.institutionId, md.authorityDomain, ctx), MandateBindingMismatch)
    + When(!md.mandateValid, MandateInvalid)
    + When(!Fresh(c.clockTolerance, md.observedAt, now, c.mandateMaxAge), MandateStaleOrFuture)
  }

  function GrantStatusReasons(c: Config, st: Option<GrantStatus>, g: Grant, ctx: Context, p: Proposal,
                              now: Time): seq<Reason> {
    match st
    case None => [GrantNotActive]
    case Some(s) =>
      When(s.grantId != g.grantId || s.statusRef != g.statusRef
           || s.authorityBasisRef != ctx.institution.authorityBasisRef
           || !SameInstitution(s.institutionId, s.authorityDomain, ctx), GrantStatusBindingMismatch)
      + When(p.tenantId.Some? && s.tenantId != p.tenantId, GrantTenantMismatch)
      + When(s.status != GrantState.Active, GrantNotActive)
      + When(s.revision != g.revision, GrantRevisionStale)
      + When(!Fresh(c.clockTolerance, s.observedAt, now, c.statusMaxAge), GrantStatusStaleOrFuture)
  }

  function GrantReasons(c: Config, g: Grant, ctx: Context, id: IdentityStatus, p: Proposal, now: Time): seq<Reason> {
    When(g.requirementId != ctx.requirement.requirementId, GrantRequirementMismatch)
    + When(g.grantee != ctx.principal || g.actingIdentity != ctx.actingIdentity, GrantIdentityMismatch)
    + When(p.tenantId.Some? && g.tenantId != p.tenantId, GrantTenantMismatch)
    + When(g.notBefore > now || g.expiresAt <= now, GrantOutsideValidity)
    + When(MatchingPermission(c.manifest, ctx.requirement.permissions, p).None?, RequirementScopeMismatch)
    + When(MatchingPermission(c.manifest, g.permissions, p).None?, GrantScopeMismatch)
    + When(g.parentGrantId.Some? && id.chain == [], DelegationChainMissing)
  }

  function ConflictReasons(c: Config, cf: Option<ConflictStatus>, ctx: Context, now: Time): seq<Reason> {
    match cf
    case None => [ConflictUnresolved]
    case Some(s) =>
      When(s.requirementId != ctx.requirement.requirementId || Sort(s.conflictRefs) != Sort(ctx.precedenceRefs)
           || !SameInstitution(s.institutionId, s.authorityDomain, ctx), ConflictBindingMismatch)
      + When(s.state != ConflictState.Clear, ConflictUnresolved)
      + When(!Fresh(c.clockTolerance, s.observedAt, now, c.statusMaxAge), ConflictStaleOrFuture)
  }

  // ---- policies, approvals, evidence ---------------------------------------

  function PolicyReasons(c: Config, r: Resolver, item: PolicyRef, ctx: Context, p: Proposal, now: Time): seq<Reason> {
    match Lookup(r.policies, item.ref)
    case None => [PolicyStaleOrChanged]
    case Some(s) =>
      When(s.ref != item.ref || !SameInstitution(s.institutionId, s.authorityDomain, ctx), PolicyBindingMismatch)
      + When(p.tenantId.Some? && s.tenantId != p.tenantId, PolicyTenantMismatch)
      + When(s.status != PolicyState.Active || s.version != item.version, PolicyStaleOrChanged)
      + When(!Fresh(c.clockTolerance, s.observedAt, now, c.statusMaxAge), PolicyStatusStaleOrFuture)
  }

  function PoliciesReasons(c: Config, r: Resolver, items: seq<PolicyRef>, ctx: Context, p: Proposal,
                           now: Time): seq<Reason> {
    if items == [] then []
    else PoliciesReasons(c, r, items[..|items| - 1], ctx, p, now)
         + PolicyReasons(c, r, items[|items| - 1], ctx, p, now)
  }

  predicate ApprovalBound(a: ApprovalStatus, ref: string, ctx: Context) {
    a.approvalRef == ref && SameInstitution(a.institutionId, a.authorityDomain, ctx)
  }

  /** The reasons one reference gives by itself. */
  function RefReasons(r: Resolver, ref: string, ctx: Context, p: Proposal): seq<Reason> {
    match Lookup(r.approvals, ref)
    case None => []
    case Some(a) =>
      if !ApprovalBound(a, ref, ctx) then [ApprovalBindingMismatch]
      else When(p.tenantId.Some? && a.tenantId != p.tenantId, ApprovalTenantMismatch)
  }

  predicate RefMatches(r: Resolver, ref: string, role: string, ctx: Context, p: Proposal) {
    && ref in r.approvals
    && ApprovalBound(r.approvals[ref], ref, ctx)
    && (p.tenantId.Some? ==> r.approvals[ref].tenantId == p.tenantId)
    && r.approvals[ref].roleId == role
  }

  function RefsReasons(r: Resolver, refs: seq<string>, ctx: Context, p: Proposal): seq<Reason> {
    if refs == [] then []
    else RefsReasons(r, refs[..|refs| - 1], ctx, p) + RefReasons(r, refs[|refs| - 1], ctx, p)
  }

  function Matches(r: Resolver, refs: seq<string>, role: string, ctx: Context, p: Proposal): (ms: seq<ApprovalStatus>)
    ensures forall ref | ref in refs && RefMatches(r, ref, role, ctx, p) :: r.approvals[ref] in ms
    ensures forall a | a in ms :: exists ref | ref in refs :: RefMatches(r, ref, role, ctx, p) && r.approvals[ref] == a
  {
    if refs == [] then [] else
      var n := |refs| - 1;
      assert refs == refs[..n] + [refs[n]];
      Matches(r, refs[..n], role, ctx, p)
      + (if RefMatches(r, refs[n], role, ctx, p) then [r.approvals[refs[n]]] else [])
  }

  function MatchReasons(c: Config, a: ApprovalStatus, req: ApprovalRequirement, g: Grant, p: Proposal,
                        commitment: string, now: Time): seq<Reason> {
    When(a.status != ApprovalState.Active, ApprovalNotActive)
    + When(!Fresh(c.clockTolerance, a.observedAt, now, c.approvalMaxAge), ApprovalStaleOrFuture)
    + When(a.grantId != g.grantId || a.grantRevision != g.revision, ApprovalGrantMismatch)
    + When(a.proposalCommitment != commitment, ApprovalOperationMismatch)
    + When(a.policyVersions != g.policyVersions, ApprovalPolicyMismatch)
    + When(req.independentOfActor && a.approver == p.actor, ApprovalIndependenceViolation)
  }

  function MatchesReasons(c: Config, ms: seq<ApprovalStatus>, req: ApprovalRequirement, g: Grant, p: Proposal,
                          commitment: string, now: Time): seq<Reason> {
    if ms == [] then []
    else MatchesReasons(c, ms[..|ms| - 1], req, g, p, commitment, now)
         + MatchReasons(c, ms[|ms| - 1], req, g, p, commitment, now)
  }

  function ApprovalReasons(c: Config, r: Resolver, req: ApprovalRequirement, g: Grant, ctx: Context, p: Proposal,
                           commitment: string, now: Time): seq<Reason> {
    var ms := Matches(r, g.approvalRefs, req.roleId, ctx, p);
    RefsReasons(r, g.approvalRefs, ctx, p)
    + (if ms == [] then [RequiredApprovalMissing] else MatchesReasons(c, ms, req, g, p, commitment, now))
  }

  function ApprovalsReasons(c: Config, r: Resolver, reqs: seq<ApprovalRequirement>, g: Grant, ctx: Context,
                            p: Proposal, commitment: string, now: Time): seq<Reason> {
    if reqs == [] then []
    else ApprovalsReasons(c, r, reqs[..|reqs| - 1], g, ctx, p, commitment, now)
         + ApprovalReasons(c, r, reqs[|reqs| - 1], g, ctx, p, commitment, now)
  }

  predicate EvidenceBound(e: EvidenceStatus, o: Obligation, ctx: Context) {
    && e.obligationId == o.obligationId && e.sourceRef == o.sourceRef
    && SameInstitution(e.institutionId, e.authorityDomain, ctx)
  }

  /** Evidence that does not bind to its obligation counts as absent. */
  function EvidenceReasons(c: Config, r: Resolver, o: Obligation, ctx: Context, now: Time): seq<Reason> {
    var found := Lookup(r.evidence, o.obligationId);
    var bound := found.Some? && EvidenceBound(found.value, o, ctx);
    When(found.Some? && !bound, EvidenceBindingMismatch)
    + (if o.required && o.kind == "authorization" then
         if !bound || found.value.state != EvidenceState.Current then [RequiredEvidenceNotCurrent]
         else When(!Fresh(c.clockTolerance, found.value.observedAt, now, o.maxAge), RequiredEvidenceStaleOrFuture)
       else if bound then
         When(!Fresh(c.clockTolerance, found.value.observedAt, now, o.maxAge)
              && o.unknownBehavior == "hold_effect", ContextUnknownRequiresHold)
       else When(o.unknownBehavior == "hold_effect", ContextUnknownRequiresHold))
  }

  function EvidencesReasons(c: Config, r: Resolver, os: seq<Obligation>, ctx: Context, now: Time): seq<Reason> {
    if os == [] then []
    else EvidencesReasons(c, r, os[..|os| - 1], ctx, now) + EvidenceReasons(c, r, os[|os| - 1], ctx, now)
  }

  // ---- the whole resolution ------------------------------------------------

  function ContextOf(r: Resolver, p: Proposal): Option<Context> {
    Lookup(r.contexts, p.authorityContextRef.GetOr(""))
  }

  function GrantedReasons(hash: Hash, c: Config, r: Resolver, g: Grant, ctx: Context, p: Proposal,
                          now: Time): seq<Reason> {
    var id := r.Identity(ctx.actingIdentity, ctx.principal);
    IdentityReasons(c, id, ctx, now)
    + MandateReasons(c, r.Mandate(g.issuer, g.issuerRole), g, ctx, now)
    + GrantStatusReasons(c, Lookup(r.grants, g.grantId), g, ctx, p, now)
    + GrantReasons(c, g, ctx, id, p, now)
    + ConflictReasons(c, Lookup(r.conflicts, ctx.requirement.requirementId), ctx, now)
    + PoliciesReasons(c, r, g.policyVersions, ctx, p, now)
    + ApprovalsReasons(c, r, ctx.requirement.approvals, g, ctx, p, ProposalCommitment(hash, p), now)
    + EvidencesReasons(c, r, ctx.requirement.evidence, ctx, now)
  }

  function InContextReasons(hash: Hash, c: Config, r: Resolver, ctx: Context, p: Proposal, now: Time): seq<Reason> {
    var mapping := Lookup(r.roleMappings, ctx.institution.institutionId);
    ContextReasons(c.manifest, ctx, p)
    + MappingReasons(hash, mapping, ctx)
    + ReviewReasons(c.manifest, mapping, ctx, p)
    + (if ctx.grant.None? then [IssuedGrantMissing] else GrantedReasons(hash, c, r, ctx.grant.value, ctx, p, now))
  }

  function ResolveReasons(hash: Hash, c: Config, r: Resolver, p: Proposal, now: Time): seq<Reason> {
    ManifestReasons(hash, c.manifest, p, now) +
    (if ContextOf(r, p).None? then [AuthorityContextMissing]
     else InContextReasons(hash, c, r, ContextOf(r, p).value, p, now))
  }

  function Min(a: int, b: int): int {
    if a <= b then a else b
  }

  /** The manifest limit that enters the cap: the declared one, else the proposal's own count. */
  function ManifestCap(a: Action, p: Proposal): int {
    if a.effectLimits.Some? && a.effectLimits.value.maxEffects.Some?
    then a.effectLimits.value.maxEffects.value else p.effects
  }

  /** The lookups a binding dereferences. */
  ghost predicate Resolvable(c: Config, r: Resolver, p: Proposal) {
    && ContextOf(r, p).Some?
    && var ctx := ContextOf(r, p).value;
    && ctx.grant.Some?
    && ctx.institution.institutionId in r.roleMappings
    && FindAction(c.manifest.actions, p.actionId).Some?
    && MatchingPermission(c.manifest, ctx.requirement.permissions, p).Some?
    && MatchingPermission(c.manifest, ctx.grant.value.permissions, p).Some?
  }

  function BindingOf(hash: Hash, c: Config, r: Resolver, p: Proposal): Binding
    requires Resolvable(c, r, p)
  {
    var ctx := ContextOf(r, p).value;
    var g := ctx.grant.value;
    var mapping := r.roleMappings[ctx.institution.institutionId];
    var action := FindAction(c.manifest.actions, p.actionId).value;
    var fromRequirement := MatchingPermission(c.manifest, ctx.requirement.permissions, p).value;
    var fromGrant := MatchingPermission(c.manifest, g.permissions, p).value;
    Binding(
      ProposalCommitment(hash, p), p.manifestId, p.manifestVersion, p.manifestDigest,
      p.actor, p.principal, p.actionId, p.adapterId, p.target,
      p.payloadCommitment, p.requestedPermissions, p.amount, p.unit, p.effects,
      ctx.contextId, ctx.schemaVersion, ctx.interfaceStatus,
      p.requirementId.GetOr(""), RequirementCommitment(hash, ctx.requirement),
      g.grantId, g.revision, g.policyVersions,
      mapping.version, mapping.digest,
      Min(Min(fromRequirement.maxEffects, fromGrant.maxEffects), ManifestCap(action, p)),
      p.tenantId)
  }

  lemma GrantedParts(hash: Hash, c: Config, r: Resolver, g: Grant, ctx: Context, p: Proposal, now: Time)
    ensures GrantedReasons(hash, c, r, g, ctx, p, now) == [] <==>
      && IdentityReasons(c, r.Identity(ctx.actingIdentity, ctx.principal), ctx, now) == []
      && MandateReasons(c, r.Mandate(g.issuer, g.issuerRole), g, ctx, now) == []
      && GrantStatusReasons(c, Lookup(r.grants, g.grantId), g, ctx, p, now) == []
      && GrantReasons(c, g, ctx, r.Identity(ctx.actingIdentity, ctx.principal), p, now) == []
      && ConflictReasons(c, Lookup(r.conflicts, ctx.requirement.requirementId), ctx, now) == []
      && PoliciesReasons(c, r, g.policyVersions, ctx, p, now) == []
      && ApprovalsReasons(c, r, ctx.requirement.approvals, g, ctx, p, ProposalCommitment(hash, p), now) == []
      && EvidencesReasons(c, r, ctx.requirement.evidence, ctx, now) == []
  {
    EightParts(
      IdentityReasons(c, r.Identity(ctx.actingIdentity, ctx.principal), ctx, now),
      MandateReasons(c, r.Mandate(g.issuer, g.issuerRole), g, ctx, now),
      GrantStatusReasons(c, Lookup(r.grants, g.grantId), g, ctx, p, now),
      GrantReasons(c, g, ctx, r.Identity(ctx.actingIdentity, ctx.principal), p, now),
      ConflictReasons(c, Lookup(r.conflicts, ctx.requirement.requirementId), ctx, now),
      PoliciesReasons(c, r, g.policyVersions, ctx, p, now),
      ApprovalsReasons(c, r, ctx.requirement.approvals, g, ctx, p, ProposalCommitment(hash, p), now),
      EvidencesReasons(c, r, ctx.requirement.evidence, ctx, now));
  }

  lemma EightParts<T>(a: seq<T>, b: seq<T>, c: seq<T>, d: seq<T>, e: seq<T>, f: seq<T>, g: seq<T>, h: seq<T>)
    ensures a + b + c + d + e + f + g + h == [] <==>
      a == [] && b == [] && c == [] && d == [] && e == [] && f == [] && g == [] && h == []
  {
    assert |a + b + c + d + e + f + g + h| == |a| + |b| + |c| + |d| + |e| + |f| + |g| + |h|;
  }

  lemma ResolveParts(hash: Hash, c: Config, r: Resolver, p: Proposal, now: Time)
    ensures ResolveReasons(hash, c, r, p, now) == [] <==>
      && ManifestReasons(hash, c.manifest, p, now) == []
      && ContextOf(r, p).Some?
      && var ctx := ContextOf(r, p).value;
      && var mapping := Lookup(r.roleMappings, ctx.institution.institutionId);
      && ContextReasons(c.manifest, ctx, p) == []
      && MappingReasons(hash, mapping, ctx) == []
      && ReviewReasons(c.manifest, mapping, ctx, p) == []
      && ctx.grant.Some?
      && GrantedReasons(hash, c, r, ctx.grant.value, ctx, p, now) == []
  {
    if ContextOf(r, p).Some? {
      var ctx := ContextOf(r, p).value;
      var mapping := Lookup(r.roleMappings, ctx.institution.institutionId);
      var last := if ctx.grant.None? then [IssuedGrantMissing]
                  else GrantedReasons(hash, c, r, ctx.grant.value, ctx, p, now);
      EightParts(ManifestReasons(hash, c.manifest, p, now), [], [], [], ContextReasons(c.manifest, ctx, p),
                 MappingReasons(hash, mapping, ctx), ReviewReasons(c.manifest, mapping, ctx, p), last);
    }
  }

  /** With no reason to refuse, every optional lookup the binding dereferences is there. */
  lemma NoReasonMeansResolvable(hash: Hash, c: Config, r: Resolver, p: Proposal, now: Time)
    requires ResolveReasons(hash, c, r, p, now) == []
    ensures Resolvable(c, r, p)
  {
    ResolveParts(hash, c, r, p, now);
    var ctx := ContextOf(r, p).value;
    GrantedParts(hash, c, r, ctx.grant.value, ctx, p, now);
  }

  datatype Resolved = Resolved(reasons: seq<string>, binding: Option<Binding>)

  function Resolve(hash: Hash, c: Config, r: Resolver, p: Proposal, now: Time): Resolved {
    if ResolveReasons(hash, c, r, p, now) == [] then
      NoReasonMeansResolvable(hash, c, r, p, now);
      Resolved([], Some(BindingOf(hash, c, r, p)))
    else Resolved(Report(ResolveReasons(hash, c, r, p, now)), None)
  }
}
