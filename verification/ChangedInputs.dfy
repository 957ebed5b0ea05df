/** The inputs a refusal blames, reduced to identifiers and versions. */
module ChangedInputs {
  import opened Text
  import opened CanonicalJson
  import opened Commitments
  import opened Authority
  import opened Reasons
  import opened Resolution
  import opened ResolutionLaws
  import opened RunRecords
  import Terms = AuthorizationTerms

  predicate GrantUnchanged(s: Option<GrantStatus>, b: Binding) {
    s.Some? && s.value.revision == b.grantRevision && s.value.status == GrantState.Active
  }

  function GrantEntries(r: Resolver, b: Binding): seq<ChangedInput> {
    var s := Lookup(r.grants, b.grantId);
    When(!GrantUnchanged(s, b), ChangedInput(GrantInput, b.grantId,
      "revision=" + b.grantRevision + ";status=active",
      if s.None? then "missing"
      else "revision=" + s.value.revision + ";status=" + GrantStateText(s.value.status)
           + ";version=" + s.value.version))
  }

  predicate PolicyUnchanged(s: Option<PolicyStatus>, item: PolicyRef) {
    s.Some? && s.value.version == item.version && s.value.status == PolicyState.Active
  }

  function PolicyEntry(r: Resolver, item: PolicyRef): seq<ChangedInput> {
    var s := Lookup(r.policies, item.ref);
    When(!PolicyUnchanged(s, item), ChangedInput(PolicyInput, item.ref,
      "version=" + item.version + ";status=active",
      if s.None? then "missing" else "version=" + s.value.version + ";status=" + PolicyStateText(s.value.status)))
  }

  predicate ApprovalUnchanged(hash: Hash, s: Option<ApprovalStatus>, b: Binding) {
    && s.Some? && s.value.grantId == b.grantId && s.value.grantRevision == b.grantRevision
    && s.value.status == ApprovalState.Active && s.value.proposalCommitment == b.proposalCommitment
    && Commitment(hash, PoliciesJson(s.value.policyVersions)) == Commitment(hash, PoliciesJson(b.policyVersions))
  }

  function ApprovalText(revision: string, status: string, proposal: string, policies: string): string {
    "grant_revision=" + revision + ";status=" + status + ";proposal=" + proposal + ";policies=" + policies
  }

  function ApprovalEntry(hash: Hash, r: Resolver, ref: string, b: Binding): seq<ChangedInput> {
    var s := Lookup(r.approvals, ref);
    When(!ApprovalUnchanged(hash, s, b), ChangedInput(ApprovalInput, ref,
      ApprovalText(b.grantRevision, "active", b.proposalCommitment, Commitment(hash, PoliciesJson(b.policyVersions))),
      if s.None? then "missing"
      else ApprovalText(s.value.grantRevision, ApprovalStateText(s.value.status), s.value.proposalCommitment,
                        Commitment(hash, PoliciesJson(s.value.policyVersions)))))
  }

  predicate EvidenceUnchanged(s: Option<EvidenceStatus>, o: Obligation) {
    o.required && o.kind == "authorization" ==> s.Some? && s.value.state == EvidenceState.Current
  }

  function EvidenceEntry(r: Resolver, o: Obligation): seq<ChangedInput> {
    var s := Lookup(r.evidence, o.obligationId);
    When(!EvidenceUnchanged(s, o), ChangedInput(EvidenceInput, o.obligationId, "state=current",
      if s.None? then "missing"
      else "state=" + EvidenceStateText(s.value.state) + ";observed_at=" + IntText(s.value.observedAt)))
  }

  predicate MappingUnchanged(s: Option<RoleMapping>, b: Binding) {
    s.Some? && s.value.version == b.roleMappingVersion && s.value.digest == b.roleMappingDigest
  }

  function MappingEntries(r: Resolver, institutionId: string, b: Binding): seq<ChangedInput> {
    var s := Lookup(r.roleMappings, institutionId);
    When(!MappingUnchanged(s, b), ChangedInput(RoleMappingInput, institutionId,
      "version=" + b.roleMappingVersion + ";digest=" + b.roleMappingDigest,
      if s.None? then "missing" else "version=" + s.value.version + ";digest=" + s.value.digest))
  }

  function PolicyEntries(r: Resolver, items: seq<PolicyRef>): (es: seq<ChangedInput>)
    ensures (forall item | item in items :: PolicyEntry(r, item) == []) ==> es == []
    ensures forall e | e in es :: e.kind == PolicyInput
  {
    if items == [] then [] else
      var n := |items| - 1;
      assert items == items[..n] + [items[n]];
      PolicyEntries(r, items[..n]) + PolicyEntry(r, items[n])
  }

  function ApprovalEntries(hash: Hash, r: Resolver, refs: seq<string>, b: Binding): (es: seq<ChangedInput>)
    ensures (forall ref | ref in refs :: ApprovalEntry(hash, r, ref, b) == []) ==> es == []
    ensures forall e | e in es :: e.kind == ApprovalInput
  {
    if refs == [] then [] else
      var n := |refs| - 1;
      assert refs == refs[..n] + [refs[n]];
      ApprovalEntries(hash, r, refs[..n], b) + ApprovalEntry(hash, r, refs[n], b)
  }

  function EvidenceEntries(r: Resolver, os: seq<Obligation>): (es: seq<ChangedInput>)
    ensures (forall o | o in os :: EvidenceEntry(r, o) == []) ==> es == []
    ensures forall e | e in es :: e.kind == EvidenceInput
  {
    if os == [] then [] else
      var n := |os| - 1;
      assert os == os[..n] + [os[n]];
      EvidenceEntries(r, os[..n]) + EvidenceEntry(r, os[n])
  }

  function ApprovalRefsIn(ctx: Option<Context>): seq<string> {
    if ctx.Some? && ctx.value.grant.Some? then ctx.value.grant.value.approvalRefs else []
  }

  function ObligationsIn(ctx: Option<Context>): seq<Obligation> {
    if ctx.Some? then ctx.value.requirement.evidence else []
  }

  function InstitutionIn(ctx: Option<Context>): string {
    if ctx.Some? then ctx.value.institution.institutionId else ""
  }

  function Changed(hash: Hash, r: Resolver, p: Proposal, b: Binding): seq<ChangedInput> {
    var ctx := ContextOf(r, p);
    GrantEntries(r, b) + PolicyEntries(r, b.policyVersions) + ApprovalEntries(hash, r, ApprovalRefsIn(ctx), b)
    + EvidenceEntries(r, ObligationsIn(ctx)) + MappingEntries(r, InstitutionIn(ctx), b)
  }

  method GatherPolicies(r: Resolver, items: seq<PolicyRef>) returns (changed: seq<ChangedInput>)
    ensures changed == PolicyEntries(r, items)
  {
    changed := [];
    for i := 0 to |items|
      invariant changed == PolicyEntries(r, items[..i])
    {
      assert items[..i + 1][..i] == items[..i];
      changed := changed + PolicyEntry(r, items[i]);
    }
    assert items[..|items|] == items;
  }

  method GatherApprovals(hash: Hash, r: Resolver, refs: seq<string>, b: Binding) returns (changed: seq<ChangedInput>)
    ensures changed == ApprovalEntries(hash, r, refs, b)
  {
    changed := [];
    for i := 0 to |refs|
      invariant changed == ApprovalEntries(hash, r, refs[..i], b)
    {
      assert refs[..i + 1][..i] == refs[..i];
      changed := changed + ApprovalEntry(hash, r, refs[i], b);
    }
    assert refs[..|refs|] == refs;
  }

  method GatherEvidence(r: Resolver, os: seq<Obligation>) returns (changed: seq<ChangedInput>)
    ensures changed == EvidenceEntries(r, os)
  {
    changed := [];
    for i := 0 to |os|
      invariant changed == EvidenceEntries(r, os[..i])
    {
      assert os[..i + 1][..i] == os[..i];
      changed := changed + EvidenceEntry(r, os[i]);
    }
    assert os[..|os|] == os;
  }

  method GatherChanged(hash: Hash, r: Resolver, p: Proposal, b: Binding) returns (changed: seq<ChangedInput>)
    ensures changed == Changed(hash, r, p, b)
  {
    var ctx := ContextOf(r, p);
    var policies := GatherPolicies(r, b.policyVersions);
    var approvals := GatherApprovals(hash, r, ApprovalRefsIn(ctx), b);
    var evidence := GatherEvidence(r, ObligationsIn(ctx));
    changed := GrantEntries(r, b) + policies + approvals + evidence + MappingEntries(r, InstitutionIn(ctx), b);
  }

  // ---- blame is earned -----------------------------------------------------

  lemma PoliciesUnchanged(c: Config, r: Resolver, items: seq<PolicyRef>, ctx: Context, p: Proposal, now: Time)
    requires forall item | item in items :: PolicyHolds(c, r, item, ctx, p, now)
    ensures PolicyEntries(r, items) == []
  {
    forall item | item in items ensures PolicyEntry(r, item) == [] {
      assert PolicyHolds(c, r, item, ctx, p, now);
    }
  }

  lemma EvidenceAllUnchanged(c: Config, r: Resolver, os: seq<Obligation>, ctx: Context, now: Time)
    requires forall o | o in os :: EvidenceHolds(c, r, o, ctx, now)
    ensures EvidenceEntries(r, os) == []
  {
    forall o | o in os ensures EvidenceEntry(r, o) == [] {
      assert EvidenceHolds(c, r, o, ctx, now);
    }
  }

  lemma GrantAndMappingUnchanged(c: Config, r: Resolver, ctx: Context, g: Grant, p: Proposal, now: Time, b: Binding)
    requires GrantHolds(c, r, ctx, g, p, now) && b.grantId == g.grantId && b.grantRevision == g.revision
    requires ctx.institution.institutionId in r.roleMappings
    requires b.roleMappingVersion == r.roleMappings[ctx.institution.institutionId].version
    requires b.roleMappingDigest == r.roleMappings[ctx.institution.institutionId].digest
    ensures GrantEntries(r, b) == [] && MappingEntries(r, ctx.institution.institutionId, b) == []
  {}

  lemma OnlyApprovalsUnder(hash: Hash, c: Config, r: Resolver, ctx: Context, g: Grant, p: Proposal, now: Time,
      b: Binding)
    requires GrantAuthorizes(hash, c, r, ctx, g, p, now)
    requires ContextOf(r, p) == Some(ctx) && ctx.grant == Some(g)
    requires b.grantId == g.grantId && b.grantRevision == g.revision && b.policyVersions == g.policyVersions
    requires ctx.institution.institutionId in r.roleMappings
    requires b.roleMappingVersion == r.roleMappings[ctx.institution.institutionId].version
    requires b.roleMappingDigest == r.roleMappings[ctx.institution.institutionId].digest
    ensures Changed(hash, r, p, b) == ApprovalEntries(hash, r, g.approvalRefs, b)
  {
    GrantAndMappingUnchanged(c, r, ctx, g, p, now, b);
    PoliciesUnchanged(c, r, b.policyVersions, ctx, p, now);
    EvidenceAllUnchanged(c, r, ctx.requirement.evidence, ctx, now);
  }

  /** While one resolver state still authorizes the very same binding, every listed entry is an approval. */
  lemma OnlyApprovalsListed(hash: Hash, c: Config, r: Resolver, p: Proposal, now: Time, b: Binding)
    requires Resolve(hash, c, r, p, now).binding == Some(b)
    ensures Changed(hash, r, p, b) == ApprovalEntries(hash, r, ApprovalRefsIn(ContextOf(r, p)), b)
  {
    BindingStandsOn(hash, c, r, p, now, b);
    var ctx := ContextOf(r, p).value;
    OnlyApprovalsUnder(hash, c, r, ctx, ctx.grant.value, p, now, b);
  }

  /** A grant, policy, evidence or role-mapping entry is listed only in a resolver state
      that would refuse, or would bind differently. */
  lemma ListedOnlyWhenResolutionDiffers(hash: Hash, c: Config, r: Resolver, p: Proposal, now: Time, b: Binding,
                                        e: ChangedInput)
    requires e in Changed(hash, r, p, b) && e.kind != ApprovalInput
    ensures Resolve(hash, c, r, p, now).binding != Some(b)
  {
    if Resolve(hash, c, r, p, now).binding == Some(b) {
      OnlyApprovalsListed(hash, c, r, p, now, b);
    }
  }

  ghost predicate RoleRequired(role: string, ctx: Context) {
    exists req | req in ctx.requirement.approvals :: req.roleId == role
  }

  lemma RequiredApprovalUnchanged(hash: Hash, c: Config, r: Resolver, ctx: Context, g: Grant, p: Proposal, now: Time,
                                  b: Binding, ref: string)
    requires forall req | req in ctx.requirement.approvals ::
      RequirementApproved(c, r, req, g, ctx, p, b.proposalCommitment, now)
    requires b.grantId == g.grantId && b.grantRevision == g.revision && b.policyVersions == g.policyVersions
    requires ref in g.approvalRefs && ref in r.approvals && RoleRequired(r.approvals[ref].roleId, ctx)
    ensures ApprovalUnchanged(hash, Some(r.approvals[ref]), b)
  {
    var a := r.approvals[ref];
    var req :| req in ctx.requirement.approvals && req.roleId == a.roleId;
    assert RequirementApproved(c, r, req, g, ctx, p, b.proposalCommitment, now);
    assert RefMatches(r, ref, req.roleId, ctx, p);
    assert Approves(c, a, req, g, p, b.proposalCommitment, now);
  }

  lemma ApprovalEntryExactly(hash: Hash, c: Config, r: Resolver, p: Proposal, now: Time, b: Binding, ref: string)
    requires Resolve(hash, c, r, p, now).binding == Some(b)
    requires ref in ApprovalRefsIn(ContextOf(r, p))
    ensures ApprovalEntry(hash, r, ref, b) != [] <==>
      || ref !in r.approvals
      || (!RoleRequired(r.approvals[ref].roleId, ContextOf(r, p).value)
          && !ApprovalUnchanged(hash, Some(r.approvals[ref]), b))
  {
    BindingStandsOn(hash, c, r, p, now, b);
    var ctx := ContextOf(r, p).value;
    var g := ctx.grant.value;
    assert GrantAuthorizes(hash, c, r, ctx, g, p, now);
    if ref in r.approvals && RoleRequired(r.approvals[ref].roleId, ctx) {
      RequiredApprovalUnchanged(hash, c, r, ctx, g, p, now, b, ref);
    }
  }

  /** When every approval reference resolves to a required role, nothing at all is listed
      in a state that still authorizes the binding. */
  lemma ListedOnlyWhenChanged(hash: Hash, c: Config, r: Resolver, p: Proposal, now: Time, b: Binding)
    requires Resolve(hash, c, r, p, now).binding == Some(b)
    requires forall ref | ref in ApprovalRefsIn(ContextOf(r, p)) ::
      ref in r.approvals && RoleRequired(r.approvals[ref].roleId, ContextOf(r, p).value)
    ensures Changed(hash, r, p, b) == []
  {
    OnlyApprovalsListed(hash, c, r, p, now, b);
    forall ref | ref in ApprovalRefsIn(ContextOf(r, p)) ensures ApprovalEntry(hash, r, ref, b) == [] {
      ApprovalEntryExactly(hash, c, r, p, now, b, ref);
    }
  }

  // ---- what is listed, kind by kind ----------------------------------------

  /** The grant's status is not on record, or is of another revision, or is not active. */
  ghost predicate GrantBlamed(r: Resolver, b: Binding, e: ChangedInput) {
    && e.id == b.grantId && e.expected == "revision=" + b.grantRevision + ";status=active"
    && if b.grantId !in r.grants then e.observed == "missing" else
         var s := r.grants[b.grantId];
         && (s.revision != b.grantRevision || s.status != GrantState.Active)
         && e.observed == "revision=" + s.revision + ";status=" +
              (match s.status case Active => "active" case Suspended => "suspended" case Revoked => "revoked"
                              case Unknown => "unknown") + ";version=" + s.version
  }

  /** The policy is not on record, or is another version, or is not active. */
  ghost predicate PolicyBlamed(r: Resolver, item: PolicyRef, e: ChangedInput) {
    && e.id == item.ref && e.expected == "version=" + item.version + ";status=active"
    && if item.ref !in r.policies then e.observed == "missing" else
         var s := r.policies[item.ref];
         && (s.version != item.version || s.status != PolicyState.Active)
         && e.observed == "version=" + s.version + ";status=" +
              (match s.status case Active => "active" case Superseded => "superseded" case Unknown => "unknown")
  }

  /** The approval is not on record, or differs in grant, revision, status, operation or policies. */
  ghost predicate ApprovalBlamed(hash: Hash, r: Resolver, ref: string, b: Binding, e: ChangedInput) {
    var expected := Commitment(hash, PoliciesJson(b.policyVersions));
    && e.id == ref
    && e.expected == "grant_revision=" + b.grantRevision + ";status=" + "active" + ";proposal="
                     + b.proposalCommitment + ";policies=" + expected
    && if ref !in r.approvals then e.observed == "missing" else
         var s := r.approvals[ref];
         var policies := Commitment(hash, PoliciesJson(s.policyVersions));
         && (|| s.grantId != b.grantId || s.grantRevision != b.grantRevision || s.status != ApprovalState.Active
             || s.proposalCommitment != b.proposalCommitment || policies != expected)
         && e.observed == "grant_revision=" + s.grantRevision + ";status=" +
              (match s.status case Active => "active" case Revoked => "revoked" case Unknown => "unknown")
              + ";proposal=" + s.proposalCommitment + ";policies=" + policies
  }

  /** Evidence an authorization requires is not on record, or is not current. */
  ghost predicate EvidenceBlamed(r: Resolver, o: Obligation, e: ChangedInput) {
    && o.required && o.kind == "authorization" && e.id == o.obligationId && e.expected == "state=current"
    && if o.obligationId !in r.evidence then e.observed == "missing" else
         var s := r.evidence[o.obligationId];
         && s.state != EvidenceState.Current
         && e.observed == "state=" +
              (match s.state case Current => "current" case Stale => "stale" case Unknown => "unknown")
              + ";observed_at=" + IntText(s.observedAt)
  }

  /** The role mapping is not on record, or is another version, or has another digest. */
  ghost predicate MappingBlamed(r: Resolver, b: Binding, e: ChangedInput) {
    && e.expected == "version=" + b.roleMappingVersion + ";digest=" + b.roleMappingDigest
    && if e.id !in r.roleMappings then e.observed == "missing" else
         var s := r.roleMappings[e.id];
         && (s.version != b.roleMappingVersion || s.digest != b.roleMappingDigest)
         && e.observed == "version=" + s.version + ";digest=" + s.digest
  }

  ghost predicate Refers(r: Resolver, p: Proposal, ref: string) {
    exists ctx: Context, g: Grant :: Terms.IsContext(r, p, ctx) && ctx.grant == Some(g) && ref in g.approvalRefs
  }

  ghost predicate Obliges(r: Resolver, p: Proposal, o: Obligation) {
    exists ctx: Context :: Terms.IsContext(r, p, ctx) && o in ctx.requirement.evidence
  }

  /** The institution of the context, or no name when there is no context. */
  ghost predicate Houses(r: Resolver, p: Proposal, institutionId: string) {
    || (exists ctx: Context :: Terms.IsContext(r, p, ctx) && ctx.institution.institutionId == institutionId)
    || (institutionId == "" && forall ctx: Context :: !Terms.IsContext(r, p, ctx))
  }

  ghost predicate Blamed(hash: Hash, r: Resolver, p: Proposal, b: Binding, e: ChangedInput) {
    match e.kind
    case GrantInput => GrantBlamed(r, b, e)
    case PolicyInput => exists item | item in b.policyVersions :: PolicyBlamed(r, item, e)
    case ApprovalInput => exists ref | Refers(r, p, ref) :: ApprovalBlamed(hash, r, ref, b, e)
    case EvidenceInput => exists o | Obliges(r, p, o) :: EvidenceBlamed(r, o, e)
    case RoleMappingInput => Houses(r, p, e.id) && MappingBlamed(r, b, e)
  }

  lemma {:induction false} PoliciesBlamed(r: Resolver, items: seq<PolicyRef>, e: ChangedInput)
    ensures e in PolicyEntries(r, items) <==>
      e.kind == PolicyInput && exists item | item in items :: PolicyBlamed(r, item, e)
  {
    hide PolicyEntry, PolicyBlamed;
    if items != [] {
      var n := |items| - 1;
      PoliciesBlamed(r, items[..n], e);
      assert items == items[..n] + [items[n]];
      PolicyIsBlamed(r, items[n], e);
    }
  }

  lemma PolicyIsBlamed(r: Resolver, item: PolicyRef, e: ChangedInput)
    ensures e in PolicyEntry(r, item) <==> e.kind == PolicyInput && PolicyBlamed(r, item, e)
  {}

  lemma {:induction false} ApprovalsBlamed(hash: Hash, r: Resolver, refs: seq<string>, b: Binding, e: ChangedInput)
    ensures e in ApprovalEntries(hash, r, refs, b) <==>
      e.kind == ApprovalInput && exists ref | ref in refs :: ApprovalBlamed(hash, r, ref, b, e)
  {
    hide ApprovalEntry, ApprovalBlamed;
    if refs != [] {
      var n := |refs| - 1;
      ApprovalsBlamed(hash, r, refs[..n], b, e);
      assert refs == refs[..n] + [refs[n]];
      ApprovalIsBlamed(hash, r, refs[n], b, e);
    }
  }

  lemma ApprovalIsBlamed(hash: Hash, r: Resolver, ref: string, b: Binding, e: ChangedInput)
    ensures e in ApprovalEntry(hash, r, ref, b) <==> e.kind == ApprovalInput && ApprovalBlamed(hash, r, ref, b, e)
  {
    hide Commitment, PoliciesJson;
  }

  lemma {:induction false} AllEvidenceBlamed(r: Resolver, os: seq<Obligation>, e: ChangedInput)
    ensures e in EvidenceEntries(r, os) <==>
      e.kind == EvidenceInput && exists o | o in os :: EvidenceBlamed(r, o, e)
  {
    hide EvidenceEntry, EvidenceBlamed;
    if os != [] {
      var n := |os| - 1;
      AllEvidenceBlamed(r, os[..n], e);
      assert os == os[..n] + [os[n]];
      EvidenceIsBlamed(r, os[n], e);
    }
  }

  lemma EvidenceIsBlamed(r: Resolver, o: Obligation, e: ChangedInput)
    ensures e in EvidenceEntry(r, o) <==> e.kind == EvidenceInput && EvidenceBlamed(r, o, e)
  {}

  lemma GrantIsBlamed(r: Resolver, b: Binding, e: ChangedInput)
    ensures e in GrantEntries(r, b) <==> e.kind == GrantInput && GrantBlamed(r, b, e)
  {}

  lemma MappingIsBlamed(r: Resolver, institutionId: string, b: Binding, e: ChangedInput)
    ensures e in MappingEntries(r, institutionId, b) <==>
      e.kind == RoleMappingInput && e.id == institutionId && MappingBlamed(r, b, e)
  {}

  lemma ContextParts(r: Resolver, p: Proposal)
    ensures forall ref :: ref in ApprovalRefsIn(ContextOf(r, p)) <==> Refers(r, p, ref)
    ensures forall o :: o in ObligationsIn(ContextOf(r, p)) <==> Obliges(r, p, o)
    ensures forall i :: i == InstitutionIn(ContextOf(r, p)) <==> Houses(r, p, i)
  {
    forall ctx: Context ensures Terms.IsContext(r, p, ctx) <==> ContextOf(r, p) == Some(ctx) {}
    if ContextOf(r, p).Some? { assert Terms.IsContext(r, p, ContextOf(r, p).value); }
  }

  /** What a refusal blames, for every authority source and binding: an entry is listed exactly when
      the input it names is missing or differs from what was bound, and it says what was expected and
      what was seen. */
  lemma ListedExactly(hash: Hash, r: Resolver, p: Proposal, b: Binding, e: ChangedInput)
    ensures e in Changed(hash, r, p, b) <==> Blamed(hash, r, p, b, e)
  {
    hide GrantEntries, PolicyEntries, ApprovalEntries, EvidenceEntries, MappingEntries, Refers, Obliges, Houses;
    hide GrantBlamed, PolicyBlamed, ApprovalBlamed, EvidenceBlamed, MappingBlamed;
    hide ApprovalRefsIn, ObligationsIn, InstitutionIn, ContextOf;
    var ctx := ContextOf(r, p);
    ContextParts(r, p);
    GrantIsBlamed(r, b, e);
    PoliciesBlamed(r, b.policyVersions, e);
    ApprovalsBlamed(hash, r, ApprovalRefsIn(ctx), b, e);
    AllEvidenceBlamed(r, ObligationsIn(ctx), e);
    MappingIsBlamed(r, InstitutionIn(ctx), b, e);
  }

  /** Approvals are the exception: in a state that still authorizes the binding, a reference is
      listed exactly when it does not resolve, or fills no required role and does not match. */
  lemma ApprovalListedExactly(hash: Hash, c: Config, r: Resolver, p: Proposal, now: Time, b: Binding, ref: string)
    requires Resolve(hash, c, r, p, now).binding == Some(b) && Refers(r, p, ref)
    ensures (exists e | e in Changed(hash, r, p, b) :: e.kind == ApprovalInput && e.id == ref) <==>
      || ref !in r.approvals
      || var a := r.approvals[ref];
         && (forall ctx: Context | Terms.IsContext(r, p, ctx) :: !RoleRequired(a.roleId, ctx))
         && (|| a.grantId != b.grantId || a.grantRevision != b.grantRevision || a.status != ApprovalState.Active
             || a.proposalCommitment != b.proposalCommitment
             || Commitment(hash, PoliciesJson(a.policyVersions)) != Commitment(hash, PoliciesJson(b.policyVersions)))
  {
    hide Resolve, Commitment, PoliciesJson, ApprovalRefsIn, RoleRequired, Changed;
    ContextParts(r, p);
    ApprovalEntryExactly(hash, c, r, p, now, b, ref);
    OneContext(r, p);
    forall e ensures e in Changed(hash, r, p, b) <==> Blamed(hash, r, p, b, e) { ListedExactly(hash, r, p, b, e); }
    hide Refers;
    if ApprovalEntry(hash, r, ref, b) != [] {
      var e := ApprovalEntry(hash, r, ref, b)[0];
      ApprovalIsBlamed(hash, r, ref, b, e);
      assert e in Changed(hash, r, p, b);
    } else if e :| e in Changed(hash, r, p, b) && e.kind == ApprovalInput && e.id == ref {
      assert ApprovalBlamed(hash, r, ref, b, e);
      ApprovalIsBlamed(hash, r, ref, b, e);
    }
  }

  lemma OneContext(r: Resolver, p: Proposal)
    ensures forall ctx: Context :: Terms.IsContext(r, p, ctx) <==> ContextOf(r, p) == Some(ctx)
  {}
}
