/** Why a resolution refuses. */
module Reasons {
  import opened Text

  datatype Reason =
    | UnsupportedManifestVersion | ManifestVersionMismatch | ManifestIdMismatch | ManifestDigestMismatch
    | PayloadCommitmentMismatch | UnknownAction | AdapterMismatch | TargetOutOfScope | MissingPayloadPolicy
    | MissingRequiredPayloadField | ForbiddenPayloadField | UndeclaredPayloadField | EffectCountExceeded
    | AmountExceeded | AmountUnitMismatch | MissingRequestedPermission | AuthorityProfileMismatch
    | AuthorityRequirementMismatch | ProposalNotYetValid | ProposalExpired
    | AuthorityContextMissing | TenantContextMismatch | ContextVersionMismatch | ContextStatusMismatch
    | ProposalIdentityBindingMismatch | InstitutionMismatch | AuthorityDomainMismatch
    | ConsequenceTierMismatch | RoleMappingMissing | RoleMappingInvalid | ReviewRequirementNotResolved
    | IssuedGrantMissing | IdentityBindingMismatch | IdentityOrDelegationInvalid | IdentityStaleOrFuture
    | MandateBindingMismatch | MandateInvalid | MandateStaleOrFuture | GrantNotActive
    | GrantStatusBindingMismatch | GrantTenantMismatch | GrantRevisionStale | GrantStatusStaleOrFuture
    | GrantRequirementMismatch | GrantIdentityMismatch | GrantOutsideValidity | RequirementScopeMismatch
    | GrantScopeMismatch | DelegationChainMissing | ConflictUnresolved | ConflictBindingMismatch
    | ConflictStaleOrFuture | PolicyStaleOrChanged | PolicyBindingMismatch | PolicyTenantMismatch
    | PolicyStatusStaleOrFuture | ApprovalBindingMismatch | ApprovalTenantMismatch
    | RequiredApprovalMissing | ApprovalNotActive | ApprovalStaleOrFuture | ApprovalGrantMismatch
    | ApprovalOperationMismatch | ApprovalPolicyMismatch | ApprovalIndependenceViolation
    | EvidenceBindingMismatch | RequiredEvidenceNotCurrent | RequiredEvidenceStaleOrFuture
    | ContextUnknownRequiresHold

  function Code(r: Reason): string {
    match r
    case UnsupportedManifestVersion => "unsupported_manifest_version"
    case ManifestVersionMismatch => "manifest_version_mismatch"
    case ManifestIdMismatch => "manifest_id_mismatch"
    case ManifestDigestMismatch => "manifest_digest_mismatch"
    case PayloadCommitmentMismatch => "payload_commitment_mismatch"
    case UnknownAction => "unknown_action"
    case AdapterMismatch => "adapter_mismatch"
    case TargetOutOfScope => "target_out_of_scope"
    case MissingPayloadPolicy => "missing_payload_policy"
    case MissingRequiredPayloadField => "missing_required_payload_field"
    case ForbiddenPayloadField => "forbidden_payload_field"
    case UndeclaredPayloadField => "undeclared_payload_field"
    case EffectCountExceeded => "effect_count_exceeded"
    case AmountExceeded => "amount_exceeded"
    case AmountUnitMismatch => "amount_unit_mismatch"
    case MissingRequestedPermission => "missing_requested_permission"
    case AuthorityProfileMismatch => "authority_profile_mismatch"
    case AuthorityRequirementMismatch => "authority_requirement_mismatch"
    case ProposalNotYetValid => "proposal_not_yet_valid"
    case ProposalExpired => "proposal_expired"
    case AuthorityContextMissing => "authority_context_missing"
    case TenantContextMismatch => "tenant_context_mismatch"
    case ContextVersionMismatch => "authority_context_version_mismatch"
    case ContextStatusMismatch => "authority_context_status_mismatch"
    case ProposalIdentityBindingMismatch => "proposal_identity_binding_mismatch"
    case InstitutionMismatch => "institution_mismatch"
    case AuthorityDomainMismatch => "authority_domain_mismatch"
    case ConsequenceTierMismatch => "consequence_tier_mismatch"
    case RoleMappingMissing => "role_mapping_missing"
    case RoleMappingInvalid => "role_mapping_invalid"
    case ReviewRequirementNotResolved => "review_requirement_not_resolved"
    case IssuedGrantMissing => "issued_grant_missing"
    case IdentityBindingMismatch => "identity_binding_mismatch"
    case IdentityOrDelegationInvalid => "identity_or_delegation_invalid"
    case IdentityStaleOrFuture => "identity_status_stale_or_future"
    case MandateBindingMismatch => "issuer_mandate_binding_mismatch"
    case MandateInvalid => "issuer_mandate_invalid"
    case MandateStaleOrFuture => "issuer_mandate_stale_or_future"
    case GrantNotActive => "grant_not_active"
    case GrantStatusBindingMismatch => "grant_status_binding_mismatch"
    case GrantTenantMismatch => "grant_tenant_mismatch"
    case GrantRevisionStale => "grant_revision_stale"
    case GrantStatusStaleOrFuture => "grant_status_stale_or_future"
    case GrantRequirementMismatch => "grant_requirement_mismatch"
    case GrantIdentityMismatch => "grant_identity_mismatch"
    case GrantOutsideValidity => "grant_outside_validity"
    case RequirementScopeMismatch => "requirement_scope_mismatch"
    case GrantScopeMismatch => "grant_scope_mismatch"
    case DelegationChainMissing => "delegation_chain_missing"
    case ConflictUnresolved => "authority_conflict_unresolved"
    case ConflictBindingMismatch => "conflict_status_binding_mismatch"
    case ConflictStaleOrFuture => "conflict_status_stale_or_future"
    case PolicyStaleOrChanged => "policy_stale_or_changed"
    case PolicyBindingMismatch => "policy_binding_mismatch"
    case PolicyTenantMismatch => "policy_tenant_mismatch"
    case PolicyStatusStaleOrFuture => "policy_status_stale_or_future"
    case ApprovalBindingMismatch => "approval_binding_mismatch"
    case ApprovalTenantMismatch => "approval_tenant_mismatch"
    case RequiredApprovalMissing => "required_approval_missing"
    case ApprovalNotActive => "approval_not_active"
    case ApprovalStaleOrFuture => "approval_status_stale_or_future"
    case ApprovalGrantMismatch => "approval_grant_binding_mismatch"
    case ApprovalOperationMismatch => "approval_operation_binding_mismatch"
    case ApprovalPolicyMismatch => "approval_policy_binding_mismatch"
    case ApprovalIndependenceViolation => "approval_independence_violation"
    case EvidenceBindingMismatch => "evidence_binding_mismatch"
    case RequiredEvidenceNotCurrent => "required_evidence_not_current"
    case RequiredEvidenceStaleOrFuture => "required_evidence_stale_or_future"
    case ContextUnknownRequiresHold => "context_unknown_requires_hold"
  }

  function Codes(rs: seq<Reason>): seq<string> {
    seq(|rs|, i requires 0 <= i < |rs| => Code(rs[i]))
  }

  /** sorted(set(reasons)) */
  function Report(rs: seq<Reason>): (r: seq<string>)
    ensures StrictlySorted(r)
    ensures r == [] <==> rs == []
    ensures forall c :: c in r <==> exists i :: 0 <= i < |rs| && Code(rs[i]) == c
  {
    var codes := Codes(rs);
    assert rs != [] ==> codes[0] in codes;
    assert forall i | 0 <= i < |rs| :: codes[i] == Code(rs[i]);
    assert forall c :: c in codes <==> exists i :: 0 <= i < |codes| && codes[i] == c;
    SortedSet(codes)
  }

  function When<T>(c: bool, r: T): seq<T> {
    if c then [r] else []
  }

  /** if bad: reasons.append(reason) */
  method AppendWhen<T>(reasons: seq<T>, bad: bool, reason: T) returns (more: seq<T>)
    ensures more == reasons + When(bad, reason)
    ensures reasons == [] ==> more == When(bad, reason)
  {
    more := reasons;
    if bad {
      more := more + [reason];
    }
  }
}
