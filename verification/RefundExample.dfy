/** One concrete refund: an authority state that authorizes it, and runs that show what
    authorization alone leaves open. */
module RefundExample {
  import opened Text
  import opened CanonicalJson
  import opened Commitments
  import opened Authority
  import opened Resolution
  import opened ResolutionLaws
  import opened Destination
  import opened RunRecords
  import opened Reconciliations
  import opened ChangedInputs
  import opened Workflow
  import opened SingleCall

  // ---- the refund and its authority ----------------------------------------

  const NOW: Time := 10
  const PERMISSION := Permission("issue_refund", ["account-1"], ["refunds"], 100, "EUR", 1)
  const HOUSE := Institution("house", "refunds", "basis")
  const REQUIREMENT := Requirement("requirement", [PERMISSION], [], [], Some("C2"), Obj([]))
  const ACTION := Action(
    "refund", "issue_refund", "refund_tool", Some(TargetPolicy(false, ["account-1"])),
    Some(PayloadPolicy([], [], [])), Some(Limits(Some(1), Some(100), Some("EUR"))), [RequiredScope("refunds", true)],
    Some(DeclaredAuthority(Some("context"), Some("requirement"), Some("house"), Some("refunds"), Some("C2"))), None)
  const MANIFEST := Manifest(Obj([]), Some(MANIFEST_VERSION), Some("manifest"), [ACTION],
      [Tool("refund_tool", "ledger")])
  const CONFIG := Config(MANIFEST, 60, 60, 60, 60, 5, Some(ObservationPolicy(60, 5)))

  function Refund(hash: Hash): Proposal {
    Proposal("manifest", MANIFEST_VERSION, Commitment(hash, Obj([])), "agent", "owner", "refund", "ledger", "account-1",
             [], Commitment(hash, Obj([])), ["refunds"], 40, "EUR", 1, Some("context"), Some("requirement"),
             [], None, None, None, None, [], [], None)
  }

  function GrantWith(approvalRefs: seq<string>): Grant {
    Grant("grant", "1", "requirement", "issuer", "role", "record", "owner", "agent", 0, 100, "status", [],
          [PERMISSION], None, approvalRefs, None)
  }

  function ContextWith(approvalRefs: seq<string>): Context {
    Context(CONTEXT_VERSION, CONTEXT_STATUS, "context", HOUSE, "owner", "agent", None, REQUIREMENT, [],
            Some(GrantWith(approvalRefs)))
  }

  function Mapping(hash: Hash): RoleMapping {
    var undigested := RoleMapping("house", "1", "", []);
    undigested.(digest := MappingDigest(hash, undigested))
  }

  const WITHDRAWN := ApprovalStatus(
    "second-look", "urn:role:manager", "manager", "grant", "1", "", [], ApprovalState.Revoked, 10, "house", "refunds",
        None)

  /** No role is required, so which approvals the grant refers to does not matter to resolution. */
  function Source(hash: Hash, approvalRefs: seq<string>): Resolver {
    Resolver(
      map["context" := ContextWith(approvalRefs)],
      map["grant" := GrantStatus("grant", "1", GrantState.Active, NOW, "7", "status", "basis", "house", "refunds",
          None)],
      map["agent" := IdentityStatus("agent", "owner", true, true, NOW, "house", "refunds", [])],
      map["issuer" + "|" + "role" := MandateStatus("issuer", "role", "record", true, NOW, "house", "refunds")],
      map["second-look" := WITHDRAWN], map[],
      map["requirement" := ConflictStatus("requirement", ConflictState.Clear, NOW, "house", "refunds", [])],
      map[], map["house" := Mapping(hash)], NOW)
  }

  lemma ManifestAdmitsTheRefund(hash: Hash)
    ensures ManifestAdmits(hash, MANIFEST, Refund(hash))
    ensures FindAction(MANIFEST.actions, Refund(hash).actionId) == Some(ACTION)
  {
    assert MANIFEST.actions[0] == ACTION && MANIFEST.tools[0] == Tool("refund_tool", "ledger");
  }

  lemma ScopeCoversTheRefund(hash: Hash)
    ensures InScope(MANIFEST, [PERMISSION], Refund(hash))
  {
    ManifestAdmitsTheRefund(hash);
    assert PERMISSION in [PERMISSION] && Permits(PERMISSION, ACTION, Refund(hash));
  }

  lemma ContextFitsTheRefund(hash: Hash, refs: seq<string>)
    ensures ContextFits(MANIFEST, ContextWith(refs), Refund(hash))
    ensures MappingHolds(hash, Source(hash, refs), ContextWith(refs))
    ensures Reviewed(MANIFEST, Source(hash, refs), ContextWith(refs), Refund(hash))
  {
    ManifestAdmitsTheRefund(hash);
  }

  lemma GrantAuthorizesTheRefund(hash: Hash, refs: seq<string>)
    ensures GrantAuthorizes(hash, CONFIG, Source(hash, refs), ContextWith(refs), GrantWith(refs), Refund(hash), NOW)
  {
    hide ProposalCommitment, InScope, MappingDigest, RequirementApproved, EvidenceHolds, PolicyHolds;
    ScopeCoversTheRefund(hash);
  }

  /** The refund is authorized, whichever approvals the grant refers to. */
  lemma RefundIsAuthorized(hash: Hash, refs: seq<string>)
    ensures ResolutionLaws.Authorized(hash, CONFIG, Source(hash, refs), Refund(hash), NOW)
    ensures Resolve(hash, CONFIG, Source(hash, refs), Refund(hash), NOW).reasons == []
    ensures Resolve(hash, CONFIG, Source(hash, refs), Refund(hash), NOW).binding.Some?
  {
    hide ManifestAdmits, ContextFits, MappingHolds, Reviewed, GrantAuthorizes, Resolve, MappingDigest;
    ManifestAdmitsTheRefund(hash);
    ContextFitsTheRefund(hash, refs);
    GrantAuthorizesTheRefund(hash, refs);
    ResolveDecides(hash, CONFIG, Source(hash, refs), Refund(hash), NOW);
  }

  // ---- a listed approval ---------------------------------------------------

  /** The binding the refund earns. */
  function Bound(hash: Hash, refs: seq<string>): Binding {
    RefundIsAuthorized(hash, refs);
    Resolve(hash, CONFIG, Source(hash, refs), Refund(hash), NOW).binding.value
  }

  /** A state that authorizes the refund under one binding, and in which the changed inputs listed
      for that very binding name an approval all the same. */
  lemma AuthorizedYetListed(hash: Hash)
    ensures var r, b := Source(hash, ["second-look"]), Bound(hash, ["second-look"]);
      && ResolutionLaws.Authorized(hash, CONFIG, r, Refund(hash), NOW)
      && Resolve(hash, CONFIG, r, Refund(hash), NOW).binding == Some(b)
      && exists e | e in Changed(hash, r, Refund(hash), b) :: e.kind == ApprovalInput && e.id == "second-look"
  {
    hide Resolve, ResolutionLaws.Authorized, ApprovalUnchanged, ApprovalText, MappingDigest, PoliciesJson;
    var refs := ["second-look"];
    var r, b := Source(hash, refs), Bound(hash, refs);
    RefundIsAuthorized(hash, refs);
    OnlyApprovalsListed(hash, CONFIG, r, Refund(hash), NOW, b);
    assert ContextOf(r, Refund(hash)) == Some(ContextWith(refs));
    WithdrawnIsListed(hash, r, b);
    assert refs[..0] == [] && refs[0] == "second-look";
    var listed := ApprovalEntry(hash, r, "second-look", b);
    assert ApprovalEntries(hash, r, refs, b) == ApprovalEntries(hash, r, [], b) + listed == listed;
    assert listed[0] in Changed(hash, r, Refund(hash), b);
  }

  lemma WithdrawnIsListed(hash: Hash, r: Resolver, b: Binding)
    requires r.approvals == map["second-look" := WITHDRAWN]
    ensures var listed := ApprovalEntry(hash, r, "second-look", b);
      |listed| == 1 && listed[0].kind == ApprovalInput && listed[0].id == "second-look"
  {
    hide ApprovalText, PoliciesJson, Commitment;
  }
}
