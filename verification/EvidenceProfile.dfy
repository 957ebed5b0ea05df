/** The decision-input profile: classifying evidence by the declared precedence, and accepting a
    record only when everything in it is bound and every required obligation is valid. */
module EvidenceProfile {
  import opened Text
  import opened CanonicalJson
  import opened Commitments
  import opened ProfileRecords

  // ---- the classifier ------------------------------------------------------

  datatype Status = Conflict | Unknown | Stale | Missing | Valid

  const PRECEDENCE := [Conflict, Unknown, Stale, Missing, Valid]

  function Candidates(id: string, items: seq<Item>): (r: seq<Item>)
    ensures forall x :: x in r <==> x in items && id in x.obligationIds
  {
    if items == [] then [] else
      var n := |items| - 1;
      assert items == items[..n] + [items[n]];
      Candidates(id, items[..n]) + (if id in items[n].obligationIds then [items[n]] else [])
  }

  predicate TooOld(o: Obligation, x: Item, now: Time) {
    x.observedAt.Some? && now - x.observedAt.value > o.maxAge
  }

  predicate Disagree(xs: seq<Item>) {
    exists x, y | x in xs && y in xs :: x.content.commitment != y.content.commitment
  }

  /** The classifier as the code runs it: missing first, then down the list, then a fallback. */
  function StatusOf(o: Obligation, items: seq<Item>, now: Time): Status {
    var xs := Candidates(o.id, items);
    if xs == [] then Missing
    else if (exists x | x in xs :: x.state == "conflict") || Disagree(xs) then Conflict
    else if exists x | x in xs :: x.state == "unknown" then Unknown
    else if exists x | x in xs :: TooOld(o, x, now) then Stale
    else if forall x | x in xs :: x.state == "current" then Valid
    else Unknown
  }

  method ClassifyEvidence(o: Obligation, items: seq<Item>, now: Time) returns (status: Status)
    ensures status == StatusOf(o, items, now)
  {
    var xs := Candidates(o.id, items);
    if xs == [] { return Missing; }
    if (exists x | x in xs :: x.state == "conflict") || Disagree(xs) { return Conflict; }
    if exists x | x in xs :: x.state == "unknown" { return Unknown; }
    for i := 0 to |xs|
      invariant forall j | 0 <= j < i :: !TooOld(o, xs[j], now)
    {
      if TooOld(o, xs[i], now) { return Stale; }
    }
    status := if forall x | x in xs :: x.state == "current" then Valid else Unknown;
  }

  /** What each status says by itself, of the evidence that names the obligation. */
  ghost predicate Shows(s: Status, o: Obligation, items: seq<Item>, now: Time) {
    match s
    case Conflict =>
      || (exists x | x in items && o.id in x.obligationIds :: x.state == "conflict")
      || (exists x, y | x in items && y in items && o.id in x.obligationIds && o.id in y.obligationIds ::
            x.content.commitment != y.content.commitment)
    case Unknown => exists x | x in items && o.id in x.obligationIds :: x.state == "unknown"
    case Stale => exists x | x in items && o.id in x.obligationIds ::
        x.observedAt.Some? && now - x.observedAt.value > o.maxAge
    case Missing => forall x | x in items :: o.id !in x.obligationIds
    case Valid => forall x | x in items && o.id in x.obligationIds ::
        x.state == "current" && (x.observedAt.Some? ==> now - x.observedAt.value <= o.maxAge)
  }

  ghost function FirstShown(ranked: seq<Status>, o: Obligation, items: seq<Item>, now: Time): Option<Status> {
    if ranked == [] then None
    else if Shows(ranked[0], o, items, now) then Some(ranked[0])
    else FirstShown(ranked[1..], o, items, now)
  }

  predicate Allowed(state: string) {
    state == "current" || state == "unknown" || state == "conflict"
  }

  ghost predicate StatesAllowed(items: seq<Item>) {
    forall x | x in items :: Allowed(x.state)
  }

  ghost predicate Names(id: string, items: seq<Item>) {
    exists x | x in items :: id in x.obligationIds
  }

  lemma CandidatesMissing(id: string, items: seq<Item>)
    ensures Candidates(id, items) == [] <==> !Names(id, items)
  {
    var xs := Candidates(id, items);
    if xs != [] { assert xs[0] in xs; }
  }

  /** On validated evidence the classifier is the first match in the declared precedence; the list
      is exhaustive, so the code's last fallback is never reached. */
  lemma StatusIsFirstInPrecedence(o: Obligation, items: seq<Item>, now: Time)
    requires StatesAllowed(items)
    ensures FirstShown(PRECEDENCE, o, items, now) == Some(StatusOf(o, items, now))
    ensures StatusOf(o, items, now) == Unknown ==> exists x | x in items && o.id in x.obligationIds ::
        x.state == "unknown"
  {
    CandidatesMissing(o.id, items);
    StatusShows(o, items, now);
    hide StatusOf, Shows;
    assert PRECEDENCE[1..] == [Unknown, Stale, Missing, Valid];
    assert PRECEDENCE[1..][1..] == [Stale, Missing, Valid];
    assert PRECEDENCE[1..][1..][1..] == [Missing, Valid];
    assert PRECEDENCE[1..][1..][1..][1..] == [Valid];
    UnfoldFirst(PRECEDENCE, o, items, now);
    UnfoldFirst(PRECEDENCE[1..], o, items, now);
    UnfoldFirst(PRECEDENCE[1..][1..], o, items, now);
    UnfoldFirst(PRECEDENCE[1..][1..][1..], o, items, now);
    UnfoldFirst(PRECEDENCE[1..][1..][1..][1..], o, items, now);
  }

  lemma UnfoldFirst(ranked: seq<Status>, o: Obligation, items: seq<Item>, now: Time)
    requires ranked != []
    ensures FirstShown(ranked, o, items, now) ==
      if Shows(ranked[0], o, items, now) then Some(ranked[0]) else FirstShown(ranked[1..], o, items, now)
  {}

  /** The status is shown, and nothing above it is. */
  lemma StatusShows(o: Obligation, items: seq<Item>, now: Time)
    requires StatesAllowed(items)
    ensures var s := StatusOf(o, items, now);
      && Shows(s, o, items, now)
      && (s != Conflict ==> !Shows(Conflict, o, items, now))
      && (s != Conflict && s != Unknown ==> !Shows(Unknown, o, items, now))
      && (s == Missing || s == Valid ==> !Shows(Stale, o, items, now))
      && (s == Valid ==> !Shows(Missing, o, items, now))
    ensures StatusOf(o, items, now) == Unknown ==> exists x | x in items && o.id in x.obligationIds ::
        x.state == "unknown"
  {
    CandidatesMissing(o.id, items);
  }

  /** Only which items are there matters, neither their order nor repetition. */
  lemma OrderIsIrrelevant(o: Obligation, xs: seq<Item>, ys: seq<Item>, now: Time)
    requires forall x :: x in xs <==> x in ys
    ensures StatusOf(o, xs, now) == StatusOf(o, ys, now)
  {
    CandidatesMissing(o.id, xs);
    CandidatesMissing(o.id, ys);
    var a, b := Candidates(o.id, xs), Candidates(o.id, ys);
    assert forall x :: x in a <==> x in b;
  }

  /** How bad a status is: its place in the declared precedence. */
  function Rank(s: Status): (n: nat)
    ensures n < |PRECEDENCE| && PRECEDENCE[n] == s
  {
    match s case Conflict => 0 case Unknown => 1 case Stale => 2 case Missing => 3 case Valid => 4
  }

  /** More evidence never improves a status other than missing. */
  lemma MoreEvidenceNeverImproves(o: Obligation, xs: seq<Item>, more: seq<Item>, now: Time)
    requires StatesAllowed(more) && forall x | x in xs :: x in more
    requires StatusOf(o, xs, now) != Missing
    ensures Rank(StatusOf(o, more, now)) <= Rank(StatusOf(o, xs, now))
    ensures StatusOf(o, more, now) != Missing
  {
    CandidatesMissing(o.id, xs);
    CandidatesMissing(o.id, more);
    var a, b := Candidates(o.id, xs), Candidates(o.id, more);
    assert forall x | x in a :: x in b;
  }

  /** Time can only turn a valid obligation stale, and does so exactly when some evidence expires. */
  lemma LaterOnlyExpires(o: Obligation, items: seq<Item>, now: Time, later: Time)
    requires now <= later && StatesAllowed(items)
    ensures var s, t := StatusOf(o, items, now), StatusOf(o, items, later);
      && (t == s || (s == Valid && t == Stale))
      && (s == Valid ==> (t == Stale <==> Shows(Stale, o, items, later)))
  {
    var xs := Candidates(o.id, items);
    assert forall x | x in xs && TooOld(o, x, now) :: TooOld(o, x, later);
    StatusShows(o, items, now);
    StatusShows(o, items, later);
  }

  // ---- the rules of a record -----------------------------------------------

  datatype Code =
    | InputInvalid | CandidateMismatch | PolicyContentMismatch | PolicySemanticsMismatch | EvaluationTimeInvalid
    | ResolverSemanticsMismatch | UnsupportedSemantics | FreshnessInvalid | PolicyBindingFailed
    | ObligationMismatch | ObligationSemanticsMismatch
    | RequirementMismatch | RequirementFailed | ObligationRemoved | ObligationReinterpreted
    | ContentMismatch | ProvenanceMismatch | ObligationUnknown | SourceMismatch | TimeInvalid | TimeFuture
    | StateInvalid | ProvenanceSourceMismatch | ContextMismatch
    | Unsatisfied(status: Status) | InputCommitmentMismatch | ReasonPrecedenceMismatch | RecordMismatch

  /** Setting: the hash, and when a string counts as blank. */
  datatype Setting = Setting(hash: Hash, blank: string -> bool)

  const PROFILE_VERSION := "0.1.0-proposed"
  const CANONICALIZATION := "json-sort-keys-compact-utf8-no-nan-python-semantics-v0.1-proposed"
  const ALGORITHM := "SHA-256"
  const SEMANTICS_ID := "urn:cognous:resolver:required-evidence-v1"
  const ASSURANCE := ["trusted_declaration", "locally_recomputable_commitment", "authenticated_source",
                      "externally_verified_fact"]
  const RESULTS := ["authorized", "hold", "deny"]
  const REASONS := ["INPUT_INVALID", "CANDIDATE_BINDING_FAILED", "INSTITUTIONAL_REQUIREMENT_FAILED",
                    "POLICY_BINDING_FAILED", "EVIDENCE_UNSATISFIED", "CONTEXT_OR_TIME_FAILED",
                    "RESOLVER_SEMANTICS_FAILED", "DECISION_INCONSISTENT"]
  const SUPPORTED := Obj([
    Field("classifier", Str("exact-source-current-with-max-age")), Field("version", Str("1")),
    Field("admissible_source", Str("exact-match")), Field("future_observation", Str("reject")),
    Field("precedence", Arr([Str("CONFLICT"), Str("UNKNOWN"), Str("STALE"), Str("MISSING"), Str("VALID")]))])

  predicate Prefixed(c: string) {
    "sha256:" <= c
  }

  /** The declared commitment is that of the value. */
  ghost predicate Bound(g: Setting, n: Named) {
    n.commitment == Commitment(g.hash, n.value)
  }

  /** A missing or malformed commitment is invalid input; a wrong one has a code of its own. */
  function NamedFault(g: Setting, n: Named, code: Code): Option<Code> {
    if !Prefixed(n.commitment) then Some(InputInvalid)
    else if Commitment(g.hash, n.value) != n.commitment then Some(code)
    else None
  }

  function Or(a: Option<Code>, b: Option<Code>): Option<Code> {
    if a.Some? then a else b
  }

  function When(bad: bool, code: Code): Option<Code> {
    if bad then Some(code) else None
  }

  // policies

  predicate HasPolicy(ps: seq<Policy>, ref: string, version: string) {
    exists p | p in ps :: p.ref == ref && p.version == version
  }

  function PolicyFault(g: Setting, before: seq<Policy>, p: Policy): Option<Code> {
    Or(When(g.blank(p.ref) || g.blank(p.version) || HasPolicy(before, p.ref, p.version), InputInvalid),
    Or(NamedFault(g, p.content, PolicyContentMismatch), NamedFault(g, p.semantics, PolicySemanticsMismatch)))
  }

  function PoliciesFault(g: Setting, before: seq<Policy>, ps: seq<Policy>): Option<Code>
    decreases |ps|
  {
    if ps == [] then None
    else Or(PolicyFault(g, before, ps[0]), PoliciesFault(g, before + [ps[0]], ps[1..]))
  }

  // obligations

  predicate HasObligation(os: seq<Obligation>, id: string) {
    exists o | o in os :: o.id == id
  }

  function FieldsFault(g: Setting, o: Obligation): Option<Code> {
    Or(When(g.blank(o.id) || g.blank(o.originRef) || g.blank(o.originVersion) || g.blank(o.sourceRef), InputInvalid),
    Or(When(o.maxAge < 0, FreshnessInvalid),
       When(g.blank(o.semanticsId) || !Prefixed(o.semanticsCommitment), InputInvalid)))
  }

  function ObligationFault(g: Setting, ps: seq<Policy>, supported: string, before: seq<Obligation>,
      o: Obligation): Option<Code> {
    Or(FieldsFault(g, o),
    Or(When(HasObligation(before, o.id), InputInvalid),
    Or(When(!HasPolicy(ps, o.originRef, o.originVersion), PolicyBindingFailed),
    Or(When(o.commitment != Commitment(g.hash, ObligationJson(o)), ObligationMismatch),
       When(o.semanticsId != SEMANTICS_ID || o.semanticsCommitment != supported, ObligationSemanticsMismatch)))))
  }

  function ObligationsFault(g: Setting, ps: seq<Policy>, supported: string, before: seq<Obligation>,
                            os: seq<Obligation>): Option<Code>
    decreases |os|
  {
    if os == [] then None
    else Or(ObligationFault(g, ps, supported, before, os[0]),
            ObligationsFault(g, ps, supported, before + [os[0]], os[1..]))
  }

  // institutional requirements

  function ExpectationFault(os: seq<Obligation>, r: Requirement, e: Expectation): Option<Code> {
    Or(When(!HasObligation(os, e.obligationId), ObligationRemoved),
       When(exists o | o in os ::
           o.id == e.obligationId && (o.commitment != e.commitment || o.originRef != r.originRef),
            ObligationReinterpreted))
  }

  function ExpectationsFault(os: seq<Obligation>, r: Requirement, es: seq<Expectation>): Option<Code> {
    if es == [] then None else Or(ExpectationFault(os, r, es[0]), ExpectationsFault(os, r, es[1..]))
  }

  function RequirementFault(g: Setting, os: seq<Obligation>, r: Requirement): Option<Code> {
    Or(NamedFault(g, r.content, RequirementMismatch),
    Or(When(!r.nonOverridable, RequirementFailed), ExpectationsFault(os, r, r.expected)))
  }

  function RequirementsFault(g: Setting, os: seq<Obligation>, rs: seq<Requirement>): Option<Code> {
    if rs == [] then None else Or(RequirementFault(g, os, rs[0]), RequirementsFault(g, os, rs[1..]))
  }

  // evidence

  predicate Distinct(xs: seq<string>) {
    forall i, j | 0 <= i < j < |xs| :: xs[i] != xs[j]
  }

  function ClaimFault(os: seq<Obligation>, x: Item, id: string): Option<Code> {
    Or(When(!HasObligation(os, id), ObligationUnknown),
       When(exists o | o in os :: o.id == id && o.sourceRef != x.sourceRef, SourceMismatch))
  }

  function ClaimsFault(os: seq<Obligation>, x: Item, ids: seq<string>): Option<Code> {
    if ids == [] then None else Or(ClaimFault(os, x, ids[0]), ClaimsFault(os, x, ids[1..]))
  }

  function ItemFault(g: Setting, os: seq<Obligation>, x: Item, now: Time): Option<Code> {
    Or(NamedFault(g, x.content, ContentMismatch),
    Or(NamedFault(g, x.provenance, ProvenanceMismatch),
    Or(When(x.assuranceClass !in ASSURANCE, InputInvalid),
    Or(When(g.blank(x.id) || x.obligationIds == [] || "" in x.obligationIds || !Distinct(x.obligationIds)
            || g.blank(x.sourceRef), InputInvalid),
    Or(ClaimsFault(os, x, x.obligationIds),
    Or(When(x.observedAt.None?, TimeInvalid),
    Or(When(x.observedAt.Some? && x.observedAt.value > now, TimeFuture),
    Or(When(!Allowed(x.state), StateInvalid),
    Or(When(SourceIn(x.provenance.value).None? || g.blank(SourceIn(x.provenance.value).value), InputInvalid),
       When(SourceIn(x.provenance.value) != Some(x.sourceRef), ProvenanceSourceMismatch))))))))))
  }

  function ItemsFault(g: Setting, os: seq<Obligation>, xs: seq<Item>, now: Time): Option<Code> {
    if xs == [] then None else Or(ItemFault(g, os, xs[0], now), ItemsFault(g, os, xs[1..], now))
  }

  // statuses

  function StatusFault(o: Obligation, items: seq<Item>, now: Time): Option<Code> {
    When(o.required && StatusOf(o, items, now) != Valid, Unsatisfied(StatusOf(o, items, now)))
  }

  function StatusesFault(os: seq<Obligation>, items: seq<Item>, now: Time): Option<Code> {
    if os == [] then None else Or(StatusFault(os[0], items, now), StatusesFault(os[1..], items, now))
  }

  // the record

  function HeaderFault(g: Setting, r: ProfileRecord): Option<Code> {
    Or(When(r.profileVersion != PROFILE_VERSION || r.authorizing || r.canonicalization != CANONICALIZATION
            || r.algorithm != ALGORITHM, InputInvalid),
    Or(NamedFault(g, r.candidate, CandidateMismatch),
       When(exists a | a in r.assurance :: a.assurance !in ASSURANCE, InputInvalid)))
  }

  function ResolverFault(g: Setting, n: Named): Option<Code> {
    Or(NamedFault(g, n, ResolverSemanticsMismatch), When(Normal(n.value) != Normal(SUPPORTED), UnsupportedSemantics))
  }

  function OutcomeFault(g: Setting, r: ProfileRecord): Option<Code> {
    Or(When(r.decision.inputCommitment != Commitment(g.hash, InputsJson(r)), InputCommitmentMismatch),
    Or(When(r.decision.reasonPrecedence != REASONS, ReasonPrecedenceMismatch),
    Or(When(r.decision.result !in RESULTS || r.decision.primaryReason.None?, InputInvalid),
       When(r.commitment != Commitment(g.hash, ProtectedJson(r)), RecordMismatch))))
  }

  /** The first thing wrong with a record, in the order the verifier looks. */
  function Fault(g: Setting, r: ProfileRecord): Option<Code> {
    Or(HeaderFault(g, r),
    Or(PoliciesFault(g, [], r.policies),
    Or(When(r.evaluationTime.None?, EvaluationTimeInvalid),
    Or(ResolverFault(g, r.resolver),
    Or(ObligationsFault(g, r.policies, r.resolver.commitment, [], r.obligations),
    Or(RequirementsFault(g, r.obligations, r.requirements),
    Or(ItemsFault(g, r.obligations, r.evidence, r.evaluationTime.GetOr(0)),
    Or(NamedFault(g, r.context, ContextMismatch),
    Or(StatusesFault(r.obligations, r.evidence, r.evaluationTime.GetOr(0)),
       OutcomeFault(g, r))))))))))
  }

  // ---- the verifier --------------------------------------------------------

  datatype Verdict = Rejected(code: Code) | Accepted(statuses: map<string, Status>)

  method CheckNamed(g: Setting, n: Named, code: Code) returns (fault: Option<Code>)
    ensures fault == NamedFault(g, n, code)
  {
    if !("sha256:" <= n.commitment) { return Some(InputInvalid); }
    if n.commitment != Commitment(g.hash, n.value) { return Some(code); }
    fault := None;
  }

  method CheckHeader(g: Setting, r: ProfileRecord) returns (fault: Option<Code>)
    ensures fault == HeaderFault(g, r)
  {
    hide NamedFault, PROFILE_VERSION, CANONICALIZATION, ALGORITHM, ASSURANCE;
    if r.profileVersion != PROFILE_VERSION { return Some(InputInvalid); }
    if r.authorizing { return Some(InputInvalid); }
    if r.canonicalization != CANONICALIZATION || r.algorithm != ALGORITHM { return Some(InputInvalid); }
    fault := CheckNamed(g, r.candidate, CandidateMismatch);
    if fault.Some? { return; }
    for i := 0 to |r.assurance|
      invariant forall j | 0 <= j < i :: r.assurance[j].assurance in ASSURANCE
    {
      if r.assurance[i].assurance !in ASSURANCE { return Some(InputInvalid); }
    }
    fault := None;
  }

  method CheckResolver(g: Setting, n: Named) returns (fault: Option<Code>)
    ensures fault == ResolverFault(g, n)
  {
    hide NamedFault, Normal, SUPPORTED;
    fault := CheckNamed(g, n, ResolverSemanticsMismatch);
    if fault.Some? { return; }
    if Normal(n.value) != Normal(SUPPORTED) { return Some(UnsupportedSemantics); }
    fault := None;
  }

  method CheckFields(g: Setting, o: Obligation) returns (fault: Option<Code>)
    ensures fault == FieldsFault(g, o)
  {
    if g.blank(o.id) || g.blank(o.originRef) || g.blank(o.originVersion) || g.blank(o.sourceRef) {
      return Some(InputInvalid);
    }
    if o.maxAge < 0 { return Some(FreshnessInvalid); }
    if g.blank(o.semanticsId) || !("sha256:" <= o.semanticsCommitment) { return Some(InputInvalid); }
    fault := None;
  }

  method CheckOutcome(g: Setting, r: ProfileRecord) returns (fault: Option<Code>)
    ensures fault == OutcomeFault(g, r)
  {
    hide Commitment, InputsJson, ProtectedJson, REASONS, RESULTS;
    if r.decision.inputCommitment != Commitment(g.hash, InputsJson(r)) { return Some(InputCommitmentMismatch); }
    if r.decision.reasonPrecedence != REASONS { return Some(ReasonPrecedenceMismatch); }
    if r.decision.result !in RESULTS || r.decision.primaryReason.None? { return Some(InputInvalid); }
    if r.commitment != Commitment(g.hash, ProtectedJson(r)) { return Some(RecordMismatch); }
    fault := None;
  }

  method CheckPolicies(g: Setting, ps: seq<Policy>) returns (fault: Option<Code>)
    ensures fault == PoliciesFault(g, [], ps)
  {
    var byPolicy: map<(string, string), Policy> := map[];
    for i := 0 to |ps|
      invariant PoliciesFault(g, [], ps) == PoliciesFault(g, ps[..i], ps[i..])
      invariant forall ref, version :: (ref, version) in byPolicy <==> HasPolicy(ps[..i], ref, version)
    {
      var p := ps[i];
      assert ps[..i + 1] == ps[..i] + [p] && ps[i..][0] == p && ps[i..][1..] == ps[i + 1..];
      if g.blank(p.ref) || g.blank(p.version) || (p.ref, p.version) in byPolicy { return Some(InputInvalid); }
      fault := CheckNamed(g, p.content, PolicyContentMismatch);
      if fault.Some? { return; }
      fault := CheckNamed(g, p.semantics, PolicySemanticsMismatch);
      if fault.Some? { return; }
      byPolicy := byPolicy[(p.ref, p.version) := p];
    }
    fault := None;
  }

  /** The dictionary by id, of obligations whose ids differ. */
  ghost predicate Indexes(m: map<string, Obligation>, os: seq<Obligation>) {
    && (forall o | o in os :: o.id in m && m[o.id] == o)
    && (forall id | id in m :: m[id] in os && m[id].id == id)
  }

  lemma IndexedIsThere(m: map<string, Obligation>, os: seq<Obligation>, id: string)
    requires Indexes(m, os)
    ensures id in m <==> HasObligation(os, id)
  {}

  lemma IndexGrows(m: map<string, Obligation>, os: seq<Obligation>, o: Obligation)
    requires Indexes(m, os) && o.id !in m
    ensures Indexes(m[o.id := o], os + [o])
  {}

  method CheckObligation(g: Setting, ps: seq<Policy>, supported: string, byObligation: map<string, Obligation>,
                         ghost before: seq<Obligation>, o: Obligation)
    returns (fault: Option<Code>)
    requires Indexes(byObligation, before)
    ensures fault == ObligationFault(g, ps, supported, before, o)
    ensures fault.None? ==> o.id !in byObligation
  {
    hide Commitment, ObligationJson, SEMANTICS_ID, HasPolicy, Indexes, HasObligation, FieldsFault;
    IndexedIsThere(byObligation, before, o.id);
    fault := CheckFields(g, o);
    if fault.Some? { return; }
    if o.id in byObligation { return Some(InputInvalid); }
    if !HasPolicy(ps, o.originRef, o.originVersion) { return Some(PolicyBindingFailed); }
    if o.commitment != Commitment(g.hash, ObligationJson(o)) { return Some(ObligationMismatch); }
    if o.semanticsId != SEMANTICS_ID || o.semanticsCommitment != supported {
      return Some(ObligationSemanticsMismatch);
    }
  }

  method CheckObligations(g: Setting, ps: seq<Policy>, supported: string, os: seq<Obligation>)
    returns (fault: Option<Code>, byObligation: map<string, Obligation>)
    ensures fault == ObligationsFault(g, ps, supported, [], os)
    ensures fault.None? ==> Indexes(byObligation, os)
  {
    hide ObligationFault, Indexes;
    byObligation := map[];
    NothingIndexed();
    for i := 0 to |os|
      invariant ObligationsFault(g, ps, supported, [], os) == ObligationsFault(g, ps, supported, os[..i], os[i..])
      invariant Indexes(byObligation, os[..i])
    {
      var o := os[i];
      assert os[..i + 1] == os[..i] + [o] && os[i..][0] == o && os[i..][1..] == os[i + 1..];
      fault := CheckObligation(g, ps, supported, byObligation, os[..i], o);
      if fault.Some? { return; }
      IndexGrows(byObligation, os[..i], o);
      byObligation := byObligation[o.id := o];
    }
    assert os[..|os|] == os;
    fault := None;
  }

  lemma NothingIndexed()
    ensures Indexes(map[], [])
  {}

  method CheckRequirements(g: Setting, byObligation: map<string, Obligation>, rs: seq<Requirement>,
      ghost os: seq<Obligation>)
    returns (fault: Option<Code>)
    requires Indexes(byObligation, os)
    ensures fault == RequirementsFault(g, os, rs)
  {
    for i := 0 to |rs|
      invariant RequirementsFault(g, os, rs) == RequirementsFault(g, os, rs[i..])
    {
      var r := rs[i];
      assert rs[i..][0] == r && rs[i..][1..] == rs[i + 1..];
      fault := CheckNamed(g, r.content, RequirementMismatch);
      if fault.Some? { return; }
      if !r.nonOverridable { return Some(RequirementFailed); }
      fault := CheckExpectations(byObligation, r, os);
      if fault.Some? { return; }
    }
    fault := None;
  }

  method CheckExpectations(byObligation: map<string, Obligation>, r: Requirement, ghost os: seq<Obligation>)
    returns (fault: Option<Code>)
    requires Indexes(byObligation, os)
    ensures fault == ExpectationsFault(os, r, r.expected)
  {
    var es := r.expected;
    for i := 0 to |es|
      invariant ExpectationsFault(os, r, es) == ExpectationsFault(os, r, es[i..])
    {
      var e := es[i];
      assert es[i..][0] == e && es[i..][1..] == es[i + 1..];
      IndexedIsThere(byObligation, os, e.obligationId);
      if e.obligationId !in byObligation { return Some(ObligationRemoved); }
      var actual := byObligation[e.obligationId];
      if actual.commitment != e.commitment { return Some(ObligationReinterpreted); }
      if actual.originRef != r.originRef { return Some(ObligationReinterpreted); }
    }
    fault := None;
  }

  method CheckEvidence(g: Setting, byObligation: map<string, Obligation>, xs: seq<Item>, now: Time,
      ghost os: seq<Obligation>)
    returns (fault: Option<Code>)
    requires Indexes(byObligation, os)
    ensures fault == ItemsFault(g, os, xs, now)
  {
    for i := 0 to |xs|
      invariant ItemsFault(g, os, xs, now) == ItemsFault(g, os, xs[i..], now)
    {
      assert xs[i..][0] == xs[i] && xs[i..][1..] == xs[i + 1..];
      fault := CheckItem(g, byObligation, xs[i], now, os);
      if fault.Some? { return; }
    }
    fault := None;
  }

  method CheckItem(g: Setting, byObligation: map<string, Obligation>, x: Item, now: Time, ghost os: seq<Obligation>)
    returns (fault: Option<Code>)
    requires Indexes(byObligation, os)
    ensures fault == ItemFault(g, os, x, now)
  {
    fault := CheckNamed(g, x.content, ContentMismatch);
    if fault.Some? { return; }
    fault := CheckNamed(g, x.provenance, ProvenanceMismatch);
    if fault.Some? { return; }
    if x.assuranceClass !in ASSURANCE { return Some(InputInvalid); }
    if g.blank(x.id) || x.obligationIds == [] || "" in x.obligationIds || !Distinct(x.obligationIds)
       || g.blank(x.sourceRef) { return Some(InputInvalid); }
    var ids := x.obligationIds;
    for i := 0 to |ids|
      invariant ClaimsFault(os, x, ids) == ClaimsFault(os, x, ids[i..])
    {
      assert ids[i..][0] == ids[i] && ids[i..][1..] == ids[i + 1..];
      IndexedIsThere(byObligation, os, ids[i]);
      if ids[i] !in byObligation { return Some(ObligationUnknown); }
      if x.sourceRef != byObligation[ids[i]].sourceRef { return Some(SourceMismatch); }
    }
    if x.observedAt.None? { return Some(TimeInvalid); }
    if x.observedAt.value > now { return Some(TimeFuture); }
    if !Allowed(x.state) { return Some(StateInvalid); }
    var source := SourceIn(x.provenance.value);
    if source.None? || g.blank(source.value) { return Some(InputInvalid); }
    fault := When(source.value != x.sourceRef, ProvenanceSourceMismatch);
  }

  /** The status of each obligation, in the map from its id. */
  ghost predicate Statuses(m: map<string, Status>, os: seq<Obligation>, items: seq<Item>, now: Time) {
    && (forall id :: id in m <==> HasObligation(os, id))
    && (forall o | o in os :: m[o.id] == StatusOf(o, items, now))
  }

  lemma OneMoreStatus(m: map<string, Status>, os: seq<Obligation>, o: Obligation, items: seq<Item>, now: Time)
    requires Statuses(m, os, items, now) && forall q | q in os :: q.id != o.id
    ensures Statuses(m[o.id := StatusOf(o, items, now)], os + [o], items, now)
  {
    hide StatusOf;
    var n := m[o.id := StatusOf(o, items, now)];
    forall id ensures id in n <==> HasObligation(os + [o], id) {
      assert HasObligation(os, id) ==> exists q | q in os :: q.id == id && q in os + [o];
      assert o in os + [o];
    }
  }

  method ClassifyObligations(os: seq<Obligation>, items: seq<Item>, now: Time)
    returns (fault: Option<Code>, statuses: map<string, Status>)
    requires forall i, j | 0 <= i < j < |os| :: os[i].id != os[j].id
    ensures fault == StatusesFault(os, items, now)
    ensures fault.None? ==> Statuses(statuses, os, items, now)
  {
    hide StatusOf, Statuses;
    statuses := map[];
    assert Statuses(statuses, [], items, now) by { NothingClassified(items, now); }
    for i := 0 to |os|
      invariant StatusesFault(os, items, now) == StatusesFault(os[i..], items, now)
      invariant Statuses(statuses, os[..i], items, now)
    {
      var o := os[i];
      assert os[..i + 1] == os[..i] + [o] && os[i..][0] == o && os[i..][1..] == os[i + 1..];
      var status := ClassifyEvidence(o, items, now);
      OneMoreStatus(statuses, os[..i], o, items, now);
      statuses := statuses[o.id := status];
      if o.required && status != Valid {
        fault := Some(Unsatisfied(status));
        return;
      }
    }
    assert os[..|os|] == os;
    fault := None;
  }

  lemma NothingClassified(items: seq<Item>, now: Time)
    ensures Statuses(map[], [], items, now)
  {}

  method VerifyRecord(g: Setting, r: ProfileRecord) returns (verdict: Verdict)
    ensures verdict.Rejected? <==> Fault(g, r).Some?
    ensures verdict.Rejected? ==> verdict.code == Fault(g, r).value
    ensures verdict.Accepted? ==>
      && r.evaluationTime.Some?
      && Statuses(verdict.statuses, r.obligations, r.evidence, r.evaluationTime.value)
  {
    hide NamedFault, PolicyFault, PoliciesFault, ObligationFault, ObligationsFault, RequirementsFault, ItemsFault;
    hide StatusesFault, OutcomeFault, ResolverFault, HeaderFault, Statuses;
    var fault := CheckHeader(g, r);
    if fault.Some? { return Rejected(fault.value); }
    fault := CheckPolicies(g, r.policies);
    if fault.Some? { return Rejected(fault.value); }
    if r.evaluationTime.None? { return Rejected(EvaluationTimeInvalid); }
    var now := r.evaluationTime.value;
    fault := CheckResolver(g, r.resolver);
    if fault.Some? { return Rejected(fault.value); }
    var byObligation, statuses;
    fault, byObligation := CheckObligations(g, r.policies, r.resolver.commitment, r.obligations);
    if fault.Some? { return Rejected(fault.value); }
    fault := CheckRequirements(g, byObligation, r.requirements, r.obligations);
    if fault.Some? { return Rejected(fault.value); }
    fault := CheckEvidence(g, byObligation, r.evidence, now, r.obligations);
    if fault.Some? { return Rejected(fault.value); }
    fault := CheckNamed(g, r.context, ContextMismatch);
    if fault.Some? { return Rejected(fault.value); }
    IdsDiffer(g, r.policies, r.resolver.commitment, [], r.obligations);
    fault, statuses := ClassifyObligations(r.obligations, r.evidence, now);
    if fault.Some? { return Rejected(fault.value); }
    fault := CheckOutcome(g, r);
    if fault.Some? { return Rejected(fault.value); }
    verdict := Accepted(statuses);
  }

  lemma FirstIsNew(g: Setting, ps: seq<Policy>, supported: string, before: seq<Obligation>, os: seq<Obligation>)
    requires os != [] && ObligationsFault(g, ps, supported, before, os) == None
    ensures !HasObligation(before, os[0].id)
    ensures ObligationsFault(g, ps, supported, before + [os[0]], os[1..]) == None
  {
    hide FieldsFault, HasObligation, HasPolicy, Commitment, ObligationJson, SEMANTICS_ID;
  }

  lemma NotAmongMore(before: seq<Obligation>, o: Obligation, id: string)
    requires !HasObligation(before + [o], id)
    ensures !HasObligation(before, id) && o.id != id
  {
    assert o in before + [o];
    assert forall b | b in before :: b in before + [o];
  }

  lemma {:induction false} IdsDiffer(g: Setting, ps: seq<Policy>, supported: string, before: seq<Obligation>,
                                     os: seq<Obligation>)
    requires ObligationsFault(g, ps, supported, before, os) == None
    ensures forall i, j | 0 <= i < j < |os| :: os[i].id != os[j].id
    ensures forall o | o in os :: !HasObligation(before, o.id)
    decreases |os|
  {
    hide ObligationsFault, HasObligation;
    if os != [] {
      FirstIsNew(g, ps, supported, before, os);
      IdsDiffer(g, ps, supported, before + [os[0]], os[1..]);
      forall o | o in os[1..] ensures !HasObligation(before, o.id) && o.id != os[0].id {
        NotAmongMore(before, os[0], o.id);
      }
      assert os == [os[0]] + os[1..];
      forall i, j | 0 <= i < j < |os| ensures os[i].id != os[j].id {
        assert os[j] == os[1..][j - 1] && (i > 0 ==> os[i] == os[1..][i - 1]);
      }
    }
  }

  // ---- what acceptance means -----------------------------------------------

  ghost predicate PoliciesBound(g: Setting, ps: seq<Policy>) {
    && (forall p | p in ps :: !g.blank(p.ref) && !g.blank(p.version) && Bound(g, p.content) && Bound(g, p.semantics))
    && (forall i, j | 0 <= i < j < |ps| :: ps[i].ref != ps[j].ref || ps[i].version != ps[j].version)
  }

  ghost predicate ObligationBound(g: Setting, ps: seq<Policy>, supported: string, o: Obligation) {
    && !g.blank(o.id) && !g.blank(o.sourceRef) && o.maxAge >= 0
    && HasPolicy(ps, o.originRef, o.originVersion)
    && o.commitment == Commitment(g.hash, ObligationJson(o))
    && o.semanticsId == SEMANTICS_ID && o.semanticsCommitment == supported
  }

  /** No institutional obligation is missing, changed or moved to another policy. */
  ghost predicate RequirementKept(g: Setting, os: seq<Obligation>, r: Requirement) {
    && Bound(g, r.content) && r.nonOverridable
    && forall e | e in r.expected ::
         && HasObligation(os, e.obligationId)
         && forall o | o in os && o.id == e.obligationId :: o.commitment == e.commitment && o.originRef == r.originRef
  }

  /** The item's content is committed, it comes from the exact source each obligation it names
      admits, and it was observed no later than the evaluation. */
  ghost predicate ItemBound(g: Setting, os: seq<Obligation>, x: Item, now: Time) {
    && Bound(g, x.content) && Bound(g, x.provenance) && x.assuranceClass in ASSURANCE
    && x.obligationIds != [] && Distinct(x.obligationIds)
    && (forall id | id in x.obligationIds ::
          HasObligation(os, id) && forall o | o in os && o.id == id :: o.sourceRef == x.sourceRef)
    && x.observedAt.Some? && x.observedAt.value <= now && Allowed(x.state)
    && SourceIn(x.provenance.value) == Some(x.sourceRef)
  }

  /** Met: some evidence names the obligation, and all that does is current, in time and agrees. */
  ghost predicate Met(o: Obligation, items: seq<Item>, now: Time) {
    && Names(o.id, items)
    && (forall x | x in items && o.id in x.obligationIds :: x.state == "current" && !TooOld(o, x, now))
    && (forall x, y | x in items && y in items && o.id in x.obligationIds && o.id in y.obligationIds ::
          x.content.commitment == y.content.commitment)
  }

  lemma ValidMeansMet(o: Obligation, items: seq<Item>, now: Time)
    requires StatesAllowed(items)
    ensures StatusOf(o, items, now) == Valid <==> Met(o, items, now)
  {
    CandidatesMissing(o.id, items);
    assert "current"[1] == 'u' && "conflict"[1] == 'o' && "unknown"[0] == 'u';
  }

  lemma {:induction false} PoliciesPart(g: Setting, before: seq<Policy>, ps: seq<Policy>)
    requires PoliciesFault(g, before, ps) == None
    ensures PoliciesBound(g, ps) && forall p | p in ps :: !HasPolicy(before, p.ref, p.version)
    decreases |ps|
  {
    if ps != [] {
      PoliciesPart(g, before + [ps[0]], ps[1..]);
      assert ps[0] in before + [ps[0]];
      forall p | p in ps && p != ps[0] ensures p in ps[1..] {}
      forall j | 0 < j < |ps| ensures ps[0].ref != ps[j].ref || ps[0].version != ps[j].version {
        assert ps[j] == ps[1..][j - 1];
      }
    }
  }

  lemma {:induction false} ObligationsPart(g: Setting, ps: seq<Policy>, supported: string, before: seq<Obligation>,
                                           os: seq<Obligation>)
    requires ObligationsFault(g, ps, supported, before, os) == None
    ensures forall o | o in os :: ObligationBound(g, ps, supported, o)
    decreases |os|
  {
    if os != [] {
      ObligationsPart(g, ps, supported, before + [os[0]], os[1..]);
      forall o | o in os && o != os[0] ensures o in os[1..] {}
    }
  }

  lemma {:induction false} ExpectationsPart(os: seq<Obligation>, r: Requirement, es: seq<Expectation>)
    requires ExpectationsFault(os, r, es) == None
    ensures forall e | e in es ::
      && HasObligation(os, e.obligationId)
      && forall o | o in os && o.id == e.obligationId :: o.commitment == e.commitment && o.originRef == r.originRef
  {
    if es != [] {
      ExpectationsPart(os, r, es[1..]);
      forall e | e in es && e != es[0] ensures e in es[1..] {}
    }
  }

  lemma {:induction false} RequirementsPart(g: Setting, os: seq<Obligation>, rs: seq<Requirement>)
    requires RequirementsFault(g, os, rs) == None
    ensures forall r | r in rs :: RequirementKept(g, os, r)
  {
    if rs != [] {
      RequirementsPart(g, os, rs[1..]);
      ExpectationsPart(os, rs[0], rs[0].expected);
      forall r | r in rs && r != rs[0] ensures r in rs[1..] {}
    }
  }

  lemma {:induction false} ClaimsPart(os: seq<Obligation>, x: Item, ids: seq<string>)
    requires ClaimsFault(os, x, ids) == None
    ensures forall id | id in ids :: HasObligation(os, id) && forall o | o in os && o.id == id ::
        o.sourceRef == x.sourceRef
  {
    if ids != [] {
      ClaimsPart(os, x, ids[1..]);
      forall id | id in ids && id != ids[0] ensures id in ids[1..] {}
    }
  }

  lemma {:induction false} ItemsPart(g: Setting, os: seq<Obligation>, xs: seq<Item>, now: Time)
    requires ItemsFault(g, os, xs, now) == None
    ensures forall x | x in xs :: ItemBound(g, os, x, now)
  {
    if xs != [] {
      ItemsPart(g, os, xs[1..], now);
      ClaimsPart(os, xs[0], xs[0].obligationIds);
      forall x | x in xs && x != xs[0] ensures x in xs[1..] {}
    }
  }

  lemma {:induction false} StatusesPart(os: seq<Obligation>, items: seq<Item>, now: Time)
    requires StatusesFault(os, items, now) == None && StatesAllowed(items)
    ensures forall o | o in os && o.required :: Met(o, items, now)
  {
    if os != [] {
      StatusesPart(os[1..], items, now);
      ValidMeansMet(os[0], items, now);
      forall o | o in os && o != os[0] ensures o in os[1..] {}
    }
  }

  /** An accepted record: everything in it is bound by its commitments, nothing the institution
      requires was removed or reinterpreted, and every required obligation is met at the
      evaluation time by evidence from its exact source. */
  lemma AcceptedRecordsAreMet(g: Setting, r: ProfileRecord)
    requires Fault(g, r) == None
    ensures r.evaluationTime.Some? && !r.authorizing
    ensures Bound(g, r.candidate) && Bound(g, r.resolver) && Bound(g, r.context) && PoliciesBound(g, r.policies)
    ensures forall o | o in r.obligations :: ObligationBound(g, r.policies, r.resolver.commitment, o)
    ensures forall q | q in r.requirements :: RequirementKept(g, r.obligations, q)
    ensures forall x | x in r.evidence :: ItemBound(g, r.obligations, x, r.evaluationTime.value)
    ensures forall o | o in r.obligations && o.required :: Met(o, r.evidence, r.evaluationTime.value)
    ensures r.decision.inputCommitment == Commitment(g.hash, InputsJson(r))
        && r.commitment == Commitment(g.hash, ProtectedJson(r))
  {
    hide PolicyFault, PoliciesFault, ObligationFault, ObligationsFault, RequirementsFault, ItemsFault, StatusesFault;
    hide Commitment, PoliciesBound, ObligationBound, RequirementKept, Met, HasObligation;
    PoliciesPart(g, [], r.policies);
    ObligationsPart(g, r.policies, r.resolver.commitment, [], r.obligations);
    RequirementsPart(g, r.obligations, r.requirements);
    ItemsPart(g, r.obligations, r.evidence, r.evaluationTime.value);
    StatusesPart(r.obligations, r.evidence, r.evaluationTime.value);
  }
}
