/** Exactly which decision-input records the verifier accepts, read off the record itself. */
module RecordAcceptance {
  import opened Text
  import opened CanonicalJson
  import opened Commitments
  import opened ProfileRecords
  import opened EvidenceProfile

  lemma BoundExactly(g: Setting, n: Named, code: Code)
    ensures NamedFault(g, n, code) == None <==> Bound(g, n)
  {
    var hashed := g.hash(Canonical(COMPACT, n.value));
    assert Commitment(g.hash, n.value)[..7] == "sha256:";
  }

  // ---- policies ------------------------------------------------------------

  ghost predicate PolicyTerms(g: Setting, p: Policy) {
    !g.blank(p.ref) && !g.blank(p.version) && Bound(g, p.content) && Bound(g, p.semantics)
  }

  ghost predicate OneKey(p: Policy, q: Policy) {
    p.ref == q.ref && p.version == q.version
  }

  ghost predicate PoliciesTerms(g: Setting, before: seq<Policy>, ps: seq<Policy>) {
    && (forall p | p in ps :: PolicyTerms(g, p) && forall q | q in before :: !OneKey(q, p))
    && (forall i, j | 0 <= i < j < |ps| :: !OneKey(ps[i], ps[j]))
  }

  lemma PolicyExactly(g: Setting, before: seq<Policy>, p: Policy)
    ensures PolicyFault(g, before, p) == None <==> PolicyTerms(g, p) && forall q | q in before :: !OneKey(q, p)
  {
    hide NamedFault, Bound;
    BoundExactly(g, p.content, PolicyContentMismatch);
    BoundExactly(g, p.semantics, PolicySemanticsMismatch);
  }

  lemma {:induction false} PoliciesExactly(g: Setting, before: seq<Policy>, ps: seq<Policy>)
    ensures PoliciesFault(g, before, ps) == None <==> PoliciesTerms(g, before, ps)
    decreases |ps|
  {
    if ps != [] {
      hide PolicyFault, PolicyTerms, OneKey;
      PolicyExactly(g, before, ps[0]);
      PoliciesExactly(g, before + [ps[0]], ps[1..]);
      PoliciesStep(g, before, ps);
    }
  }

  lemma PoliciesStep(g: Setting, before: seq<Policy>, ps: seq<Policy>)
    requires ps != []
    ensures PoliciesTerms(g, before, ps) <==>
      && PolicyTerms(g, ps[0]) && (forall q | q in before :: !OneKey(q, ps[0]))
      && PoliciesTerms(g, before + [ps[0]], ps[1..])
  {
    hide PolicyTerms;
    var rest := ps[1..];
    assert ps == [ps[0]] + rest;
    assert forall j | 1 <= j < |ps| :: ps[j] == rest[j - 1];
    assert ps[0] in before + [ps[0]];
    if PoliciesTerms(g, before, ps) {
      forall p | p in rest ensures PolicyTerms(g, p) && forall q | q in before + [ps[0]] :: !OneKey(q, p) {
        var j :| 0 <= j < |rest| && rest[j] == p;
        assert ps[j + 1] == p && !OneKey(ps[0], ps[j + 1]);
      }
      forall i, j | 0 <= i < j < |rest| ensures !OneKey(rest[i], rest[j]) {
        assert !OneKey(ps[i + 1], ps[j + 1]);
      }
    }
    if PolicyTerms(g, ps[0]) && (forall q | q in before :: !OneKey(q, ps[0]))
      && PoliciesTerms(g, before + [ps[0]], rest)
    {
      forall i, j | 0 <= i < j < |ps| ensures !OneKey(ps[i], ps[j]) {
        assert rest[j - 1] in rest;
        if i > 0 { assert !OneKey(rest[i - 1], rest[j - 1]); }
      }
    }
  }

  // ---- obligations ---------------------------------------------------------

  /** Named, of a policy of the record, under its own commitment and the semantics the record declares. */
  ghost predicate ObligationTerms(g: Setting, ps: seq<Policy>, supported: string, o: Obligation) {
    && !g.blank(o.id) && !g.blank(o.originRef) && !g.blank(o.originVersion) && !g.blank(o.sourceRef)
    && !g.blank(o.semanticsId) && "sha256:" <= o.semanticsCommitment && o.maxAge >= 0
    && (exists p | p in ps :: p.ref == o.originRef && p.version == o.originVersion)
    && o.commitment == Commitment(g.hash, ObligationJson(o))
    && o.semanticsId == SEMANTICS_ID && o.semanticsCommitment == supported
  }

  ghost predicate ObligationsTerms(g: Setting, ps: seq<Policy>, supported: string, before: seq<Obligation>,
                                   os: seq<Obligation>) {
    && (forall o | o in os :: ObligationTerms(g, ps, supported, o) && forall q | q in before :: q.id != o.id)
    && (forall i, j | 0 <= i < j < |os| :: os[i].id != os[j].id)
  }

  lemma ObligationExactly(g: Setting, ps: seq<Policy>, supported: string, before: seq<Obligation>, o: Obligation)
    ensures ObligationFault(g, ps, supported, before, o) == None <==>
      ObligationTerms(g, ps, supported, o) && forall q | q in before :: q.id != o.id
  {
    hide Commitment, ObligationJson, SEMANTICS_ID;
  }

  lemma {:induction false} ObligationsExactly(g: Setting, ps: seq<Policy>, supported: string, before: seq<Obligation>,
                                              os: seq<Obligation>)
    ensures ObligationsFault(g, ps, supported, before, os) == None <==> ObligationsTerms(g, ps, supported, before, os)
    decreases |os|
  {
    if os != [] {
      hide ObligationFault, ObligationTerms;
      ObligationExactly(g, ps, supported, before, os[0]);
      ObligationsExactly(g, ps, supported, before + [os[0]], os[1..]);
      ObligationsStep(g, ps, supported, before, os);
    }
  }

  lemma ObligationsStep(g: Setting, ps: seq<Policy>, supported: string, before: seq<Obligation>, os: seq<Obligation>)
    requires os != []
    ensures ObligationsTerms(g, ps, supported, before, os) <==>
      && ObligationTerms(g, ps, supported, os[0]) && (forall q | q in before :: q.id != os[0].id)
      && ObligationsTerms(g, ps, supported, before + [os[0]], os[1..])
  {
    hide ObligationTerms;
    var rest := os[1..];
    assert os == [os[0]] + rest;
    assert forall j | 1 <= j < |os| :: os[j] == rest[j - 1];
    assert os[0] in before + [os[0]];
    if ObligationsTerms(g, ps, supported, before, os) {
      forall o | o in rest ensures os[0].id != o.id {
        var j :| 0 <= j < |rest| && rest[j] == o;
        assert os[j + 1] == o;
      }
      forall i, j | 0 <= i < j < |rest| ensures rest[i].id != rest[j].id {
        assert os[i + 1].id != os[j + 1].id;
      }
    }
    if ObligationTerms(g, ps, supported, os[0]) && (forall q | q in before :: q.id != os[0].id)
      && ObligationsTerms(g, ps, supported, before + [os[0]], rest)
    {
      forall i, j | 0 <= i < j < |os| ensures os[i].id != os[j].id {
        assert rest[j - 1] in rest;
        if i > 0 { assert rest[i - 1].id != rest[j - 1].id; }
      }
    }
  }

  // ---- institutional requirements ------------------------------------------

  /** Non-overridable, and every obligation it lists is there as it lists it, from the same policy. */
  ghost predicate RequirementTerms(g: Setting, os: seq<Obligation>, r: Requirement) {
    && Bound(g, r.content) && r.nonOverridable
    && forall e | e in r.expected :: ExpectationTerms(os, r, e)
  }

  ghost predicate ExpectationTerms(os: seq<Obligation>, r: Requirement, e: Expectation) {
    && (exists o | o in os :: o.id == e.obligationId)
    && forall o | o in os && o.id == e.obligationId :: o.commitment == e.commitment && o.originRef == r.originRef
  }

  lemma {:induction false} ExpectationsExactly(os: seq<Obligation>, r: Requirement, es: seq<Expectation>)
    ensures ExpectationsFault(os, r, es) == None <==> forall e | e in es :: ExpectationTerms(os, r, e)
  {
    if es != [] {
      ExpectationsExactly(os, r, es[1..]);
      assert es == [es[0]] + es[1..];
      assert ExpectationFault(os, r, es[0]) == None <==> ExpectationTerms(os, r, es[0]);
    }
  }

  lemma {:induction false} RequirementsExactly(g: Setting, os: seq<Obligation>, rs: seq<Requirement>)
    ensures RequirementsFault(g, os, rs) == None <==> forall r | r in rs :: RequirementTerms(g, os, r)
  {
    hide RequirementFault, RequirementTerms;
    if rs != [] {
      RequirementsExactly(g, os, rs[1..]);
      assert rs == [rs[0]] + rs[1..];
      RequirementExactly(g, os, rs[0]);
    }
  }

  lemma RequirementExactly(g: Setting, os: seq<Obligation>, r: Requirement)
    ensures RequirementFault(g, os, r) == None <==> RequirementTerms(g, os, r)
  {
    hide NamedFault, ExpectationTerms, Bound;
    BoundExactly(g, r.content, RequirementMismatch);
    ExpectationsExactly(os, r, r.expected);
  }

  // ---- evidence ------------------------------------------------------------

  /** The first entry under source_ref says this. */
  ghost predicate Says(provenance: Json, source: string) {
    provenance.Obj? && var fs := provenance.fields;
      exists i | 0 <= i < |fs| ::
        fs[i].key == "source_ref" && fs[i].value == Str(source) && forall j | 0 <= j < i :: fs[j].key != "source_ref"
  }

  lemma {:induction false} TextExactly(fs: seq<Field>, key: string, text: string)
    ensures TextUnder(fs, key) == Some(text) <==>
      exists i | 0 <= i < |fs| ::
        fs[i].key == key && fs[i].value == Str(text) && forall j | 0 <= j < i :: fs[j].key != key
  {
    if fs != [] {
      var rest := fs[1..];
      TextExactly(rest, key, text);
      assert forall j | 1 <= j < |fs| :: fs[j] == rest[j - 1];
      if exists i | 0 <= i < |fs| ::
          fs[i].key == key && fs[i].value == Str(text) && forall j | 0 <= j < i :: fs[j].key != key {
        var i :| 0 <= i < |fs| && fs[i].key == key && fs[i].value == Str(text)
          && forall j | 0 <= j < i :: fs[j].key != key;
        if i > 0 { assert rest[i - 1] == fs[i]; }
      }
      if fs[0].key != key && TextUnder(rest, key) == Some(text) {
        var i :| 0 <= i < |rest| && rest[i].key == key && rest[i].value == Str(text)
          && forall j | 0 <= j < i :: rest[j].key != key;
        assert fs[i + 1] == rest[i];
      }
    }
  }

  lemma SaysExactly(provenance: Json, source: string)
    ensures SourceIn(provenance) == Some(source) <==> Says(provenance, source)
  {
    if provenance.Obj? { TextExactly(provenance.fields, "source_ref", source); }
  }

  /** Committed, named, observed no later than the evaluation, in a state there is, and from the one
      source that its provenance states and every obligation it names admits. */
  ghost predicate ItemTerms(g: Setting, os: seq<Obligation>, x: Item, now: Time) {
    && Bound(g, x.content) && Bound(g, x.provenance) && x.assuranceClass in ASSURANCE
    && !g.blank(x.id) && !g.blank(x.sourceRef)
    && x.obligationIds != [] && "" !in x.obligationIds
    && (forall i, j | 0 <= i < j < |x.obligationIds| :: x.obligationIds[i] != x.obligationIds[j])
    && (forall id | id in x.obligationIds :: ClaimTerms(os, x, id))
    && x.observedAt.Some? && x.observedAt.value <= now
    && (x.state == "current" || x.state == "unknown" || x.state == "conflict")
    && Says(x.provenance.value, x.sourceRef)
  }

  ghost predicate ClaimTerms(os: seq<Obligation>, x: Item, id: string) {
    (exists o | o in os :: o.id == id) && forall o | o in os && o.id == id :: o.sourceRef == x.sourceRef
  }

  lemma {:induction false} ClaimsExactly(os: seq<Obligation>, x: Item, ids: seq<string>)
    ensures ClaimsFault(os, x, ids) == None <==> forall id | id in ids :: ClaimTerms(os, x, id)
  {
    if ids != [] {
      ClaimsExactly(os, x, ids[1..]);
      assert ids == [ids[0]] + ids[1..];
      assert ClaimFault(os, x, ids[0]) == None <==> ClaimTerms(os, x, ids[0]);
    }
  }

  lemma ItemExactly(g: Setting, os: seq<Obligation>, x: Item, now: Time)
    ensures ItemFault(g, os, x, now) == None <==> ItemTerms(g, os, x, now)
  {
    hide NamedFault, Bound, ClaimTerms, ClaimsFault, Says, SourceIn, ASSURANCE;
    BoundExactly(g, x.content, ContentMismatch);
    BoundExactly(g, x.provenance, ProvenanceMismatch);
    ClaimsExactly(os, x, x.obligationIds);
    SaysExactly(x.provenance.value, x.sourceRef);
  }

  lemma {:induction false} ItemsExactly(g: Setting, os: seq<Obligation>, xs: seq<Item>, now: Time)
    ensures ItemsFault(g, os, xs, now) == None <==> forall x | x in xs :: ItemTerms(g, os, x, now)
  {
    hide ItemFault, ItemTerms;
    if xs != [] {
      ItemsExactly(g, os, xs[1..], now);
      assert xs == [xs[0]] + xs[1..];
      ItemExactly(g, os, xs[0], now);
    }
  }

  /** Some evidence names the obligation, and all that does is current, not too old and agrees. */
  ghost predicate MetTerms(o: Obligation, items: seq<Item>, now: Time) {
    && (exists x | x in items :: o.id in x.obligationIds)
    && (forall x | x in items && o.id in x.obligationIds ::
          x.state == "current" && (x.observedAt.Some? ==> now - x.observedAt.value <= o.maxAge))
    && (forall x, y | x in items && y in items && o.id in x.obligationIds && o.id in y.obligationIds ::
          x.content.commitment == y.content.commitment)
  }

  lemma {:induction false} StatusesExactly(os: seq<Obligation>, items: seq<Item>, now: Time)
    requires StatesAllowed(items)
    ensures StatusesFault(os, items, now) == None <==> forall o | o in os && o.required :: MetTerms(o, items, now)
  {
    hide StatusOf, StatesAllowed, MetTerms;
    if os != [] {
      StatusesExactly(os[1..], items, now);
      assert os == [os[0]] + os[1..];
      MetExactly(os[0], items, now);
    }
  }

  lemma MetExactly(o: Obligation, items: seq<Item>, now: Time)
    requires StatesAllowed(items)
    ensures StatusOf(o, items, now) == Valid <==> MetTerms(o, items, now)
  {
    hide StatusOf;
    ValidMeansMet(o, items, now);
  }

  // ---- the record ----------------------------------------------------------

  ghost predicate HeaderTerms(g: Setting, r: ProfileRecord) {
    && r.profileVersion == PROFILE_VERSION && !r.authorizing && r.canonicalization == CANONICALIZATION
    && r.algorithm == ALGORITHM && Bound(g, r.candidate)
    && (forall a | a in r.assurance :: a.assurance in ASSURANCE)
  }

  ghost predicate OutcomeTerms(g: Setting, r: ProfileRecord) {
    && r.decision.inputCommitment == Commitment(g.hash, InputsJson(r)) && r.decision.reasonPrecedence == REASONS
    && r.decision.result in RESULTS && r.decision.primaryReason.Some?
    && r.commitment == Commitment(g.hash, ProtectedJson(r))
  }

  ghost predicate RecordTerms(g: Setting, r: ProfileRecord) {
    && HeaderTerms(g, r) && PoliciesTerms(g, [], r.policies) && r.evaluationTime.Some?
    && Bound(g, r.resolver) && Normal(r.resolver.value) == Normal(SUPPORTED)
    && ObligationsTerms(g, r.policies, r.resolver.commitment, [], r.obligations)
    && (forall q | q in r.requirements :: RequirementTerms(g, r.obligations, q))
    && (forall x | x in r.evidence :: ItemTerms(g, r.obligations, x, r.evaluationTime.value))
    && Bound(g, r.context)
    && (forall o | o in r.obligations && o.required :: MetTerms(o, r.evidence, r.evaluationTime.value))
    && OutcomeTerms(g, r)
  }

  lemma HeaderExactly(g: Setting, r: ProfileRecord)
    ensures HeaderFault(g, r) == None <==> HeaderTerms(g, r)
    ensures ResolverFault(g, r.resolver) == None <==>
      Bound(g, r.resolver) && Normal(r.resolver.value) == Normal(SUPPORTED)
    ensures NamedFault(g, r.context, ContextMismatch) == None <==> Bound(g, r.context)
    ensures OutcomeFault(g, r) == None <==> OutcomeTerms(g, r)
  {
    hide NamedFault, Bound, Commitment, Normal, SUPPORTED, InputsJson, ProtectedJson, REASONS, RESULTS, ASSURANCE;
    hide PROFILE_VERSION, CANONICALIZATION, ALGORITHM;
    BoundExactly(g, r.candidate, CandidateMismatch);
    BoundExactly(g, r.resolver, ResolverSemanticsMismatch);
    BoundExactly(g, r.context, ContextMismatch);
  }

  lemma TermsAllowStates(g: Setting, os: seq<Obligation>, xs: seq<Item>, now: Time)
    requires forall x | x in xs :: ItemTerms(g, os, x, now)
    ensures StatesAllowed(xs)
  {}

  /** A record is accepted exactly when every one of these holds of it; the verdict depends on
      nothing else. */
  lemma AcceptedExactly(g: Setting, r: ProfileRecord)
    ensures Fault(g, r) == None <==> RecordTerms(g, r)
  {
    hide HeaderFault, ResolverFault, OutcomeFault, NamedFault, PoliciesFault, ObligationsFault, RequirementsFault;
    hide ItemsFault, StatusesFault, Bound, HeaderTerms, PoliciesTerms, ObligationsTerms, RequirementTerms;
    hide ItemTerms, MetTerms, OutcomeTerms, StatesAllowed, Normal, SUPPORTED;
    HeaderExactly(g, r);
    PoliciesExactly(g, [], r.policies);
    ObligationsExactly(g, r.policies, r.resolver.commitment, [], r.obligations);
    RequirementsExactly(g, r.obligations, r.requirements);
    if r.evaluationTime.Some? {
      var now := r.evaluationTime.value;
      ItemsExactly(g, r.obligations, r.evidence, now);
      if forall x | x in r.evidence :: ItemTerms(g, r.obligations, x, now) {
        TermsAllowStates(g, r.obligations, r.evidence, now);
        StatusesExactly(r.obligations, r.evidence, now);
      }
    }
  }
}
