/** What the commitments of an accepted decision-input record determine. */
module ProfileCommitments {
  import opened Text
  import opened CanonicalJson
  import opened Commitments
  import opened ProfileRecords
  import opened EffectIdentity
  import EvidenceProfile
  import Authority

  ghost predicate NamedWellFormed(n: Named) {
    WellFormed(n.value)
  }

  /** Every value a record carries is one Python can print. */
  ghost predicate WellFormedRecord(r: ProfileRecord) {
    && NamedWellFormed(r.candidate) && NamedWellFormed(r.context) && NamedWellFormed(r.resolver)
    && (forall p | p in r.policies :: NamedWellFormed(p.content) && NamedWellFormed(p.semantics))
    && (forall q | q in r.requirements :: NamedWellFormed(q.content))
    && (forall x | x in r.evidence :: NamedWellFormed(x.content) && NamedWellFormed(x.provenance))
  }

  // ---- agreement -----------------------------------------------------------

  ghost predicate SameNamed(a: Named, b: Named) {
    Same(a.value, b.value) && a.commitment == b.commitment
  }

  ghost predicate SamePolicy(p: Policy, q: Policy) {
    p.ref == q.ref && p.version == q.version && SameNamed(p.content, q.content) && SameNamed(p.semantics, q.semantics)
  }

  ghost predicate SameRequirement(r: Requirement, q: Requirement) {
    && SameNamed(r.content, q.content) && r.nonOverridable == q.nonOverridable && r.originRef == q.originRef
    && forall e :: e in r.expected <==> e in q.expected
  }

  ghost predicate SameItem(x: Item, y: Item) {
    && x.id == y.id && x.obligationIds == y.obligationIds && x.sourceRef == y.sourceRef && x.observedAt == y.observedAt
    && x.state == y.state && SameNamed(x.content, y.content) && SameNamed(x.provenance, y.provenance)
    && x.assuranceClass == y.assuranceClass
  }

  /** Equal in every input, but for the order of dictionary entries. */
  ghost predicate SameInputs(r: ProfileRecord, q: ProfileRecord) {
    && r.profileVersion == q.profileVersion && r.canonicalization == q.canonicalization && r.algorithm == q.algorithm
    && SameNamed(r.candidate, q.candidate) && SameNamed(r.context, q.context) && SameNamed(r.resolver, q.resolver)
    && r.evaluationTime == q.evaluationTime && r.obligations == q.obligations
    && (|r.policies| == |q.policies| && forall i | 0 <= i < |r.policies| :: SamePolicy(r.policies[i], q.policies[i]))
    && (|r.requirements| == |q.requirements|
        && forall i | 0 <= i < |r.requirements| :: SameRequirement(r.requirements[i], q.requirements[i]))
    && (|r.evidence| == |q.evidence| && forall i | 0 <= i < |r.evidence| :: SameItem(r.evidence[i], q.evidence[i]))
    && (forall a :: a in r.assurance <==> a in q.assurance)
  }

  // ---- each dictionary -----------------------------------------------------

  lemma NamedNormal(keys: seq<string>, a: Named, b: Named)
    requires |keys| == 2 && Normal(NamedJson(keys, a)) == Normal(NamedJson(keys, b))
    ensures SameNamed(a, b)
  {
    var v, w := [a.value, Str(a.commitment)], [b.value, Str(b.commitment)];
    RecordNormal(keys, v, w);
    assert Normal(v[0]) == Normal(w[0]) && Normal(v[1]) == Normal(w[1]);
    OneNormalIsSame(a.value, b.value);
  }

  lemma PolicyNormal(k: Keys, p: Policy, q: Policy)
    requires k.Fit() && Normal(PolicyJson(k, p)) == Normal(PolicyJson(k, q))
    ensures SamePolicy(p, q)
  {
    var v := [Str(p.ref), Str(p.version), p.content.value, Str(p.content.commitment), p.semantics.value,
              Str(p.semantics.commitment)];
    var w := [Str(q.ref), Str(q.version), q.content.value, Str(q.content.commitment), q.semantics.value,
              Str(q.semantics.commitment)];
    RecordNormal(k.policy, v, w);
    assert Normal(v[0]) == Normal(w[0]) && Normal(v[1]) == Normal(w[1]) && Normal(v[2]) == Normal(w[2]);
    assert Normal(v[3]) == Normal(w[3]) && Normal(v[4]) == Normal(w[4]) && Normal(v[5]) == Normal(w[5]);
    OneNormalIsSame(p.content.value, q.content.value);
    OneNormalIsSame(p.semantics.value, q.semantics.value);
  }

  lemma ObligationNormal(k: Keys, o: Obligation, u: Obligation)
    requires k.Fit() && Normal(WholeObligationJson(k, o)) == Normal(WholeObligationJson(k, u))
    ensures o == u
  {
    var v, w := ObligationValues(o) + [Str(o.commitment)], ObligationValues(u) + [Str(u.commitment)];
    RecordNormal(k.obligation, v, w);
    assert Normal(v[0]) == Normal(w[0]) && Normal(v[1]) == Normal(w[1]) && Normal(v[2]) == Normal(w[2]);
    assert Normal(v[3]) == Normal(w[3]) && Normal(v[4]) == Normal(w[4]) && Normal(v[5]) == Normal(w[5]);
    assert Normal(v[6]) == Normal(w[6]) && Normal(v[7]) == Normal(w[7]) && Normal(v[8]) == Normal(w[8]);
  }

  lemma ExpectedWithin(es: seq<Expectation>, fs: seq<Expectation>)
    requires Same(ExpectedJson(es), ExpectedJson(fs))
    ensures forall e | e in es :: e in fs
  {
    var a, b := ExpectedJson(es).fields, ExpectedJson(fs).fields;
    forall e | e in es ensures e in fs {
      var i :| 0 <= i < |es| && es[i] == e;
      var j :| 0 <= j < |b| && b[j].key == a[i].key && Same(a[i].value, b[j].value);
      assert fs[j] == e;
    }
  }

  lemma AssuranceWithin(xs: seq<Assurance>, ys: seq<Assurance>)
    requires Same(AssuranceJson(xs), AssuranceJson(ys))
    ensures forall x | x in xs :: x in ys
  {
    var a, b := AssuranceJson(xs).fields, AssuranceJson(ys).fields;
    forall x | x in xs ensures x in ys {
      var i :| 0 <= i < |xs| && xs[i] == x;
      var j :| 0 <= j < |b| && b[j].key == a[i].key && Same(a[i].value, b[j].value);
      assert ys[j] == x;
    }
  }

  lemma RequirementNormal(k: Keys, r: Requirement, q: Requirement)
    requires k.Fit() && Normal(RequirementJson(k, r)) == Normal(RequirementJson(k, q))
    ensures SameRequirement(r, q)
  {
    hide ExpectedJson, Same, Normal;
    var v := [r.content.value, Str(r.content.commitment), Bool(r.nonOverridable), ExpectedJson(r.expected),
        Str(r.originRef)];
    var w := [q.content.value, Str(q.content.commitment), Bool(q.nonOverridable), ExpectedJson(q.expected),
        Str(q.originRef)];
    RecordNormal(k.requirement, v, w);
    assert Normal(v[0]) == Normal(w[0]) && Normal(v[1]) == Normal(w[1]) && Normal(v[2]) == Normal(w[2]);
    assert Normal(v[3]) == Normal(w[3]) && Normal(v[4]) == Normal(w[4]);
    ScalarIsNormal(v[1], w[1]);
    ScalarIsNormal(v[2], w[2]);
    ScalarIsNormal(v[4], w[4]);
    OneNormalIsSame(r.content.value, q.content.value);
    OneNormalIsSame(ExpectedJson(r.expected), ExpectedJson(q.expected));
    OneNormalIsSame(ExpectedJson(q.expected), ExpectedJson(r.expected));
    ExpectedWithin(r.expected, q.expected);
    ExpectedWithin(q.expected, r.expected);
  }

  lemma ItemNormal(k: Keys, x: Item, y: Item)
    requires k.Fit() && Normal(ItemJson(k, x)) == Normal(ItemJson(k, y))
    ensures SameItem(x, y)
  {
    hide Same;
    var v := [Str(x.id), Authority.StringsJson(x.obligationIds), Str(x.sourceRef),
        Authority.OptionTimeJson(x.observedAt),
              Str(x.state), x.content.value, Str(x.content.commitment), x.provenance.value,
                  Str(x.provenance.commitment),
              Str(x.assuranceClass)];
    var w := [Str(y.id), Authority.StringsJson(y.obligationIds), Str(y.sourceRef),
        Authority.OptionTimeJson(y.observedAt),
              Str(y.state), y.content.value, Str(y.content.commitment), y.provenance.value,
                  Str(y.provenance.commitment),
              Str(y.assuranceClass)];
    RecordNormal(k.item, v, w);
    assert Normal(v[0]) == Normal(w[0]) && Normal(v[1]) == Normal(w[1]) && Normal(v[2]) == Normal(w[2]);
    assert Normal(v[3]) == Normal(w[3]) && Normal(v[4]) == Normal(w[4]) && Normal(v[5]) == Normal(w[5]);
    assert Normal(v[6]) == Normal(w[6]) && Normal(v[7]) == Normal(w[7]) && Normal(v[8]) == Normal(w[8]);
    assert Normal(v[9]) == Normal(w[9]);
    StringsNormal(x.obligationIds);
    StringsNormal(y.obligationIds);
    StringsInjective(x.obligationIds, y.obligationIds);
    OptionTimeInjective(x.observedAt, y.observedAt);
    OneNormalIsSame(x.content.value, y.content.value);
    OneNormalIsSame(x.provenance.value, y.provenance.value);
  }

  lemma DecisionNormal(k: Keys, d: Outcome, e: Outcome)
    requires k.Fit() && Normal(DecisionJson(k, d)) == Normal(DecisionJson(k, e))
    ensures d == e
  {
    var v := [Str(d.inputCommitment), Authority.StringsJson(d.reasonPrecedence), Str(d.result),
              Authority.OptionJson(d.primaryReason)];
    var w := [Str(e.inputCommitment), Authority.StringsJson(e.reasonPrecedence), Str(e.result),
              Authority.OptionJson(e.primaryReason)];
    RecordNormal(k.decision, v, w);
    assert Normal(v[0]) == Normal(w[0]) && Normal(v[1]) == Normal(w[1]) && Normal(v[2]) == Normal(w[2]);
    assert Normal(v[3]) == Normal(w[3]);
    StringsNormal(d.reasonPrecedence);
    StringsNormal(e.reasonPrecedence);
    StringsInjective(d.reasonPrecedence, e.reasonPrecedence);
  }

  // ---- the whole -----------------------------------------------------------

  lemma ListsNormal(k: Keys, r: ProfileRecord, q: ProfileRecord)
    requires k.Fit()
    requires Normal(Arr(RequirementsJson(k, r.requirements))) == Normal(Arr(RequirementsJson(k, q.requirements)))
    requires Normal(Arr(PoliciesJson(k, r.policies))) == Normal(Arr(PoliciesJson(k, q.policies)))
    requires Normal(Arr(ObligationsJson(k, r.obligations))) == Normal(Arr(ObligationsJson(k, q.obligations)))
    requires Normal(Arr(ItemsJson(k, r.evidence))) == Normal(Arr(ItemsJson(k, q.evidence)))
    ensures |r.requirements| == |q.requirements|
      && forall i | 0 <= i < |r.requirements| :: SameRequirement(r.requirements[i], q.requirements[i])
    ensures |r.policies| == |q.policies| && forall i | 0 <= i < |r.policies| :: SamePolicy(r.policies[i], q.policies[i])
    ensures r.obligations == q.obligations
    ensures |r.evidence| == |q.evidence| && forall i | 0 <= i < |r.evidence| :: SameItem(r.evidence[i], q.evidence[i])
  {
    hide Normal, PolicyJson, RequirementJson, WholeObligationJson, ItemJson, SamePolicy, SameRequirement, SameItem;
    ArrayNormal(RequirementsJson(k, r.requirements), RequirementsJson(k, q.requirements));
    ArrayNormal(PoliciesJson(k, r.policies), PoliciesJson(k, q.policies));
    ArrayNormal(ObligationsJson(k, r.obligations), ObligationsJson(k, q.obligations));
    ArrayNormal(ItemsJson(k, r.evidence), ItemsJson(k, q.evidence));
    forall i | 0 <= i < |r.requirements| ensures SameRequirement(r.requirements[i], q.requirements[i]) {
      assert Normal(RequirementsJson(k, r.requirements)[i]) == Normal(RequirementsJson(k, q.requirements)[i]);
      RequirementNormal(k, r.requirements[i], q.requirements[i]);
    }
    forall i | 0 <= i < |r.policies| ensures SamePolicy(r.policies[i], q.policies[i]) {
      assert Normal(PoliciesJson(k, r.policies)[i]) == Normal(PoliciesJson(k, q.policies)[i]);
      PolicyNormal(k, r.policies[i], q.policies[i]);
    }
    forall i | 0 <= i < |r.obligations| ensures r.obligations[i] == q.obligations[i] {
      assert Normal(ObligationsJson(k, r.obligations)[i]) == Normal(ObligationsJson(k, q.obligations)[i]);
      ObligationNormal(k, r.obligations[i], q.obligations[i]);
    }
    forall i | 0 <= i < |r.evidence| ensures SameItem(r.evidence[i], q.evidence[i]) {
      assert Normal(ItemsJson(k, r.evidence)[i]) == Normal(ItemsJson(k, q.evidence)[i]);
      ItemNormal(k, r.evidence[i], q.evidence[i]);
    }
  }

  lemma InputValuesNormal(k: Keys, r: ProfileRecord, q: ProfileRecord)
    requires k.Fit()
    requires forall i | 0 <= i < 12 :: Normal(InputValues(k, r)[i]) == Normal(InputValues(k, q)[i])
    ensures SameInputs(r, q)
  {
    hide Normal, NamedJson, RequirementsJson, PoliciesJson, ObligationsJson, ItemsJson, AssuranceJson, SamePolicy;
    hide SameRequirement, SameItem, SameNamed, Authority.OptionTimeJson;
    var v, w := InputValues(k, r), InputValues(k, q);
    assert Normal(v[0]) == Normal(w[0]) && Normal(v[1]) == Normal(w[1]) && Normal(v[2]) == Normal(w[2]);
    assert Normal(v[3]) == Normal(w[3]) && Normal(v[4]) == Normal(w[4]) && Normal(v[5]) == Normal(w[5]);
    assert Normal(v[6]) == Normal(w[6]) && Normal(v[7]) == Normal(w[7]) && Normal(v[8]) == Normal(w[8]);
    assert Normal(v[9]) == Normal(w[9]) && Normal(v[10]) == Normal(w[10]) && Normal(v[11]) == Normal(w[11]);
    ScalarIsNormal(v[0], w[0]);
    ScalarIsNormal(v[1], w[1]);
    ScalarIsNormal(v[2], w[2]);
    NamedNormal(k.materialized, r.candidate, q.candidate);
    NamedNormal(k.materialized, r.context, q.context);
    NamedNormal(k.semantics, r.resolver, q.resolver);
    TimeNormal(r.evaluationTime, q.evaluationTime);
    ListsNormal(k, r, q);
    OneNormalIsSame(AssuranceJson(r.assurance), AssuranceJson(q.assurance));
    OneNormalIsSame(AssuranceJson(q.assurance), AssuranceJson(r.assurance));
    AssuranceWithin(r.assurance, q.assurance);
    AssuranceWithin(q.assurance, r.assurance);
  }

  lemma TimeNormal(a: Option<Time>, b: Option<Time>)
    requires Normal(Authority.OptionTimeJson(a)) == Normal(Authority.OptionTimeJson(b))
    ensures a == b
  {
    OptionTimeInjective(a, b);
  }

  // ---- every value prints --------------------------------------------------

  lemma NamedPrintable(keys: seq<string>, n: Named)
    requires |keys| == 2 && NamedWellFormed(n)
    ensures Printable(NamedJson(keys, n)) && Printable(n.value)
  {
    WellFormedIsPrintable(n.value);
    RecordPrintable(keys, [n.value, Str(n.commitment)]);
  }

  lemma EntriesPrintable(k: Keys, r: ProfileRecord)
    requires k.Fit() && WellFormedRecord(r)
    ensures Printable(Arr(RequirementsJson(k, r.requirements))) && Printable(Arr(PoliciesJson(k, r.policies)))
    ensures Printable(Arr(ObligationsJson(k, r.obligations))) && Printable(Arr(ItemsJson(k, r.evidence)))
  {
    hide RequirementJson, PolicyJson, WholeObligationJson, ItemJson;
    forall q | q in r.requirements ensures Printable(RequirementJson(k, q)) { RequirementPrintable(k, q); }
    forall p | p in r.policies ensures Printable(PolicyJson(k, p)) { PolicyPrintable(k, p); }
    forall o | o in r.obligations ensures Printable(WholeObligationJson(k, o)) { ObligationPrintable(k, o); }
    forall x | x in r.evidence ensures Printable(ItemJson(k, x)) { ItemPrintable(k, x); }
  }

  lemma RequirementPrintable(k: Keys, q: Requirement)
    requires k.Fit() && NamedWellFormed(q.content)
    ensures Printable(RequirementJson(k, q))
  {
    WellFormedIsPrintable(q.content.value);
    assert Printable(ExpectedJson(q.expected));
    RecordPrintable(k.requirement, [q.content.value, Str(q.content.commitment), Bool(q.nonOverridable),
                                    ExpectedJson(q.expected), Str(q.originRef)]);
  }

  lemma PolicyPrintable(k: Keys, p: Policy)
    requires k.Fit() && NamedWellFormed(p.content) && NamedWellFormed(p.semantics)
    ensures Printable(PolicyJson(k, p))
  {
    WellFormedIsPrintable(p.content.value);
    WellFormedIsPrintable(p.semantics.value);
  }

  lemma ObligationPrintable(k: Keys, o: Obligation)
    requires k.Fit()
    ensures Printable(WholeObligationJson(k, o))
  {
    RecordPrintable(k.obligation, ObligationValues(o) + [Str(o.commitment)]);
  }

  lemma ItemPrintable(k: Keys, x: Item)
    requires k.Fit() && NamedWellFormed(x.content) && NamedWellFormed(x.provenance)
    ensures Printable(ItemJson(k, x))
  {
    WellFormedIsPrintable(x.content.value);
    WellFormedIsPrintable(x.provenance.value);
    StringsNormal(x.obligationIds);
  }

  lemma InputsPrintable(k: Keys, r: ProfileRecord)
    requires k.Fit() && WellFormedRecord(r)
    ensures forall i | 0 <= i < 12 :: Printable(InputValues(k, r)[i])
  {
    hide NamedJson, RequirementsJson, PoliciesJson, ObligationsJson, ItemsJson;
    NamedPrintable(k.materialized, r.candidate);
    NamedPrintable(k.materialized, r.context);
    NamedPrintable(k.semantics, r.resolver);
    EntriesPrintable(k, r);
  }

  // ---- main results --------------------------------------------------------

  lemma InputsUnderKeys(hash: Hash, k: Keys, r: ProfileRecord, q: ProfileRecord)
    requires Injective(hash) && k.Fit() && WellFormedRecord(r) && WellFormedRecord(q)
    requires Commitment(hash, InputsUnder(k, r)) == Commitment(hash, InputsUnder(k, q))
    ensures SameInputs(r, q)
  {
    hide InputValues, Commitment, WellFormedRecord, SameInputs;
    InputsPrintable(k, r);
    InputsPrintable(k, q);
    RecordCommitsValues(hash, k.inputs, InputValues(k, r), InputValues(k, q));
    InputValuesNormal(k, r, q);
  }

  /** With an injective hash, accepted records whose decisions name one input commitment agree in
      candidate, requirements, policies, obligations, evidence, context, time, resolver semantics
      and assurance. */
  lemma OneInputCommitmentOneInput(g: EvidenceProfile.Setting, r: ProfileRecord, q: ProfileRecord)
    requires Injective(g.hash) && WellFormedRecord(r) && WellFormedRecord(q)
    requires EvidenceProfile.Fault(g, r) == None && EvidenceProfile.Fault(g, q) == None
    requires r.decision.inputCommitment == q.decision.inputCommitment
    ensures SameInputs(r, q)
  {
    EvidenceProfile.AcceptedRecordsAreMet(g, r);
    EvidenceProfile.AcceptedRecordsAreMet(g, q);
    hide EvidenceProfile.Fault, InputsUnder, Commitment, WellFormedRecord, SameInputs;
    ProfileKeysFit();
    InputsUnderKeys(g.hash, PROFILE_KEYS, r, q);
  }

  lemma RecordUnderKeys(hash: Hash, k: Keys, r: ProfileRecord, q: ProfileRecord)
    requires Injective(hash) && k.Fit() && WellFormedRecord(r) && WellFormedRecord(q)
    requires Commitment(hash, ProtectedUnder(k, r)) == Commitment(hash, ProtectedUnder(k, q))
    ensures SameInputs(r, q) && r.decision == q.decision && r.authorizing == q.authorizing
  {
    hide InputValues, Commitment, WellFormedRecord, SameInputs, DecisionJson;
    var v := InputValues(k, r) + [Bool(r.authorizing), DecisionJson(k, r.decision)];
    var w := InputValues(k, q) + [Bool(q.authorizing), DecisionJson(k, q.decision)];
    InputsPrintable(k, r);
    InputsPrintable(k, q);
    DecisionPrintable(k, r.decision);
    DecisionPrintable(k, q.decision);
    hide Printable;
    assert PrintableAll(v) && PrintableAll(w) by { ValuesPrintable(k, r); ValuesPrintable(k, q); }
    RecordCommitsValues(hash, k.protected, v, w);
    forall i | 0 <= i < 12 ensures Normal(InputValues(k, r)[i]) == Normal(InputValues(k, q)[i]) {
      assert v[i] == InputValues(k, r)[i] && w[i] == InputValues(k, q)[i];
    }
    InputValuesNormal(k, r, q);
    assert Normal(v[12]) == Normal(w[12]) && Normal(v[13]) == Normal(w[13]);
    DecisionNormal(k, r.decision, q.decision);
  }

  ghost predicate PrintableAll(vs: seq<Json>) {
    forall i | 0 <= i < |vs| :: Printable(vs[i])
  }

  lemma DecisionPrintable(k: Keys, d: Outcome)
    requires k.Fit()
    ensures Printable(DecisionJson(k, d))
  {
    StringsNormal(d.reasonPrecedence);
  }

  lemma ValuesPrintable(k: Keys, r: ProfileRecord)
    requires k.Fit() && WellFormedRecord(r)
    ensures PrintableAll(InputValues(k, r) + [Bool(r.authorizing), DecisionJson(k, r.decision)])
  {
    hide InputValues, DecisionJson, WellFormedRecord;
    InputsPrintable(k, r);
    DecisionPrintable(k, r.decision);
  }

  /** Accepted records under one record commitment agree in all of that and in their decision. */
  lemma OneRecordCommitmentOneRecord(g: EvidenceProfile.Setting, r: ProfileRecord, q: ProfileRecord)
    requires Injective(g.hash) && WellFormedRecord(r) && WellFormedRecord(q)
    requires EvidenceProfile.Fault(g, r) == None && EvidenceProfile.Fault(g, q) == None
    requires r.commitment == q.commitment
    ensures SameInputs(r, q) && r.decision == q.decision
  {
    EvidenceProfile.AcceptedRecordsAreMet(g, r);
    EvidenceProfile.AcceptedRecordsAreMet(g, q);
    hide EvidenceProfile.Fault, ProtectedUnder, Commitment, WellFormedRecord, SameInputs;
    ProfileKeysFit();
    RecordUnderKeys(g.hash, PROFILE_KEYS, r, q);
  }
}
