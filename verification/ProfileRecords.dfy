/** Decision-input records, and the JSON their commitments are taken over. */
module ProfileRecords {
  import opened Text
  import opened CanonicalJson
  import opened Commitments
  import Authority

  type Time = Authority.Time

  // ---- what a record holds -------------------------------------------------

  /** A value beside the commitment that is declared for it. */
  datatype Named = Named(value: Json, commitment: string)

  datatype Policy = Policy(ref: string, version: string, content: Named, semantics: Named)

  datatype Obligation = Obligation(
    id: string, originRef: string, originVersion: string, required: bool, sourceRef: string, maxAge: int,
    semanticsId: string, semanticsCommitment: string, commitment: string)

  /** An instant that is missing or does not parse is None. */
  datatype Item = Item(
    id: string, obligationIds: seq<string>, sourceRef: string, observedAt: Option<Time>, state: string,
    content: Named, provenance: Named, assuranceClass: string)

  datatype Expectation = Expectation(obligationId: string, commitment: string)

  datatype Requirement = Requirement(
    content: Named, nonOverridable: bool, expected: seq<Expectation>, originRef: string)

  datatype Outcome = Outcome(
    inputCommitment: string, reasonPrecedence: seq<string>, result: string, primaryReason: Option<string>)

  datatype Assurance = Assurance(name: string, assurance: string)

  datatype ProfileRecord = ProfileRecord(
    profileVersion: string, authorizing: bool, canonicalization: string, algorithm: string,
    candidate: Named, assurance: seq<Assurance>, policies: seq<Policy>, evaluationTime: Option<Time>, resolver: Named,
    obligations: seq<Obligation>, requirements: seq<Requirement>, evidence: seq<Item>, context: Named,
    decision: Outcome, commitment: string)

  /** provenance["source_ref"], when provenance is a dictionary that has it as a string. */
  function SourceIn(provenance: Json): Option<string> {
    if provenance.Obj? then TextUnder(provenance.fields, "source_ref") else None
  }

  function TextUnder(fs: seq<Field>, key: string): Option<string> {
    if fs == [] then None
    else if fs[0].key == key then if fs[0].value.Str? then Some(fs[0].value.s) else None
    else TextUnder(fs[1..], key)
  }

  // ---- JSON forms ----------------------------------------------------------

  const OBLIGATION_KEYS := ["obligation_id", "policy_origin_ref", "policy_origin_version", "required", "source_ref",
                            "max_age_seconds", "resolution_semantics_id", "resolution_semantics_commitment"]

  function ObligationValues(o: Obligation): (vs: seq<Json>)
    ensures |vs| == 8
  {
    [Str(o.id), Str(o.originRef), Str(o.originVersion), Bool(o.required), Str(o.sourceRef), Int(o.maxAge),
     Str(o.semanticsId), Str(o.semanticsCommitment)]
  }

  /** What an obligation's own commitment is taken over. */
  function ObligationJson(o: Obligation): Json {
    Record(OBLIGATION_KEYS, ObligationValues(o))
  }

  /** The keys of every dictionary in a record but the obligation's semantic ones. */
  datatype Keys = Keys(
    policy: seq<string>, obligation: seq<string>, requirement: seq<string>, item: seq<string>,
    materialized: seq<string>, semantics: seq<string>, decision: seq<string>,
    inputs: seq<string>, protected: seq<string>)
  {
    predicate Fit() {
      && |policy| == 6 && |obligation| == 9 && |requirement| == 5 && |item| == 10
      && |materialized| == 2 && |semantics| == 2 && |decision| == 4 && |inputs| == 12 && |protected| == 14
    }
  }

  const PROFILE_KEYS := Keys(
    ["ref", "version", "content", "content_commitment", "evaluation_semantics", "evaluation_semantics_commitment"],
    ["obligation_id", "policy_origin_ref", "policy_origin_version", "required", "source_ref", "max_age_seconds",
     "resolution_semantics_id", "resolution_semantics_commitment", "obligation_commitment"],
    ["content", "commitment", "non_overridable", "obligation_commitments", "policy_origin_ref"],
    ["evidence_id", "obligation_ids", "source_ref", "observed_at", "declared_state", "content", "content_commitment",
     "provenance", "provenance_commitment", "assurance_class"],
    ["materialized", "commitment"],
    ["classification_semantics", "classification_semantics_commitment"],
    ["input_commitment", "reason_precedence", "result", "primary_reason"],
    ["profile_version", "canonicalization_profile", "commitment_algorithm", "candidate", "institutional_requirements",
     "policies", "evidence_obligations", "evidence_items", "context", "evaluation_time", "resolver_semantics",
     "assurance"],
    ["profile_version", "canonicalization_profile", "commitment_algorithm", "candidate", "institutional_requirements",
     "policies", "evidence_obligations", "evidence_items", "context", "evaluation_time", "resolver_semantics",
     "assurance", "authorizing", "decision"])

  lemma ProfileKeysFit()
    ensures PROFILE_KEYS.Fit()
  {}

  function NamedJson(keys: seq<string>, n: Named): Json
    requires |keys| == 2
  {
    Record(keys, [n.value, Str(n.commitment)])
  }

  function PolicyJson(k: Keys, p: Policy): Json
    requires k.Fit()
  {
    Record(k.policy, [Str(p.ref), Str(p.version), p.content.value, Str(p.content.commitment), p.semantics.value,
                      Str(p.semantics.commitment)])
  }

  function WholeObligationJson(k: Keys, o: Obligation): Json
    requires k.Fit()
  {
    Record(k.obligation, ObligationValues(o) + [Str(o.commitment)])
  }

  function ExpectedJson(es: seq<Expectation>): Json {
    Obj(seq(|es|, i requires 0 <= i < |es| => Field(es[i].obligationId, Str(es[i].commitment))))
  }

  function RequirementJson(k: Keys, r: Requirement): Json
    requires k.Fit()
  {
    Record(k.requirement, [r.content.value, Str(r.content.commitment), Bool(r.nonOverridable), ExpectedJson(r.expected),
                           Str(r.originRef)])
  }

  function ItemJson(k: Keys, x: Item): Json
    requires k.Fit()
  {
    Record(k.item, [Str(x.id), Authority.StringsJson(x.obligationIds), Str(x.sourceRef),
                    Authority.OptionTimeJson(x.observedAt), Str(x.state), x.content.value, Str(x.content.commitment),
                    x.provenance.value, Str(x.provenance.commitment), Str(x.assuranceClass)])
  }

  function AssuranceJson(xs: seq<Assurance>): Json {
    Obj(seq(|xs|, i requires 0 <= i < |xs| => Field(xs[i].name, Str(xs[i].assurance))))
  }

  function DecisionJson(k: Keys, d: Outcome): Json
    requires k.Fit()
  {
    Record(k.decision, [Str(d.inputCommitment), Authority.StringsJson(d.reasonPrecedence), Str(d.result),
                        Authority.OptionJson(d.primaryReason)])
  }

  function PoliciesJson(k: Keys, ps: seq<Policy>): (items: seq<Json>)
    requires k.Fit()
    ensures |items| == |ps| && forall i | 0 <= i < |ps| :: items[i] == PolicyJson(k, ps[i])
  {
    seq(|ps|, i requires 0 <= i < |ps| => PolicyJson(k, ps[i]))
  }

  function ObligationsJson(k: Keys, os: seq<Obligation>): (items: seq<Json>)
    requires k.Fit()
    ensures |items| == |os| && forall i | 0 <= i < |os| :: items[i] == WholeObligationJson(k, os[i])
  {
    seq(|os|, i requires 0 <= i < |os| => WholeObligationJson(k, os[i]))
  }

  function RequirementsJson(k: Keys, rs: seq<Requirement>): (items: seq<Json>)
    requires k.Fit()
    ensures |items| == |rs| && forall i | 0 <= i < |rs| :: items[i] == RequirementJson(k, rs[i])
  {
    seq(|rs|, i requires 0 <= i < |rs| => RequirementJson(k, rs[i]))
  }

  function ItemsJson(k: Keys, xs: seq<Item>): (items: seq<Json>)
    requires k.Fit()
    ensures |items| == |xs| && forall i | 0 <= i < |xs| :: items[i] == ItemJson(k, xs[i])
  {
    seq(|xs|, i requires 0 <= i < |xs| => ItemJson(k, xs[i]))
  }

  function InputValues(k: Keys, r: ProfileRecord): (vs: seq<Json>)
    requires k.Fit()
    ensures |vs| == 12
  {
    [Str(r.profileVersion), Str(r.canonicalization), Str(r.algorithm), NamedJson(k.materialized, r.candidate),
     Arr(RequirementsJson(k, r.requirements)), Arr(PoliciesJson(k, r.policies)), Arr(ObligationsJson(k, r.obligations)),
     Arr(ItemsJson(k, r.evidence)), NamedJson(k.materialized, r.context), Authority.OptionTimeJson(r.evaluationTime),
     NamedJson(k.semantics, r.resolver), AssuranceJson(r.assurance)]
  }

  /** The closed inputs of the decision. */
  function InputsUnder(k: Keys, r: ProfileRecord): Json
    requires k.Fit()
  {
    Record(k.inputs, InputValues(k, r))
  }

  /** The record without its own commitment. */
  function ProtectedUnder(k: Keys, r: ProfileRecord): Json
    requires k.Fit()
  {
    Record(k.protected, InputValues(k, r) + [Bool(r.authorizing), DecisionJson(k, r.decision)])
  }

  function InputsJson(r: ProfileRecord): Json {
    ProfileKeysFit();
    InputsUnder(PROFILE_KEYS, r)
  }

  function ProtectedJson(r: ProfileRecord): Json {
    ProfileKeysFit();
    ProtectedUnder(PROFILE_KEYS, r)
  }
}
