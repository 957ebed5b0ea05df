/** What a proposal commitment and an effect id identify. */
module EffectIdentity {
  import opened Text
  import opened CanonicalJson
  import opened Commitments
  import opened Authority

  lemma IntTextInjective(a: int, b: int)
    ensures IntText(a) == IntText(b) <==> a == b
  {
    IntTextReads(a);
    IntTextReads(b);
  }

  lemma AmountInjective(a: nat, b: nat)
    ensures Printable(AmountJson(a))
    ensures AmountJson(a) == AmountJson(b) <==> a == b
  {
    var s, t := NatText(a) + ".0", NatText(b) + ".0";
    DigitsAreUnmarked(NatText(a));
    assert FloatMark(s[|NatText(a)|]);
    assert s[..|s| - 2] == NatText(a) && t[..|t| - 2] == NatText(b);
    ReadNatText(a);
    ReadNatText(b);
  }

  lemma StringsNormal(xs: seq<string>)
    ensures Printable(StringsJson(xs)) && Normal(StringsJson(xs)) == StringsJson(xs)
  {
    assert NormalItems(StringsJson(xs).items) == StringsJson(xs).items;
  }

  lemma StringsInjective(xs: seq<string>, ys: seq<string>)
    ensures StringsJson(xs) == StringsJson(ys) <==> xs == ys
  {
    var a, b := StringsJson(xs).items, StringsJson(ys).items;
    if a == b {
      assert |xs| == |a| == |ys|;
      forall i | 0 <= i < |xs| ensures xs[i] == ys[i] {
        assert a[i] == Str(xs[i]) && b[i] == Str(ys[i]);
      }
    }
  }

  lemma StringsAreSame(xs: seq<string>, ys: seq<string>)
    ensures WellFormed(StringsJson(xs)) && (Same(StringsJson(xs), StringsJson(ys)) <==> xs == ys)
  {
    var a, b := StringsJson(xs).items, StringsJson(ys).items;
    if Same(StringsJson(xs), StringsJson(ys)) {
      forall i | 0 <= i < |xs| ensures xs[i] == ys[i] {
        assert Same(a[i], b[i]) && a[i] == Str(xs[i]) && b[i] == Str(ys[i]);
      }
    }
  }

  /** Two optional instants print alike only when they are the same. */
  lemma OptionTimeInjective(a: Option<Time>, b: Option<Time>)
    ensures OptionTimeJson(a) == OptionTimeJson(b) <==> a == b
  {
    if a.Some? && b.Some? {
      IntTextInjective(a.value, b.value);
    }
  }

  ghost predicate WellFormedProposal(p: Proposal) {
    WellFormed(Obj(p.payload)) && WellFormed(Obj(p.riskMetadata))
  }

  /** The same operation: equal in every field, dictionaries up to the order of their entries. */
  ghost predicate SameOperation(p: Proposal, q: Proposal) {
    && Same(Obj(p.payload), Obj(q.payload))
    && Same(Obj(p.riskMetadata), Obj(q.riskMetadata))
    && q == p.(payload := q.payload, riskMetadata := q.riskMetadata)
  }

  lemma ProposalPrintable(p: Proposal)
    requires WellFormedProposal(p)
    ensures forall i | 0 <= i < 12 :: Printable(ProposalHead(p)[i])
    ensures forall i | 0 <= i < 11 :: Printable(ProposalTail(p)[i])
  {
    WellFormedIsPrintable(Obj(p.payload));
    WellFormedIsPrintable(Obj(p.riskMetadata));
    AmountInjective(p.amount, p.amount);
    StringsNormal(p.requestedPermissions);
    StringsNormal(p.expectedSideEffects);
    StringsNormal(p.evidenceRefs);
  }

  lemma HeadIdentifies(p: Proposal, q: Proposal)
    requires forall i | 0 <= i < 12 :: Normal(ProposalHead(p)[i]) == Normal(ProposalHead(q)[i])
    ensures p.manifestId == q.manifestId && p.manifestVersion == q.manifestVersion
    ensures p.manifestDigest == q.manifestDigest && p.actor == q.actor && p.principal == q.principal
    ensures p.actionId == q.actionId && p.adapterId == q.adapterId && p.target == q.target
    ensures Same(Obj(p.payload), Obj(q.payload)) && p.payloadCommitment == q.payloadCommitment
    ensures p.requestedPermissions == q.requestedPermissions && p.amount == q.amount
  {
    var a, b := ProposalHead(p), ProposalHead(q);
    assert Normal(a[0]) == Normal(b[0]) && Normal(a[1]) == Normal(b[1]) && Normal(a[2]) == Normal(b[2]);
    assert Normal(a[3]) == Normal(b[3]) && Normal(a[4]) == Normal(b[4]) && Normal(a[5]) == Normal(b[5]);
    assert Normal(a[6]) == Normal(b[6]) && Normal(a[7]) == Normal(b[7]) && Normal(a[9]) == Normal(b[9]);
    assert Normal(a[8]) == Normal(b[8]) && Normal(a[10]) == Normal(b[10]) && Normal(a[11]) == Normal(b[11]);
    OneNormalIsSame(Obj(p.payload), Obj(q.payload));
    StringsNormal(p.requestedPermissions);
    StringsNormal(q.requestedPermissions);
    StringsInjective(p.requestedPermissions, q.requestedPermissions);
    AmountInjective(p.amount, q.amount);
  }

  lemma TailIdentifies(p: Proposal, q: Proposal)
    requires forall i | 0 <= i < 11 :: Normal(ProposalTail(p)[i]) == Normal(ProposalTail(q)[i])
    ensures p.unit == q.unit && p.effects == q.effects
    ensures p.authorityContextRef == q.authorityContextRef && p.requirementId == q.requirementId
    ensures Same(Obj(p.riskMetadata), Obj(q.riskMetadata))
    ensures p.notBefore == q.notBefore && p.expiresAt == q.expiresAt
    ensures p.correlationId == q.correlationId && p.runId == q.runId
    ensures p.expectedSideEffects == q.expectedSideEffects && p.evidenceRefs == q.evidenceRefs
  {
    var a, b := ProposalTail(p), ProposalTail(q);
    assert Normal(a[0]) == Normal(b[0]) && Normal(a[1]) == Normal(b[1]) && Normal(a[2]) == Normal(b[2]);
    assert Normal(a[3]) == Normal(b[3]) && Normal(a[4]) == Normal(b[4]) && Normal(a[5]) == Normal(b[5]);
    assert Normal(a[6]) == Normal(b[6]) && Normal(a[7]) == Normal(b[7]) && Normal(a[8]) == Normal(b[8]);
    assert Normal(a[9]) == Normal(b[9]) && Normal(a[10]) == Normal(b[10]);
    OneNormalIsSame(Obj(p.riskMetadata), Obj(q.riskMetadata));
    OptionTimeInjective(p.notBefore, q.notBefore);
    OptionTimeInjective(p.expiresAt, q.expiresAt);
    StringsNormal(p.expectedSideEffects);
    StringsNormal(q.expectedSideEffects);
    StringsInjective(p.expectedSideEffects, q.expectedSideEffects);
    StringsNormal(p.evidenceRefs);
    StringsNormal(q.evidenceRefs);
    StringsInjective(p.evidenceRefs, q.evidenceRefs);
  }

  function ProposalValues(p: Proposal): (vs: seq<Json>)
    ensures |vs| == if p.tenantId.None? then 23 else 24
    ensures vs[..12] == ProposalHead(p) && vs[12..23] == ProposalTail(p)
    ensures p.tenantId.Some? ==> vs[23] == Str(p.tenantId.value)
  {
    ProposalHead(p) + ProposalTail(p) + (if p.tenantId.None? then [] else [Str(p.tenantId.value)])
  }

  lemma ProposalIsRecord(p: Proposal)
    ensures |PROPOSAL_KEYS| == 23
    ensures ProposalJson(p)
         == Record(if p.tenantId.None? then PROPOSAL_KEYS else PROPOSAL_KEYS + ["tenant_id"], ProposalValues(p))
  {
    assert p.tenantId.None? ==> ProposalValues(p) == ProposalHead(p) + ProposalTail(p);
  }

  lemma ProposalValuesPrintable(p: Proposal)
    requires WellFormedProposal(p)
    ensures forall i | 0 <= i < |ProposalValues(p)| :: Printable(ProposalValues(p)[i])
  {
    ProposalPrintable(p);
    var vs := ProposalValues(p);
    forall i | 0 <= i < |vs| ensures Printable(vs[i]) {
      if i < 12 { assert vs[i] == vs[..12][i]; }
      else if i < 23 { assert vs[i] == vs[12..23][i - 12]; }
    }
  }

  lemma ProposalValuesIdentify(p: Proposal, q: Proposal)
    requires p.tenantId.None? <==> q.tenantId.None?
    requires forall i | 0 <= i < |ProposalValues(p)| :: Normal(ProposalValues(p)[i]) == Normal(ProposalValues(q)[i])
    ensures SameOperation(p, q)
  {
    var vs, ws := ProposalValues(p), ProposalValues(q);
    forall i | 0 <= i < 12 ensures Normal(ProposalHead(p)[i]) == Normal(ProposalHead(q)[i]) {
      assert vs[..12][i] == vs[i] && ws[..12][i] == ws[i];
    }
    forall i | 0 <= i < 11 ensures Normal(ProposalTail(p)[i]) == Normal(ProposalTail(q)[i]) {
      assert vs[12..23][i] == vs[12 + i] && ws[12..23][i] == ws[12 + i];
    }
    HeadIdentifies(p, q);
    TailIdentifies(p, q);
    if p.tenantId.Some? {
      assert Normal(vs[23]) == Normal(ws[23]);
    }
  }

  /** With an injective hash a proposal commitment identifies the whole operation. */
  lemma CommitmentIdentifiesOperation(hash: Hash, p: Proposal, q: Proposal)
    requires Injective(hash) && WellFormedProposal(p) && WellFormedProposal(q)
    requires ProposalCommitment(hash, p) == ProposalCommitment(hash, q)
    ensures SameOperation(p, q)
  {
    ProposalIsRecord(p);
    ProposalIsRecord(q);
    ProposalUnderKeys(hash, PROPOSAL_KEYS, p, q);
  }

  lemma ProposalUnderKeys(hash: Hash, keys: seq<string>, p: Proposal, q: Proposal)
    requires Injective(hash) && WellFormedProposal(p) && WellFormedProposal(q) && |keys| == 23
    requires Commitment(hash, Record(if p.tenantId.None? then keys else keys + ["tenant_id"], ProposalValues(p)))
          == Commitment(hash, Record(if q.tenantId.None? then keys else keys + ["tenant_id"], ProposalValues(q)))
    ensures SameOperation(p, q)
  {
    var ks := if p.tenantId.None? then keys else keys + ["tenant_id"];
    var ls := if q.tenantId.None? then keys else keys + ["tenant_id"];
    ProposalValuesPrintable(p);
    ProposalValuesPrintable(q);
    RecordCommitsSize(hash, ks, ProposalValues(p), ls, ProposalValues(q));
    RecordCommitsValues(hash, ks, ProposalValues(p), ProposalValues(q));
    ProposalValuesIdentify(p, q);
  }

  /** Effect ids agree exactly when proposal commitment, grant and revision do; the id
      of a held proposal, which names no grant, is never the id of an authorization. */
  lemma EffectIdIdentifies(hash: Hash, c: string, g: Option<(string, string)>, d: string, k: Option<(string, string)>)
    requires Injective(hash)
    ensures EffectId(hash, c, g) == EffectId(hash, d, k) <==> c == d && g == k
  {
    if EffectId(hash, c, g) == EffectId(hash, d, k) {
      TripleIdentifies(hash, EFFECT_KEYS,
        Str(c), if g.Some? then Str(g.value.0) else Null, if g.Some? then Str(g.value.1) else Null,
        Str(d), if k.Some? then Str(k.value.0) else Null, if k.Some? then Str(k.value.1) else Null);
    }
  }

  lemma TripleIdentifies(hash: Hash, keys: seq<string>, a: Json, b: Json, c: Json, d: Json, e: Json, f: Json)
    requires Injective(hash) && |keys| == 3
    requires forall v | v in {a, b, c, d, e, f} :: v.Str? || v.Null?
    requires Commitment(hash, Record(keys, [a, b, c])) == Commitment(hash, Record(keys, [d, e, f]))
    ensures a == d && b == e && c == f
  {
    hide Commitment, Record, Injective;
    var vs, ws := [a, b, c], [d, e, f];
    RecordCommitsValues(hash, keys, vs, ws);
    assert Normal(vs[0]) == Normal(ws[0]) && Normal(vs[1]) == Normal(ws[1]) && Normal(vs[2]) == Normal(ws[2]);
  }

  /** Operations that share an effect id are the same operation under the same grant revision. */
  lemma EffectIdIdentifiesOperation(hash: Hash, p: Proposal, g: Option<(string, string)>,
                                    q: Proposal, k: Option<(string, string)>)
    requires Injective(hash) && WellFormedProposal(p) && WellFormedProposal(q)
    requires EffectId(hash, ProposalCommitment(hash, p), g) == EffectId(hash, ProposalCommitment(hash, q), k)
    ensures SameOperation(p, q) && g == k
  {
    EffectIdIdentifies(hash, ProposalCommitment(hash, p), g, ProposalCommitment(hash, q), k);
    CommitmentIdentifiesOperation(hash, p, q);
  }
}
