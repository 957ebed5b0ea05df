/** Effect ids across a whole store: what two recorded decisions that share one have in common. */
module DecisionIds {
  import opened Text
  import opened Commitments
  import opened Authority
  import opened EffectIdentity
  import opened Resolution
  import opened Destination
  import opened RunRecords
  import opened Reconciliations
  import opened ChangedInputs
  import opened Workflow
  import ResolutionLaws

  /** The id a decision carries is the id of its binding, or of a bare proposal when it has none. */
  ghost predicate Minted(hash: Hash, d: Decision) {
    && (d.result == DecisionResult.Authorized <==> d.binding.Some?)
    && (d.binding.Some? ==> d.effectId == BindingEffectId(hash, d.binding.value))
    && (d.binding.None? ==> exists c: string :: d.effectId == EffectId(hash, c, None))
  }

  ghost predicate AllMinted(hash: Hash, s: System) {
    && (forall d | d in s.records.decisions :: Minted(hash, d))
    && (forall i | 0 <= i < |s.executions| && s.executions[i].stage.Deciding? ::
          Minted(hash, s.executions[i].stage.decision))
  }

  lemma DecisionsAreMinted(hash: Hash, p: Proposal, now: Time, id: string, found: Resolved)
    ensures Minted(hash, DecisionFor(hash, p, now, id, found))
  {
    hide EffectId, ProposalCommitment;
    assert EffectId(hash, ProposalCommitment(hash, p), None) == EffectId(hash, ProposalCommitment(hash, p), None);
  }

  ghost predicate Recorded(s: System, n: System) {
    || n.records.decisions == s.records.decisions
    || exists i :: RecordedBy(s, n, i)
  }

  ghost predicate RecordedBy(s: System, n: System, i: nat) {
    && i < |s.executions| && s.executions[i].stage.Deciding?
    && n.records.decisions == s.records.decisions + [s.executions[i].stage.decision]
  }

  lemma OnlyDecidingRecords(hash: Hash, s: System, step: Step)
    ensures Recorded(s, Do(hash, s, step))
  {
    hide Resolve, Changed, Judged, Unavailable, Observe, DecisionFor, RefusalReasons, Onward;
    hide RequestOf, Presentable;
    var n := Do(hash, s, step);
    if step.Move? && step.execution < |s.executions| && s.executions[step.execution].stage.Deciding? {
      assert RecordedBy(s, n, step.execution);
    }
  }

  /** A decision about to be recorded was so before the step, or the step made it. */
  ghost predicate FromBefore(hash: Hash, s: System, n: System, i: nat) {
    i < |n.executions| && (n.executions[i].stage.Deciding? ==>
      || Minted(hash, n.executions[i].stage.decision)
      || (i < |s.executions| && s.executions[i] == n.executions[i]))
  }

  lemma DecidingIsMinted(hash: Hash, s: System, step: Step, i: nat)
    requires i < |Do(hash, s, step).executions|
    ensures FromBefore(hash, s, Do(hash, s, step), i)
  {
    hide Resolve, Changed, Judged, Unavailable, Observe, DecisionFor, RefusalReasons, Minted;
    hide RequestOf, Presentable;
    if step.Move? && step.execution < |s.executions| && s.executions[step.execution].task.Decide? {
      var t, env := s.executions[step.execution].task, step.environment;
      DecisionsAreMinted(hash, t.proposal, t.now, env.freshId, Resolve(hash, t.config, env.view, t.proposal, t.now));
    }
  }

  lemma StepKeepsMinted(hash: Hash, s: System, step: Step)
    requires AllMinted(hash, s)
    ensures AllMinted(hash, Do(hash, s, step))
  {
    hide Do, Minted;
    var n := Do(hash, s, step);
    OnlyDecidingRecords(hash, s, step);
    forall i | 0 <= i < |n.executions| && n.executions[i].stage.Deciding?
      ensures Minted(hash, n.executions[i].stage.decision)
    {
      DecidingIsMinted(hash, s, step, i);
    }
  }

  lemma {:induction false} RunKeepsMinted(hash: Hash, steps: seq<Step>)
    ensures AllMinted(hash, Run(hash, INITIAL, steps))
  {
    if steps == [] {
    } else {
      hide Do, AllMinted;
      var n := |steps| - 1;
      RunKeepsMinted(hash, steps[..n]);
      StepKeepsMinted(hash, Run(hash, INITIAL, steps[..n]), steps[n]);
    }
  }

  /** With an injective hash, two recorded decisions that may be executed share an effect id
      exactly when they bind one proposal under one grant revision, and a held decision never
      shares its id with one that may be executed. */
  lemma DecisionsShareIdsRightly(hash: Hash, steps: seq<Step>, d: Decision, e: Decision)
    requires Injective(hash)
    requires d in Run(hash, INITIAL, steps).records.decisions && e in Run(hash, INITIAL, steps).records.decisions
    requires d.result == DecisionResult.Authorized
    ensures d.binding.Some?
    ensures d.effectId == e.effectId <==>
      && e.result == DecisionResult.Authorized && e.binding.Some?
      && e.binding.value.proposalCommitment == d.binding.value.proposalCommitment
      && e.binding.value.grantId == d.binding.value.grantId
      && e.binding.value.grantRevision == d.binding.value.grantRevision
  {
    hide Run, EffectId;
    RunKeepsMinted(hash, steps);
    assert Minted(hash, d) && Minted(hash, e);
    var b := d.binding.value;
    if e.binding.Some? {
      var k := e.binding.value;
      EffectIdIdentifies(hash, b.proposalCommitment, Some((b.grantId, b.grantRevision)),
                         k.proposalCommitment, Some((k.grantId, k.grantRevision)));
    } else {
      var c :| e.effectId == EffectId(hash, c, None);
      EffectIdIdentifies(hash, b.proposalCommitment, Some((b.grantId, b.grantRevision)), c, None);
    }
  }

  /** A decision authorizes exactly when the operation is authorized at the decision's time, and
      a held one carries the resolver's reasons. */
  lemma DecisionFollowsAuthority(hash: Hash, c: Config, r: Resolver, p: Proposal, now: Time, id: string)
    ensures var found := Resolve(hash, c, r, p, now);
      var d := DecisionFor(hash, p, now, id, found);
      && (d.result == DecisionResult.Authorized <==> ResolutionLaws.Authorized(hash, c, r, p, now))
      && (d.result == DecisionResult.Authorized ==> d.reasons == [] && d.binding == found.binding && d.binding.Some?)
      && (d.result == DecisionResult.Hold ==> d.reasons == found.reasons != [] && d.binding.None?)
      && d.result != DecisionResult.Deny && d.decisionId == id && d.decidedAt == now && Minted(hash, d)
  {
    DecisionsAreMinted(hash, p, now, id, Resolve(hash, c, r, p, now));
    ResolutionLaws.ResolveDecides(hash, c, r, p, now);
    hide Resolve, ResolutionLaws.Authorized, EffectId, ProposalCommitment, Minted;
  }
}
