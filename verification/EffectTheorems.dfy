/** What every run guarantees about the destination's effects. */
module EffectTheorems {
  import opened Text
  import opened CanonicalJson
  import opened Commitments
  import opened Authority
  import opened Resolution
  import opened ResolutionLaws
  import opened Destination
  import opened RunRecords
  import opened Reconciliations
  import opened ChangedInputs
  import opened Workflow
  import opened WorkflowSafety

  /** An effect id is committed at most once in a run, and what is committed stays as it was. */
  lemma EffectsAreOnceAndForever(hash: Hash, earlier: seq<Step>, later: seq<Step>)
    ensures var s, t := Run(hash, INITIAL, earlier), Run(hash, INITIAL, earlier + later);
      && (forall id | id in s.ledger.effects :: id in t.ledger.effects && t.ledger.effects[id] == s.ledger.effects[id])
      && (forall j, k | 0 <= j < k < |t.history.commits| ::
            t.history.commits[j].request.effect.effectId != t.history.commits[k].request.effect.effectId)
      && (forall id :: id in t.ledger.effects <==>
            exists j | 0 <= j < |t.history.commits| :: t.history.commits[j].request.effect.effectId == id)
  {
    hide Run, Placed, TrulyPassed, CommitFits, Resolve, Consistent;
    var s, t := Run(hash, INITIAL, earlier), Run(hash, INITIAL, earlier + later);
    RunIsSafe(hash, earlier);
    RunIsSafe(hash, earlier + later);
    RunConcat(hash, INITIAL, earlier, later);
    RunGrows(hash, s, later);
    forall id | id in s.ledger.effects
      ensures id in t.ledger.effects && t.ledger.effects[id] == s.ledger.effects[id]
    {
      var j :| 0 <= j < |s.history.commits| && s.history.commits[j].request.effect.effectId == id;
      assert t.history.commits[j] == s.history.commits[j];
    }
  }

  /** The decision and the revalidation behind an effect. */
  ghost predicate Accounts(hash: Hash, s: System, e: Effect, d: Decision, k: nat) {
    && d in s.records.decisions && d.result == DecisionResult.Authorized && d.binding.Some?
    && k < |s.history.passed| && s.history.passed[k].execution < |s.executions|
    && var b := d.binding.value;
    && var t := s.executions[s.history.passed[k].execution].task;
    && t.Execute? && t.decision == d
    && Resolve(hash, t.config, s.history.passed[k].view, t.proposal, t.now).binding == Some(b)
    && e.effectId == d.effectId == BindingEffectId(hash, b)
    && e.grantId == b.grantId && e.target == b.target && e.amount == b.amount && e.unit == b.unit
    && Commitment(hash, Obj(e.payload)) == b.payloadCommitment
    && b.proposalCommitment == ProposalCommitment(hash, t.proposal) && e.payload == t.proposal.payload
  }

  lemma RequestAccounts(hash: Hash, s: System, i: nat, k: nat)
    requires i < |s.executions| && k < |s.history.passed| && s.history.passed[k].execution == i
    requires TrulyPassed(hash, s, s.history.passed[k])
    ensures Accounts(hash, s, RequestOf(s.executions[i].task).effect, s.executions[i].task.decision, k)
  {
    var t, e := s.executions[i].task, s.history.passed[k];
    hide Resolve, BindingEffectId, ProposalCommitment, Commitment, ContextOf;
    BindingRecordsProposal(hash, t.config, e.view, t.proposal, t.now);
  }

  /** Every stored effect traces to a persisted authorized decision whose binding gives its id,
      grant, target, amount and unit and commits to its payload, and to a revalidation that
      passed before it. Authority is known to hold at that revalidation step, not at the commit. */
  lemma EveryEffectIsAccountedFor(hash: Hash, steps: seq<Step>, id: string)
    requires id in Run(hash, INITIAL, steps).ledger.effects
    ensures var s := Run(hash, INITIAL, steps);
      exists d, k: nat :: Accounts(hash, s, s.ledger.effects[id], d, k)
  {
    hide Run, Placed, Resolve, Consistent, BindingEffectId;
    var s := Run(hash, INITIAL, steps);
    RunIsSafe(hash, steps);
    var j :| 0 <= j < |s.history.commits| && s.history.commits[j].request.effect.effectId == id;
    assert CommitFits(s, j);
    var i := s.history.commits[j].execution;
    var k :| 0 <= k < |s.history.passed| && s.history.passed[k].execution == i;
    RequestAccounts(hash, s, i, k);
    assert Accounts(hash, s, s.ledger.effects[id], s.executions[i].task.decision, k);
  }

  /** A step that commits an effect is a call by an execution whose revalidation is already on
      record, and stores exactly what its decision's binding names. */
  lemma CommitFollowsRevalidation(hash: Hash, earlier: seq<Step>, step: Step, id: string)
    requires id !in Run(hash, INITIAL, earlier).ledger.effects
    requires id in Do(hash, Run(hash, INITIAL, earlier), step).ledger.effects
    ensures var s, t := Run(hash, INITIAL, earlier), Do(hash, Run(hash, INITIAL, earlier), step);
      && step.Move? && t.history.passed == s.history.passed
      && exists d, k: nat ::
          Accounts(hash, s, t.ledger.effects[id], d, k) && s.history.passed[k].execution == step.execution
  {
    hide Run, Do, Consistent, BindingEffectId, LedgerIsHistory, CommitFits, Accounts, RequestOf, Resolve, Persisted;
    var s := Run(hash, INITIAL, earlier);
    RunIsSafe(hash, earlier);
    CommittingStep(hash, s, step, id);
    var i := step.execution;
    assert Placed(hash, s, i);
    var k :| 0 <= k < |s.history.passed| && s.history.passed[k].execution == i;
    RequestAccounts(hash, s, i, k);
    assert Accounts(hash, s, Do(hash, s, step).ledger.effects[id], s.executions[i].task.decision, k);
  }

  lemma CommittingStep(hash: Hash, s: System, step: Step, id: string)
    requires id !in s.ledger.effects && id in Do(hash, s, step).ledger.effects
    ensures step.Move? && step.execution < |s.executions|
    ensures s.executions[step.execution].stage.Calling? && Executing(s.executions[step.execution])
    ensures Do(hash, s, step).ledger.effects[id] == RequestOf(s.executions[step.execution].task).effect
    ensures Do(hash, s, step).history.passed == s.history.passed
  {
    hide Resolve, Changed, Judged, Unavailable, Observe, DecisionFor, BindingEffectId;
  }

  // ---- the cap -------------------------------------------------------------

  lemma {:induction false} CountStaysUnder(commits: seq<CommitEvent>, g: string, cap: int)
    requires cap >= 0
    requires forall j | 0 <= j < |commits| && commits[j].request.effect.grantId == g ::
      Count(commits[..j], g) < commits[j].request.maxEffects <= cap
    ensures Count(commits, g) <= cap
  {
    if commits != [] {
      var n := |commits| - 1;
      if commits[n].request.effect.grantId != g {
        forall j | 0 <= j < n && commits[..n][j].request.effect.grantId == g
          ensures Count(commits[..n][..j], g) < commits[..n][j].request.maxEffects <= cap
        {
          assert commits[..n][..j] == commits[..j];
        }
        CountStaysUnder(commits[..n], g, cap);
      }
    }
  }

  /** A grant's counter counts its stored effects; each was admitted below its own binding's
      cap, so decisions that bind at most cap effects under a grant never yield more. */
  lemma GrantNeverExceedsItsCap(hash: Hash, steps: seq<Step>, g: string, cap: int)
    requires cap >= 0
    requires forall d | d in Run(hash, INITIAL, steps).records.decisions && d.binding.Some?
        && d.binding.value.grantId == g ::
      d.binding.value.effectiveMaxEffects <= cap
    ensures var s := Run(hash, INITIAL, steps);
      && Used(s.ledger, g) == |EffectsOf(s.ledger, g)| <= cap
      && (forall j | 0 <= j < |s.history.commits| ::
            Count(s.history.commits[..j], s.history.commits[j].request.effect.grantId)
              < s.history.commits[j].request.maxEffects)
  {
    hide Run, Placed, Resolve, BindingEffectId;
    var s := Run(hash, INITIAL, steps);
    RunIsSafe(hash, steps);
    forall j | 0 <= j < |s.history.commits|
      ensures Count(s.history.commits[..j], s.history.commits[j].request.effect.grantId)
                < s.history.commits[j].request.maxEffects
      ensures s.history.commits[j].request.effect.grantId == g ==> s.history.commits[j].request.maxEffects <= cap
    {
      assert CommitFits(s, j);
      var i := s.history.commits[j].execution;
      var k :| 0 <= k < |s.history.passed| && s.history.passed[k].execution == i;
      assert TrulyPassed(hash, s, s.history.passed[k]);
    }
    CountStaysUnder(s.history.commits, g, cap);
  }

  /** What every commit carried to the destination: the decision's effect under the bound grant and
      its bound cap, in the proposal's own terms. */
  lemma CommitsCarryTheirTerms(hash: Hash, steps: seq<Step>, j: nat)
    requires j < |Run(hash, INITIAL, steps).history.commits|
    ensures var s := Run(hash, INITIAL, steps);
      var c := s.history.commits[j];
      && c.execution < |s.executions| && s.executions[c.execution].task.Execute?
      && var t, e := s.executions[c.execution].task, c.request.effect;
      && t.decision in s.records.decisions && t.decision.binding.Some?
      && var b := t.decision.binding.value;
      && c.request.maxEffects == b.effectiveMaxEffects && e.grantId == b.grantId && e.effectId == t.decision.effectId
      && e.target == t.proposal.target && e.amount == t.proposal.amount && e.unit == t.proposal.unit
      && e.payload == t.proposal.payload
      && e.state == (if t.partial then EffectState.Partial else EffectState.Applied)
  {
    hide Run, Placed, Resolve, BindingEffectId, LedgerIsHistory;
    var s := Run(hash, INITIAL, steps);
    RunIsSafe(hash, steps);
    assert CommitFits(s, j);
    var i := s.history.commits[j].execution;
    var k :| 0 <= k < |s.history.passed| && s.history.passed[k].execution == i;
    assert TrulyPassed(hash, s, s.history.passed[k]);
  }
}
