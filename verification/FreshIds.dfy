/** Identifiers drawn for records: no two decisions of a run share one and no two refusals do, so a
    decision that authorizes can be presented for ever. */
module FreshIds {
  import opened Text
  import opened Commitments
  import opened Authority
  import opened Resolution
  import opened Destination
  import opened RunRecords
  import opened Reconciliations
  import opened ChangedInputs
  import opened Workflow
  import opened DecisionIds
  import WorkflowSafety

  /** An execution is about to record a decision under this id. */
  ghost predicate Drawn(s: System, i: nat, id: string) {
    i < |s.executions| && s.executions[i].stage.Deciding? && s.executions[i].stage.decision.decisionId == id
  }

  ghost predicate DecisionsApart(s: System) {
    && (forall d | d in s.records.decisions :: d.decisionId in s.issued)
    && (forall i, j | 0 <= i < j < |s.records.decisions| ::
          s.records.decisions[i].decisionId != s.records.decisions[j].decisionId)
    && (forall i: nat, id: string | Drawn(s, i, id) ::
          id in s.issued && forall d | d in s.records.decisions :: d.decisionId != id)
    && (forall i: nat, j: nat, id: string | Drawn(s, i, id) && Drawn(s, j, id) :: i == j)
  }

  ghost predicate RefusalsApart(s: System) {
    && (forall f | f in s.records.refusals :: f.refusalId in s.issued)
    && (forall i, j | 0 <= i < j < |s.records.refusals| ::
          s.records.refusals[i].refusalId != s.records.refusals[j].refusalId)
  }

  // ---- the shapes of a step ------------------------------------------------

  /** No decision is drawn or recorded. */
  ghost predicate Leaves(s: System, n: System) {
    && n.records.decisions == s.records.decisions && s.issued <= n.issued
    && forall i: nat, id: string | Drawn(n, i, id) :: Drawn(s, i, id)
  }

  ghost predicate Draws(s: System, n: System, i: nat, drawn: string) {
    && n.records.decisions == s.records.decisions && drawn !in s.issued && n.issued == s.issued + {drawn}
    && forall k: nat, id: string | Drawn(n, k, id) :: Drawn(s, k, id) || (k == i && id == drawn)
  }

  ghost predicate Files(s: System, n: System, i: nat) {
    && i < |s.executions| && s.executions[i].stage.Deciding? && n.issued == s.issued
    && n.records.decisions == s.records.decisions + [s.executions[i].stage.decision]
    && forall k: nat, id: string | Drawn(n, k, id) :: k != i && Drawn(s, k, id)
  }

  ghost predicate OneOfThese(s: System, n: System, step: Step) {
    || Leaves(s, n)
    || (step.Move? && Draws(s, n, step.execution, step.environment.freshId))
    || (step.Move? && Files(s, n, step.execution))
  }

  /** What one move does to decisions, identifiers and the mover's own stage. */
  ghost predicate Moved(s: System, n: System, i: nat, drawn: string) {
    && i < |s.executions| && |n.executions| == |s.executions|
    && (forall k | 0 <= k < |s.executions| && k != i :: n.executions[k] == s.executions[k])
    && if s.executions[i].stage.Deciding? then
         && n.records.decisions == s.records.decisions + [s.executions[i].stage.decision] && n.issued == s.issued
         && !n.executions[i].stage.Deciding?
       else
         && n.records.decisions == s.records.decisions && s.issued <= n.issued
         && (n.executions[i].stage.Deciding? ==>
               && n.executions[i].stage.decision.decisionId == drawn && drawn !in s.issued
               && n.issued == s.issued + {drawn})
  }

  lemma StartShape(hash: Hash, s: System, i: nat, env: Environment)
    requires i < |s.executions| && (s.executions[i].stage.Starting? || s.executions[i].stage.Deciding?)
    ensures Moved(s, Advance(hash, s, i, env), i, env.freshId)
  {
    hide Resolve, Presentable, BindingEffectId, EffectId, ProposalCommitment;
    hide Revalidate, Refuse, Load, ObserveStep, Accept, Conclude, Note, Call;
  }

  lemma ConcludeShape(s: System, i: nat, t: Task, phase: Phase, verdict: Reconciliation, env: Environment)
    requires i < |s.executions| && !s.executions[i].stage.Deciding?
    ensures Moved(s, Conclude(s, i, t, phase, verdict, env), i, env.freshId)
  {}

  lemma LaterShape(hash: Hash, s: System, i: nat, env: Environment)
    requires i < |s.executions| && !s.executions[i].stage.Starting? && !s.executions[i].stage.Deciding?
    ensures Moved(s, Advance(hash, s, i, env), i, env.freshId)
  {
    hide Resolve, Changed, Judged, Unavailable, Observe, RefusalReasons, RequestOf, Answer, Conclude, Start;
    hide BindingEffectId, EffectId, ProposalCommitment, HasAttempt, OutcomeOf, AfterApply, Admits;
    var stage := s.executions[i].stage;
    if stage.Concluding? { ConcludeShape(s, i, s.executions[i].task, stage.phase, stage.verdict, env); }
  }

  lemma MoveShape(hash: Hash, s: System, i: nat, env: Environment)
    requires i < |s.executions|
    ensures Moved(s, Advance(hash, s, i, env), i, env.freshId)
  {
    hide Advance, Moved;
    if s.executions[i].stage.Starting? || s.executions[i].stage.Deciding? {
      StartShape(hash, s, i, env);
    } else {
      LaterShape(hash, s, i, env);
    }
  }

  lemma StepShape(hash: Hash, s: System, step: Step)
    ensures OneOfThese(s, Do(hash, s, step), step)
  {
    hide Advance;
    if step.Move? && step.execution < |s.executions| {
      MoveShape(hash, s, step.execution, step.environment);
    }
  }

  lemma RefusalShape(hash: Hash, s: System, step: Step)
    ensures var n := Do(hash, s, step);
      && s.issued <= n.issued
      && (n.records.refusals == s.records.refusals
          || (step.Move? && |n.records.refusals| == |s.records.refusals| + 1
              && n.records.refusals[..|s.records.refusals|] == s.records.refusals
              && var id := n.records.refusals[|s.records.refusals|].refusalId;
                 id !in s.issued && id in n.issued))
  {
    hide Resolve, Changed, Judged, Unavailable, Observe, RefusalReasons, Presentable, RequestOf, Answer, Onward;
    hide BindingEffectId, EffectId, ProposalCommitment, HasAttempt, OutcomeOf, AfterApply, Admits, DecisionFor;
  }

  lemma FilingKeepsApart(s: System, n: System, i: nat)
    requires DecisionsApart(s) && Files(s, n, i)
    ensures DecisionsApart(n)
  {
    hide Drawn;
    var d := s.executions[i].stage.decision;
    assert Drawn(s, i, d.decisionId) by { AboutToFile(s, i); }
    forall e | e in n.records.decisions ensures e == d || e in s.records.decisions {}
    forall k: nat, id: string | Drawn(n, k, id)
      ensures id in n.issued && forall e | e in n.records.decisions :: e.decisionId != id
    {
      assert Drawn(s, k, id);
    }
  }

  lemma AboutToFile(s: System, i: nat)
    requires i < |s.executions| && s.executions[i].stage.Deciding?
    ensures Drawn(s, i, s.executions[i].stage.decision.decisionId)
  {}

  lemma StepKeepsApart(hash: Hash, s: System, step: Step)
    requires DecisionsApart(s) && RefusalsApart(s)
    ensures DecisionsApart(Do(hash, s, step)) && RefusalsApart(Do(hash, s, step))
  {
    hide Do, Drawn;
    var n := Do(hash, s, step);
    StepShape(hash, s, step);
    RefusalShape(hash, s, step);
    if !Leaves(s, n) && Files(s, n, step.execution) {
      FilingKeepsApart(s, n, step.execution);
    } else {
      assert DecisionsApart(n);
    }
    if n.records.refusals != s.records.refusals {
      var k := |s.records.refusals|;
      assert n.records.refusals == s.records.refusals + [n.records.refusals[k]];
    }
  }

  lemma {:induction false} RunKeepsApart(hash: Hash, steps: seq<Step>)
    ensures DecisionsApart(Run(hash, INITIAL, steps)) && RefusalsApart(Run(hash, INITIAL, steps))
  {
    if steps != [] {
      hide Do, DecisionsApart, RefusalsApart;
      var n := |steps| - 1;
      RunKeepsApart(hash, steps[..n]);
      StepKeepsApart(hash, Run(hash, INITIAL, steps[..n]), steps[n]);
    }
  }

  /** However executions interleave, no two recorded decisions have one id, and no two refusals. */
  lemma IdsNeverRepeat(hash: Hash, steps: seq<Step>, i: nat, j: nat)
    requires i < j
    ensures var r := Run(hash, INITIAL, steps).records;
      && (j < |r.decisions| ==> r.decisions[i].decisionId != r.decisions[j].decisionId)
      && (j < |r.refusals| ==> r.refusals[i].refusalId != r.refusals[j].refusalId)
  {
    hide Run;
    RunKeepsApart(hash, steps);
  }

  /** A decision that authorized can be presented in every later state: it is the one found under its
      id, and its effect id is that of its binding. */
  lemma AuthorizedStaysPresentable(hash: Hash, earlier: seq<Step>, later: seq<Step>, d: Decision)
    requires d in Run(hash, INITIAL, earlier).records.decisions && d.result == DecisionResult.Authorized
    ensures var ds := Run(hash, INITIAL, earlier + later).records.decisions;
      Sole(ds, d) && Presentable(hash, ds, d)
  {
    hide Run, BindingEffectId;
    var s, n := Run(hash, INITIAL, earlier), Run(hash, INITIAL, earlier + later);
    RunConcat(hash, INITIAL, earlier, later);
    WorkflowSafety.RunGrows(hash, s, later);
    RunKeepsMinted(hash, earlier);
    assert Minted(hash, d);
    RunKeepsApart(hash, earlier + later);
    var i :| 0 <= i < |s.records.decisions| && s.records.decisions[i] == d;
    assert n.records.decisions[i] == d;
    assert Sole(n.records.decisions, d);
    FoundExactlyWhenSole(n.records.decisions, d);
  }
}
