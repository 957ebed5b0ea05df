/** What a failed revalidation leaves behind, and what it can never lead to. */
module Refusals {
  import opened Text
  import opened CanonicalJson
  import opened Commitments
  import opened Authority
  import opened EffectIdentity
  import opened Reasons
  import opened Resolution
  import ResolutionLaws
  import opened Destination
  import opened RunRecords
  import opened Reconciliations
  import opened ChangedInputs
  import opened Workflow
  import opened WorkflowSafety

  // ---- when a revalidation refuses -----------------------------------------

  /** Reasons come out of the resolver sorted, so reporting them sorted changes nothing. */
  lemma ReasonsAreReported(hash: Hash, c: Config, r: Resolver, p: Proposal, now: Time, binding: Option<Binding>)
    ensures var found := Resolve(hash, c, r, p, now);
      RefusalReasons(found, binding) ==
        if !ResolutionLaws.Authorized(hash, c, r, p, now) then found.reasons
        else if found.binding != binding then ["authorization_binding_changed"]
        else []
  {
    ResolutionLaws.ResolveDecides(hash, c, r, p, now);
    var found := Resolve(hash, c, r, p, now);
    ReasonsAreSorted(hash, c, r, p, now);
    hide Resolve, ResolutionLaws.Authorized;
    SortedUnique(SortedSet(found.reasons), found.reasons);
  }

  lemma ReasonsAreSorted(hash: Hash, c: Config, r: Resolver, p: Proposal, now: Time)
    ensures StrictlySorted(Resolve(hash, c, r, p, now).reasons)
  {
    hide ResolveReasons, BindingOf, StrictlySorted;
    assert StrictlySorted([]) by { NothingIsSorted(); }
  }

  lemma NothingIsSorted()
    ensures StrictlySorted([])
  {}

  /** Where a revalidation leads: on, exactly when the operation is still authorized under the
      binding that was decided; to a refusal with the resolver's reasons, exactly when not. */
  ghost predicate LeadsTo(authorized: bool, found: Resolved, t: Task, next: Stage)
    requires t.Execute?
  {
    && (authorized ==> found.binding.Some?)
    && (next.Refusing? <==> !authorized || found.binding != t.decision.binding)
    && (next.Refusing? ==>
          next.reasons == if authorized then ["authorization_binding_changed"] else found.reasons)
    && (next.Loading? <==>
          authorized && found.binding == t.decision.binding && t.adapterId == found.binding.value.adapterId)
    && (next.Refusing? || next.Loading? || next.Finished?)
  }

  ghost predicate OnlyPlaces(s: System, n: System, i: nat) {
    && n.records == s.records && n.ledger == s.ledger && n.issued == s.issued
    && |n.executions| == |s.executions| && i < |s.executions|
    && n.executions == s.executions[i := n.executions[i]] && n.executions[i].task == s.executions[i].task
  }

  lemma RefusesExactlyWhenChanged(hash: Hash, s: System, i: nat, t: Task, env: Environment, n: System)
    requires i < |s.executions| && s.executions[i] == Execution(t, Revalidating) && Executing(s.executions[i])
    requires n == Do(hash, s, Move(i, env))
    ensures OnlyPlaces(s, n, i)
    ensures LeadsTo(ResolutionLaws.Authorized(hash, t.config, env.view, t.proposal, t.now),
                    Resolve(hash, t.config, env.view, t.proposal, t.now), t, n.executions[i].stage)
  {
    hide Do, Resolve, ResolutionLaws.Authorized, RefusalReasons;
    ReasonsAreReported(hash, t.config, env.view, t.proposal, t.now, t.decision.binding);
    ResolutionLaws.ResolveDecides(hash, t.config, env.view, t.proposal, t.now);
    RevalidatingStep(hash, s, i, env);
  }

  lemma RevalidatingStep(hash: Hash, s: System, i: nat, env: Environment)
    requires i < |s.executions| && s.executions[i].stage.Revalidating? && Executing(s.executions[i])
    ensures Do(hash, s, Move(i, env)) == Revalidate(hash, s, i, s.executions[i].task, env)
  {
    hide Start, Revalidate, Refuse, Load, ObserveStep, Accept, Conclude, Note, Call;
  }

  // ---- what a refusal does -------------------------------------------------

  /** Refusing appends one record, with its reasons sorted and not empty, and nothing else:
      no attempt, no observation, no call; the destination stays as it was. */
  lemma RefusalIsOneRecord(hash: Hash, steps: seq<Step>, i: nat, env: Environment)
    requires var s := Run(hash, INITIAL, steps);
      i < |s.executions| && s.executions[i].stage.Refusing? && env.freshId !in s.issued
    ensures var s, n := Run(hash, INITIAL, steps), Run(hash, INITIAL, steps + [Move(i, env)]);
      && (exists f :: n.records == s.records.(refusals := s.records.refusals + [f])
           && f.reasons == s.executions[i].stage.reasons != [] && StrictlySorted(f.reasons)
           && f.effectId == s.executions[i].task.decision.effectId
           && f.decisionId == s.executions[i].task.decision.decisionId
           && s.executions[i].task.decision in s.records.decisions
           && f.changed == Changed(hash, env.view, s.executions[i].task.proposal,
                                         s.executions[i].task.decision.binding.value))
      && n.ledger == s.ledger && n.history == s.history && n.executions[i].stage.Finished?
  {
    var s := Run(hash, INITIAL, steps);
    RunIsSafe(hash, steps);
    assert Placed(hash, s, i);
    RefusingStep(hash, s, i, env);
    hide Changed, BindingEffectId, Safe, Do, Run;
    RunConcat(hash, INITIAL, steps, [Move(i, env)]);
    RunOne(hash, s, Move(i, env));
  }

  lemma RunOne(hash: Hash, s: System, step: Step)
    ensures Run(hash, s, [step]) == Do(hash, s, step)
  {
    hide Do;
    assert [step][..0] == [];
  }

  lemma RefusingStep(hash: Hash, s: System, i: nat, env: Environment)
    requires i < |s.executions| && s.executions[i].stage.Refusing? && Executing(s.executions[i])
    ensures Do(hash, s, Move(i, env)) == Refuse(hash, s, i, s.executions[i].task, s.executions[i].stage.reasons, env)
  {
    hide Start, Revalidate, Refuse, Load, ObserveStep, Accept, Conclude, Note, Call;
  }

  // ---- what a refusal never leads to ---------------------------------------

  /** Stages before the destination is called. */
  predicate Early(stage: Stage) {
    match stage
    case Starting => true
    case Deciding(_) => true
    case Revalidating => true
    case Refusing(_) => true
    case Loading => true
    case Observing(phase) => phase.Before?
    case Accepting(phase, _, _) => phase.Before?
    case Concluding(phase, _) => phase.Before?
    case NotingAttempt(_) => true
    case NotingExisting(_) => true
    case Calling(_) => true
    case _ => false
  }

  /** Nothing calls before its time. */
  ghost predicate CallsAreLate(s: System) {
    && (forall k | 0 <= k < |s.history.calls| :: s.history.calls[k] < |s.executions|)
    && (forall k | 0 <= k < |s.history.calls| :: !Early(s.executions[s.history.calls[k]].stage))
  }

  ghost predicate StillLate(s: System, n: System, j: nat) {
    j < |s.executions| && j < |n.executions| && (!Early(s.executions[j].stage) ==> !Early(n.executions[j].stage))
  }

  lemma LateStaysLate(hash: Hash, s: System, step: Step, j: nat)
    requires j < |s.executions|
    ensures StillLate(s, Do(hash, s, step), j)
  {
    hide Resolve, Changed, Judged, Unavailable, Observe, Onward, DecisionFor, RefusalReasons, Presentable;
    hide RequestOf, AfterApply, OutcomeOf;
  }

  ghost predicate MayCall(s: System, n: System) {
    || n.history.calls == s.history.calls
    || exists i: nat :: CalledBy(s, n, i)
  }

  ghost predicate CalledBy(s: System, n: System, i: nat) {
    i < |n.executions| && n.history.calls == s.history.calls + [i] && !Early(n.executions[i].stage)
  }

  lemma OnlyCallsCall(hash: Hash, s: System, step: Step)
    ensures MayCall(s, Do(hash, s, step))
  {
    hide Start, Revalidate, Refuse, Load, ObserveStep, Accept, Conclude, Note;
    hide RequestOf, AfterApply, OutcomeOf;
    CallAddsOne(hash, s, step);
    if step.Move? && step.execution < |s.executions| && s.executions[step.execution].stage.Calling?
       && Executing(s.executions[step.execution]) {
      assert CalledBy(s, Do(hash, s, step), step.execution);
    }
  }

  lemma CallAddsOne(hash: Hash, s: System, step: Step)
    ensures
      || (step.Move? && step.execution < |s.executions| && s.executions[step.execution].stage.Calling?)
      || Do(hash, s, step).history.calls == s.history.calls
  {
    hide Resolve, Changed, Judged, Unavailable, Observe, DecisionFor, RefusalReasons, Onward, Call;
  }

  lemma StepKeepsCallsLate(hash: Hash, s: System, step: Step)
    requires CallsAreLate(s)
    ensures CallsAreLate(Do(hash, s, step))
  {
    hide Do, Early;
    var n := Do(hash, s, step);
    StepGrows(hash, s, step);
    OnlyCallsCall(hash, s, step);
    forall k | 0 <= k < |n.history.calls|
      ensures n.history.calls[k] < |n.executions| && !Early(n.executions[n.history.calls[k]].stage)
    {
      if k < |s.history.calls| {
        assert n.history.calls[k] == s.history.calls[k];
        LateStaysLate(hash, s, step, s.history.calls[k]);
      }
    }
  }

  lemma {:induction false} RunKeepsCallsLate(hash: Hash, steps: seq<Step>)
    ensures CallsAreLate(Run(hash, INITIAL, steps))
  {
    if steps != [] {
      hide Do, CallsAreLate;
      var n := |steps| - 1;
      RunKeepsCallsLate(hash, steps[..n]);
      StepKeepsCallsLate(hash, Run(hash, INITIAL, steps[..n]), steps[n]);
    } else {
      assert CallsAreLate(INITIAL);
    }
  }

  ghost predicate Refused(s: System, i: nat) {
    i < |s.executions| && (s.executions[i].stage.Refusing? || s.executions[i].stage.Finished?) && i !in s.history.calls
  }

  lemma StepKeepsRefused(hash: Hash, s: System, i: nat, step: Step)
    requires Refused(s, i)
    ensures Refused(Do(hash, s, step), i)
  {
    hide Resolve, Changed, Judged, Unavailable, Observe, DecisionFor, BindingEffectId, RequestOf, AfterApply, OutcomeOf;
  }

  /** An execution that was refused never calls the destination, whatever happens later. */
  lemma {:induction false} RefusedNeverCalls(hash: Hash, earlier: seq<Step>, later: seq<Step>, i: nat)
    requires i < |Run(hash, INITIAL, earlier).executions| && Run(hash, INITIAL, earlier).executions[i].stage.Refusing?
    ensures var s := Run(hash, INITIAL, earlier + later);
      && i !in s.history.calls
      && i < |s.executions| && (s.executions[i].stage.Refusing? || s.executions[i].stage.Finished?)
  {
    hide Do;
    if later == [] {
      assert earlier + later == earlier;
      RunKeepsCallsLate(hash, earlier);
    } else {
      var n := |later| - 1;
      RefusedNeverCalls(hash, earlier, later[..n], i);
      assert (earlier + later)[..|earlier + later| - 1] == earlier + later[..n];
      StepKeepsRefused(hash, Run(hash, INITIAL, earlier + later[..n]), i, later[n]);
    }
  }
}
