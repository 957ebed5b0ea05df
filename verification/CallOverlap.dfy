/** Exactly when an effect is dispatched twice: two of its executions that both call were once in
    the window together. */
module CallOverlap {
  import opened Text
  import opened Commitments
  import opened Authority
  import opened Resolution
  import opened Destination
  import opened RunRecords
  import opened Reconciliations
  import opened ChangedInputs
  import opened Workflow
  import opened SingleCall
  import AttemptTruth

  /** Where an execution can be once it has called. */
  predicate PastCall(stage: Stage) {
    match stage
    case NotingOutcome(_) => true
    case Observing(phase) => !phase.Before?
    case Accepting(phase, _, _) => !phase.Before?
    case Concluding(phase, _) => !phase.Before?
    case Finished => true
    case _ => false
  }

  ghost predicate Within(s: System, i: nat) {
    i < |s.executions| && InWindow(s.executions[i].stage)
  }

  /** At some point of the run both had loaded the attempts and neither had recorded its own. */
  ghost predicate Together(hash: Hash, steps: seq<Step>, i: nat, j: nat) {
    exists n | 0 <= n <= |steps| ::
        Within(Run(hash, INITIAL, steps[..n]), i) && Within(Run(hash, INITIAL, steps[..n]), j)
  }

  lemma TogetherStays(hash: Hash, steps: seq<Step>, step: Step, i: nat, j: nat)
    requires Together(hash, steps, i, j)
    ensures Together(hash, steps + [step], i, j)
  {
    hide Run, Within;
    var n :| 0 <= n <= |steps| && Within(Run(hash, INITIAL, steps[..n]), i)
        && Within(Run(hash, INITIAL, steps[..n]), j);
    assert (steps + [step])[..n] == steps[..n];
  }

  lemma TogetherNow(hash: Hash, steps: seq<Step>, i: nat, j: nat)
    requires Within(Run(hash, INITIAL, steps), i) && Within(Run(hash, INITIAL, steps), j)
    ensures Together(hash, steps, i, j)
  {
    hide Run, Within;
    assert steps[..|steps|] == steps;
  }

  // ---- what one step can do ------------------------------------------------

  /** How the step changes execution k, which moved, and nothing but it. */
  ghost predicate Turns(s: System, t: System, k: nat) {
    && (forall j | 0 <= j < |t.executions| && j != k :: j < |s.executions| && t.executions[j] == s.executions[j])
    && |s.executions| <= |t.executions| && s.records.attempts <= t.records.attempts
    && (k < |s.executions| || t.history.calls == s.history.calls)
    && (|s.executions| <= k < |t.executions| ==> t.executions[k].stage == Starting)
    && (k < |s.executions| ==> t.executions[k].task == s.executions[k].task && StageTurns(s, t, k))
  }

  ghost predicate StageTurns(s: System, t: System, k: nat)
    requires k < |s.executions| <= |t.executions|
  {
    var before, after := s.executions[k].stage, t.executions[k].stage;
    && (SawNone(after) ==> SawNone(before) || !HasAttempt(s.records.attempts, EffectIdOf(s.executions[k].task)))
    && (after.Calling? && !before.Calling? ==> before.NotingAttempt? && before.attempt in t.records.attempts)
    && (t.history.calls == s.history.calls
        || (t.history.calls == s.history.calls + [k] && before.Calling? && after.NotingOutcome?))
    && (PastCall(before) ==> PastCall(after))
  }

  function Mover(s: System, step: Step): nat {
    match step
    case Spawn(_) => |s.executions|
    case Move(i, _) => i
    case Crash(i) => i
  }

  lemma CheckingTurns(hash: Hash, s: System, i: nat, t: Task, env: Environment)
    requires i < |s.executions| && s.executions[i].task == t && !PastCall(s.executions[i].stage)
    ensures s.executions[i].stage.Starting? ==> Turns(s, Start(hash, s, i, t, env), i)
    ensures t.Execute? ==> Turns(s, Revalidate(hash, s, i, t, env), i) && Turns(s, Load(s, i, t), i)
    ensures t.Execute? && t.decision.binding.Some? && s.executions[i].stage.Refusing? ==>
      Turns(s, Refuse(hash, s, i, t, s.executions[i].stage.reasons, env), i)
  {
    hide Resolve, DecisionFor, BindingEffectId, Presentable, RefusalReasons, Changed, HasAttempt;
  }

  lemma ObservingTurns(hash: Hash, s: System, i: nat, t: Task, env: Environment)
    requires i < |s.executions| && s.executions[i].task == t
    requires var stage := s.executions[i].stage; stage.Observing? || stage.Accepting? || stage.Concluding?
    ensures Turns(s, Advance(hash, s, i, env), i)
  {
    hide Start, Revalidate, Refuse, Load, Note, Call, Judged, Unavailable, Observe, HasAttempt;
  }

  lemma StepTurns(hash: Hash, s: System, step: Step)
    ensures Turns(s, Do(hash, s, step), Mover(s, step))
  {
    hide Start, Revalidate, Refuse, Load, ObserveStep, Accept, Conclude, HasAttempt, RequestOf, AfterApply, OutcomeOf;
    if step.Move? && step.execution < |s.executions| {
      var i, env := step.execution, step.environment;
      var stage := s.executions[i].stage;
      if stage.Observing? || stage.Accepting? || stage.Concluding? {
        ObservingTurns(hash, s, i, s.executions[i].task, env);
      } else if !PastCall(stage) {
        CheckingTurns(hash, s, i, s.executions[i].task, env);
      }
    }
  }

  // ---- who met whom --------------------------------------------------------

  ghost predicate Dispatching(s: System, i: nat, id: string) {
    && i < |s.executions| && Belongs(s.executions[i], id)
    && (s.executions[i].stage.Calling? || i in s.history.calls)
  }

  /** It is about to dispatch, or still may. */
  ghost predicate MayDispatch(s: System, i: nat, id: string) {
    || Dispatching(s, i, id)
    || (i < |s.executions| && Belongs(s.executions[i], id) && SawNone(s.executions[i].stage))
  }

  ghost predicate CalledAndPast(s: System, i: nat) {
    i < |s.executions| && PastCall(s.executions[i].stage)
  }

  ghost predicate CallsApart(s: System) {
    && (forall i | i in s.history.calls :: CalledAndPast(s, i))
    && (forall k, l | 0 <= k < l < |s.history.calls| :: s.history.calls[k] != s.history.calls[l])
  }

  ghost predicate Met(hash: Hash, steps: seq<Step>, i: nat, j: nat, id: string) {
    var s := Run(hash, INITIAL, steps);
    i != j && Dispatching(s, i, id) && MayDispatch(s, j, id) ==> Together(hash, steps, i, j)
  }

  /** Who dispatches left an attempt, and met all who dispatch or still may. */
  ghost predicate Timed(hash: Hash, steps: seq<Step>, id: string) {
    var s := Run(hash, INITIAL, steps);
    && CallsApart(s)
    && (forall i: nat | Dispatching(s, i, id) :: HasAttempt(s.records.attempts, id))
    && (forall i: nat, j: nat :: Met(hash, steps, i, j, id))
  }

  lemma CallsStayApart(s: System, t: System, k: nat)
    requires CallsApart(s) && Turns(s, t, k)
    ensures CallsApart(t)
  {
    forall i | i in t.history.calls ensures CalledAndPast(t, i) {
      if i in s.history.calls { assert CalledAndPast(s, i); }
    }
    if t.history.calls != s.history.calls {
      assert k in s.history.calls ==> CalledAndPast(s, k);
    }
  }

  /** Who dispatches after a step did so before, or was about to record its attempt. */
  lemma DispatchingBefore(s: System, t: System, k: nat, i: nat, id: string)
    requires Turns(s, t, k) && CallsApart(s) && Dispatching(t, i, id)
    ensures Dispatching(s, i, id)
         || (i == k && i < |s.executions| && Belongs(s.executions[i], id) && s.executions[i].stage.NotingAttempt?
             && s.executions[i].stage.attempt in t.records.attempts)
  {
    if i in s.history.calls { assert CalledAndPast(s, i); }
  }

  lemma AttemptIsKept(s: System, t: System, k: nat, i: nat, id: string)
    requires Turns(s, t, k) && CallsApart(s) && Dispatching(t, i, id) && AttemptTruth.Vouched(s, None)
    requires Dispatching(s, i, id) ==> HasAttempt(s.records.attempts, id)
    ensures HasAttempt(t.records.attempts, id)
  {
    DispatchingBefore(s, t, k, i, id);
    if Dispatching(s, i, id) {
      var a :| a in s.records.attempts && a.effectId == id;
      assert a in t.records.attempts;
    } else {
      assert AttemptTruth.Sound(s, None, s.executions[i]);
    }
  }

  /** Who may dispatch after a step might before, or loaded just now and saw no attempt. */
  lemma MayDispatchBefore(s: System, t: System, k: nat, j: nat, id: string)
    requires Turns(s, t, k) && CallsApart(s) && MayDispatch(t, j, id)
    ensures MayDispatch(s, j, id) || (j == k && !HasAttempt(s.records.attempts, id))
  {
    if Dispatching(t, j, id) { DispatchingBefore(s, t, k, j, id); }
  }

  lemma MeetingStep(hash: Hash, steps: seq<Step>, step: Step, i: nat, j: nat, id: string)
    requires Timed(hash, steps, id)
    ensures Met(hash, steps + [step], i, j, id)
  {
    hide Run, Do, Turns, CallsApart, Together, HasAttempt;
    var s, k := Run(hash, INITIAL, steps), Mover(Run(hash, INITIAL, steps), step);
    var t := Run(hash, INITIAL, steps + [step]);
    RunMore(hash, steps, step);
    StepTurns(hash, s, step);
    if i != j && Dispatching(t, i, id) && MayDispatch(t, j, id) {
      DispatchingBefore(s, t, k, i, id);
      MayDispatchBefore(s, t, k, j, id);
      assert Met(hash, steps, i, j, id) && Met(hash, steps, j, i, id);
      assert Dispatching(s, i, id) ==> HasAttempt(s.records.attempts, id);
      if Within(s, i) && Within(s, j) { TogetherNow(hash, steps, i, j); }
      if Together(hash, steps, j, i) { TogetherEither(hash, steps, j, i); }
      assert Together(hash, steps, i, j);
      TogetherStays(hash, steps, step, i, j);
    }
  }

  lemma TogetherEither(hash: Hash, steps: seq<Step>, i: nat, j: nat)
    requires Together(hash, steps, i, j)
    ensures Together(hash, steps, j, i)
  {
    hide Run, Within;
  }

  lemma RunMore(hash: Hash, steps: seq<Step>, step: Step)
    ensures Run(hash, INITIAL, steps + [step]) == Do(hash, Run(hash, INITIAL, steps), step)
  {
    hide Do;
    assert (steps + [step])[..|steps|] == steps;
  }

  lemma StepIsTimed(hash: Hash, steps: seq<Step>, step: Step, id: string)
    requires Timed(hash, steps, id)
    ensures Timed(hash, steps + [step], id)
  {
    hide Run, Do, Turns, CallsApart, Dispatching, Met, HasAttempt, AttemptTruth.Vouched;
    var s, t := Run(hash, INITIAL, steps), Run(hash, INITIAL, steps + [step]);
    RunMore(hash, steps, step);
    StepTurns(hash, s, step);
    CallsStayApart(s, t, Mover(s, step));
    AttemptTruth.RunIsVouched(hash, steps, None);
    forall i: nat | Dispatching(t, i, id) ensures HasAttempt(t.records.attempts, id) {
      AttemptIsKept(s, t, Mover(s, step), i, id);
    }
    forall i: nat, j: nat ensures Met(hash, steps + [step], i, j, id) {
      MeetingStep(hash, steps, step, i, j, id);
    }
  }

  lemma {:induction false} RunIsTimed(hash: Hash, steps: seq<Step>, id: string)
    ensures Timed(hash, steps, id)
  {
    hide Do, Together;
    if steps != [] {
      var n := |steps| - 1;
      RunIsTimed(hash, steps[..n], id);
      StepIsTimed(hash, steps[..n], steps[n], id);
      assert steps[..n] + [steps[n]] == steps;
    }
  }

  // ---- counting ------------------------------------------------------------

  ghost predicate CallerOf(executions: seq<Execution>, calls: seq<nat>, i: nat, id: string) {
    i in calls && i < |executions| && Belongs(executions[i], id)
  }

  lemma {:induction false} OneCallCounted(executions: seq<Execution>, calls: seq<nat>, id: string)
    ensures CallsFor(executions, calls, id) >= 1 <==> exists k | 0 <= k < |calls| ::
        CallerOf(executions, calls, calls[k], id)
  {
    if calls != [] {
      var n := |calls| - 1;
      OneCallCounted(executions, calls[..n], id);
      if k :| 0 <= k < n && CallerOf(executions, calls, calls[k], id) {
        assert CallerOf(executions, calls[..n], calls[..n][k], id);
      }
      if k :| 0 <= k < n && CallerOf(executions, calls[..n], calls[..n][k], id) {
        assert CallerOf(executions, calls, calls[k], id);
      }
      if calls[n] < |executions| && Belongs(executions[calls[n]], id) {
        assert CallerOf(executions, calls, calls[n], id);
      }
    }
  }

  ghost predicate TwoCallers(executions: seq<Execution>, calls: seq<nat>, id: string) {
    exists k, l | 0 <= k < l < |calls| ::
        CallerOf(executions, calls, calls[k], id) && CallerOf(executions, calls, calls[l], id)
  }

  lemma TwoCallersMore(executions: seq<Execution>, calls: seq<nat>, i: nat, id: string)
    requires TwoCallers(executions, calls, id)
      || (CallerOf(executions, [i], i, id) && exists k | 0 <= k < |calls| :: CallerOf(executions, calls, calls[k], id))
    ensures TwoCallers(executions, calls + [i], id)
  {
    var more := calls + [i];
    if TwoCallers(executions, calls, id) {
      var k, l :| 0 <= k < l < |calls| && CallerOf(executions, calls, calls[k], id)
          && CallerOf(executions, calls, calls[l], id);
      assert CallerOf(executions, more, more[k], id) && CallerOf(executions, more, more[l], id);
    } else {
      var k :| 0 <= k < |calls| && CallerOf(executions, calls, calls[k], id);
      assert CallerOf(executions, more, more[k], id) && CallerOf(executions, more, more[|calls|], id);
    }
  }

  lemma TwoCallersFewer(executions: seq<Execution>, calls: seq<nat>, i: nat, id: string)
    requires TwoCallers(executions, calls + [i], id)
    ensures TwoCallers(executions, calls, id)
      || (CallerOf(executions, [i], i, id) && exists k | 0 <= k < |calls| :: CallerOf(executions, calls, calls[k], id))
  {
    var more := calls + [i];
    var k, l :| 0 <= k < l < |more| && CallerOf(executions, more, more[k], id)
        && CallerOf(executions, more, more[l], id);
    assert CallerOf(executions, calls, calls[k], id);
    if l < |calls| {
      assert CallerOf(executions, calls, calls[l], id);
    }
  }

  /** Two calls for the effect are two callers. */
  lemma {:induction false} TwoCallsCounted(executions: seq<Execution>, calls: seq<nat>, id: string)
    ensures CallsFor(executions, calls, id) >= 2 <==> TwoCallers(executions, calls, id)
  {
    hide TwoCallers, CallerOf;
    if calls == [] {
      NoCallers(executions, id);
    } else {
      var n := |calls| - 1;
      assert calls == calls[..n] + [calls[n]];
      TwoCallsCounted(executions, calls[..n], id);
      OneCallCounted(executions, calls[..n], id);
      OneCallCounted(executions, [calls[n]], id);
      LastCaller(executions, calls[n], id);
      if CallsFor(executions, calls, id) >= 2 { TwoCallersMore(executions, calls[..n], calls[n], id); }
      if TwoCallers(executions, calls, id) { TwoCallersFewer(executions, calls[..n], calls[n], id); }
    }
  }

  lemma NoCallers(executions: seq<Execution>, id: string)
    ensures !TwoCallers(executions, [], id)
  {}

  lemma LastCaller(executions: seq<Execution>, i: nat, id: string)
    ensures CallerOf(executions, [i], i, id) <==> i < |executions| && EffectIdOf(executions[i].task) == id
  {
    assert i in [i];
  }

  /** Two executions of the effect that both call and were once in the window together. */
  ghost predicate TwoMet(hash: Hash, steps: seq<Step>, id: string, i: nat, j: nat) {
    var s := Run(hash, INITIAL, steps);
    && i != j && CallerOf(s.executions, s.history.calls, i, id) && CallerOf(s.executions, s.history.calls, j, id)
    && Together(hash, steps, i, j)
  }

  /** An effect is dispatched more than once exactly when two executions of it that call had both
      loaded the attempts before either recorded its own. */
  lemma DispatchedTwiceExactly(hash: Hash, steps: seq<Step>, id: string)
    ensures Called(Run(hash, INITIAL, steps), id) > 1 <==> exists i: nat, j: nat :: TwoMet(hash, steps, id, i, j)
  {
    hide Run, Together;
    var s := Run(hash, INITIAL, steps);
    var calls := s.history.calls;
    RunIsTimed(hash, steps, id);
    TwoCallsCounted(s.executions, calls, id);
    if TwoCallers(s.executions, calls, id) {
      var k, l :| 0 <= k < l < |calls| && CallerOf(s.executions, calls, calls[k], id)
        && CallerOf(s.executions, calls, calls[l], id);
      assert Met(hash, steps, calls[k], calls[l], id);
      assert TwoMet(hash, steps, id, calls[k], calls[l]);
    }
    if i: nat, j: nat :| TwoMet(hash, steps, id, i, j) {
      var k :| 0 <= k < |calls| && calls[k] == i;
      var l :| 0 <= l < |calls| && calls[l] == j;
      assert if k < l then CallerOf(s.executions, calls, calls[k], id) && CallerOf(s.executions, calls, calls[l], id)
             else l < k && CallerOf(s.executions, calls, calls[l], id) && CallerOf(s.executions, calls, calls[k], id);
    }
  }
}
