/** What the stored attempts tell about the destination, over whole runs. */
module AttemptTruth {
  import opened Text
  import opened Commitments
  import opened Authority
  import opened Resolution
  import opened Destination
  import opened RunRecords
  import opened Reconciliations
  import opened ChangedInputs
  import opened Workflow
  import opened WorkflowSafety
  import opened AttemptHistory
  import opened SingleCall

  /** The entry says the effect is in place. */
  predicate SaysDone(a: Attempt) {
    a.status == Acknowledged || a.status == PartlyDone
  }

  /** The effect is stored, and partly done exactly if the entry says so. */
  predicate Agrees(l: Ledger, a: Attempt) {
    a.effectId in l.effects && (a.status == PartlyDone <==> l.effects[a.effectId].state == EffectState.Partial)
  }

  /** The answer on the entry is no duplicate in the other state. */
  predicate AnswerFits(a: Attempt) {
    a.acknowledgement.Answered? && a.acknowledgement.outcome.Duplicate? ==>
      (a.status == PartlyDone <==> a.acknowledgement.outcome.effect.state == EffectState.Partial)
  }

  /** Some execution of the effect called the destination. */
  ghost predicate WasCalled(s: System, effectId: string) {
    exists i | i in s.history.calls :: i < |s.executions| && EffectIdOf(s.executions[i].task) == effectId
  }

  /** Done means stored, and agrees when it was found in place. For the effect that is called but
      once, if there is one, every done agrees, and failed means called and not stored. */
  ghost predicate Truthful(s: System, once: Option<string>, a: Attempt) {
    && (SaysDone(a) ==> a.effectId in s.ledger.effects && (Agrees(s.ledger, a) <==> AnswerFits(a)))
    && (SaysDone(a) && (once == Some(a.effectId) || a.acknowledgement == ReconciledExisting) ==> Agrees(s.ledger, a))
    && (once == Some(a.effectId) && a.status == Failed ==>
          a.effectId !in s.ledger.effects && WasCalled(s, a.effectId))
  }

  /** A verdict that leads to noting an effect in place was reached on that effect. */
  ghost predicate Supported(l: Ledger, effectId: string, v: Reconciliation) {
    && (v.result == ReconciliationResult.Applied ==>
          effectId in l.effects && l.effects[effectId].state == EffectState.Applied)
    && (v.accepted && v.observation.Some? && v.observation.value.state.Partial? ==>
          effectId in l.effects && l.effects[effectId].state == EffectState.Partial)
  }

  ghost predicate Sound(s: System, once: Option<string>, e: Execution) {
    && (Carrying(e.stage) ==> e.task.Execute? && e.stage.attempt.effectId == EffectIdOf(e.task))
    && (e.stage.NotingExisting? || e.stage.NotingOutcome? ==> Truthful(s, once, e.stage.attempt))
    && (e.stage.NotingAttempt? || e.stage.Calling? ==> Open(e.stage.attempt))
    && (e.stage.Accepting? ==> Supported(s.ledger, EffectIdOf(e.task), e.stage.verdict))
    && (e.stage.Concluding? ==> Supported(s.ledger, EffectIdOf(e.task), e.stage.verdict))
  }

  ghost predicate Vouched(s: System, once: Option<string>) {
    && (forall id | id in s.ledger.effects :: WasCalled(s, id))
    && (forall a | a in s.records.attempts :: Truthful(s, once, a))
    && (forall i | 0 <= i < |s.executions| :: Sound(s, once, s.executions[i]))
  }

  /** A call made by execution i is the first for its effect, if that is the one called but once. */
  ghost predicate FirstCall(s: System, i: nat, once: Option<string>)
    requires i < |s.executions|
  {
    var id := EffectIdOf(s.executions[i].task);
    s.executions[i].stage.Calling? && Executing(s.executions[i]) && once == Some(id) ==> !WasCalled(s, id)
  }

  // ---- steps that do not call ----------------------------------------------

  /** Same ledger; apart from execution i, nothing but records is new. */
  ghost predicate Beside(s: System, t: System, i: nat) {
    && t.ledger == s.ledger && t.history.calls == s.history.calls && |s.executions| <= |t.executions|
    && (forall j | 0 <= j < |s.executions| :: t.executions[j].task == s.executions[j].task)
    && (forall j | 0 <= j < |t.executions| && j != i :: Kept(s, t, j))
  }

  lemma CalledBeside(s: System, t: System, i: nat, id: string)
    requires Beside(s, t, i) && WasCalled(s, id)
    ensures WasCalled(t, id)
  {
    var k :| k in s.history.calls && k < |s.executions| && EffectIdOf(s.executions[k].task) == id;
    assert k in t.history.calls;
  }

  lemma TruthBeside(s: System, t: System, i: nat, once: Option<string>, a: Attempt)
    requires Beside(s, t, i) && Truthful(s, once, a)
    ensures Truthful(t, once, a)
  {
    if WasCalled(s, a.effectId) {
      CalledBeside(s, t, i, a.effectId);
    }
  }

  lemma BesideIsVouched(s: System, t: System, i: nat, once: Option<string>)
    requires Vouched(s, once) && Beside(s, t, i)
    requires i < |t.executions| ==> Sound(t, once, t.executions[i])
    requires forall a | a in t.records.attempts && a !in s.records.attempts :: Truthful(s, once, a)
    ensures Vouched(t, once)
  {
    hide WasCalled, Truthful;
    forall id | id in t.ledger.effects ensures WasCalled(t, id) {
      CalledBeside(s, t, i, id);
    }
    forall a | a in t.records.attempts ensures Truthful(t, once, a) {
      TruthBeside(s, t, i, once, a);
    }
    forall j | 0 <= j < |t.executions| ensures Sound(t, once, t.executions[j]) {
      if j != i {
        assert Kept(s, t, j) && Sound(s, once, s.executions[j]);
        var stage := s.executions[j].stage;
        if stage.NotingExisting? || stage.NotingOutcome? { TruthBeside(s, t, i, once, stage.attempt); }
      }
    }
  }

  lemma ObservationSupports(l: Ledger, policy: Option<ObservationPolicy>, id: string, at: EvaluationTime, clock: Time)
    requires Consistent(l)
    ensures Supported(l, id, Judged(policy, id, Observe(l, id, clock), at, clock))
    ensures forall error :: Supported(l, id, Unavailable(policy, id, error, at, clock))
  {
    ResultAgreesWithLedger(policy, id, l, at, clock);
    hide ObservationReasons, SortedSet;
  }

  lemma ObservingIsVouched(hash: Hash, s: System, i: nat, env: Environment, once: Option<string>)
    requires Vouched(s, once) && Consistent(s.ledger) && i < |s.executions| && s.executions[i].stage.Observing?
    ensures Vouched(Advance(hash, s, i, env), once)
  {
    hide Start, Revalidate, Refuse, Load, Accept, Conclude, Note, Call, Judged, Unavailable, Observe, Consistent;
    var t, task := Advance(hash, s, i, env), s.executions[i].task;
    ObservationSupports(s.ledger, task.config.observationPolicy, EffectIdOf(task), EvaluatedAt(task), env.clock);
    hide Supported;
    BesideIsVouched(s, t, i, once);
  }

  lemma ConcludingIsVouched(hash: Hash, s: System, i: nat, env: Environment, once: Option<string>)
    requires Vouched(s, once) && i < |s.executions| && s.executions[i].stage.Concluding?
    ensures Vouched(Advance(hash, s, i, env), once)
  {
    hide Start, Revalidate, Refuse, Load, ObserveStep, Accept, Note, Call, WasCalled;
    assert Sound(s, once, s.executions[i]);
    BesideIsVouched(s, Advance(hash, s, i, env), i, once);
  }

  lemma NotingIsVouched(hash: Hash, s: System, i: nat, env: Environment, once: Option<string>)
    requires Vouched(s, once) && i < |s.executions|
    requires Carrying(s.executions[i].stage) && !s.executions[i].stage.Calling?
    ensures Vouched(Advance(hash, s, i, env), once)
  {
    hide Start, Revalidate, Refuse, Load, ObserveStep, Accept, Conclude, Call, WasCalled;
    assert Sound(s, once, s.executions[i]);
    BesideIsVouched(s, Advance(hash, s, i, env), i, once);
  }

  ghost predicate StaysSound(s: System, t: System, i: nat, once: Option<string>) {
    Beside(s, t, i) && i < |t.executions| && Sound(t, once, t.executions[i]) && t.records.attempts == s.records.attempts
  }

  predicate Quiet(stage: Stage) {
    !Carrying(stage) && !stage.Observing? && !stage.Concluding?
  }

  lemma AcceptingStaysSound(hash: Hash, s: System, i: nat, env: Environment, once: Option<string>)
    requires i < |s.executions| && s.executions[i].stage.Accepting? && Sound(s, once, s.executions[i])
    ensures StaysSound(s, Advance(hash, s, i, env), i, once)
  {
    hide Start, Revalidate, Refuse, Load, ObserveStep, Conclude, Note, Call, Truthful, Supported;
  }

  /** The step leads to a stage that claims nothing about the destination. */
  ghost predicate Claimless(s: System, t: System, i: nat) {
    && Beside(s, t, i) && i < |t.executions| && t.records.attempts == s.records.attempts
    && var stage := t.executions[i].stage;
    && !Carrying(stage) && !stage.Accepting? && !stage.Concluding?
  }

  lemma ChecksAreClaimless(hash: Hash, s: System, i: nat, t: Task, env: Environment)
    requires i < |s.executions| && s.executions[i].task == t && Quiet(s.executions[i].stage)
    ensures s.executions[i].stage.Starting? ==> Claimless(s, Start(hash, s, i, t, env), i)
    ensures t.Execute? ==> Claimless(s, Revalidate(hash, s, i, t, env), i)
  {
    hide Resolve, DecisionFor, BindingEffectId, Presentable, RefusalReasons;
  }

  lemma EndsAreClaimless(hash: Hash, s: System, i: nat, t: Task, env: Environment)
    requires i < |s.executions| && s.executions[i].task == t && !Carrying(s.executions[i].stage)
    ensures t.Execute? ==> Claimless(s, Load(s, i, t), i)
    ensures t.Execute? && t.decision.binding.Some? ==>
      forall reasons :: Claimless(s, Refuse(hash, s, i, t, reasons, env), i) || Refuse(hash, s, i, t, reasons, env) == s
  {
    hide Changed, HasAttempt;
  }

  lemma QuietStaysSound(hash: Hash, s: System, i: nat, env: Environment, once: Option<string>)
    requires i < |s.executions| && Quiet(s.executions[i].stage) && Sound(s, once, s.executions[i])
    ensures StaysSound(s, Advance(hash, s, i, env), i, once)
  {
    hide Start, Revalidate, Refuse, Load, ObserveStep, Conclude, Note, Call, Accept, Truthful, Supported;
    if s.executions[i].stage.Accepting? {
      AcceptingStaysSound(hash, s, i, env, once);
    } else {
      ChecksAreClaimless(hash, s, i, s.executions[i].task, env);
      EndsAreClaimless(hash, s, i, s.executions[i].task, env);
    }
  }

  lemma QuietIsVouched(hash: Hash, s: System, i: nat, env: Environment, once: Option<string>)
    requires Vouched(s, once) && i < |s.executions| && Quiet(s.executions[i].stage)
    ensures Vouched(Advance(hash, s, i, env), once)
  {
    hide Advance, Sound, Truthful, WasCalled;
    QuietStaysSound(hash, s, i, env, once);
    BesideIsVouched(s, Advance(hash, s, i, env), i, once);
  }

  // ---- calls ---------------------------------------------------------------

  /** The answers a call can get, by what it leaves behind. */
  lemma CallLeaves(hash: Hash, s: System, i: nat, env: Environment, a: Attempt)
    requires i < |s.executions| && s.executions[i].stage == Calling(a) && Executing(s.executions[i])
    ensures CallLeft(s, Advance(hash, s, i, env), i, env, a)
  {
    hide Start, Revalidate, Refuse, Load, ObserveStep, Accept, Conclude, Note, RequestOf, AfterApply, OutcomeOf, Answer;
  }

  ghost predicate CallLeft(s: System, t: System, i: nat, env: Environment, a: Attempt) {
    && i < |s.executions| && Executing(s.executions[i]) && |t.executions| == |s.executions|
    && var task := s.executions[i].task;
    && var q := RequestOf(task);
    && t.records == s.records && t.history.calls == s.history.calls + [i]
    && t.ledger == (if env.fault.NoFault? then AfterApply(s.ledger, q) else s.ledger)
    && t.executions == s.executions[i := Execution(task, NotingOutcome(
         if env.fault.NoFault? then Answer(a, task.partial, OutcomeOf(s.ledger, q, task.loseAck))
         else a.(status := if env.fault.timeout then AttemptStatus.Unknown else Failed,
             error := Some(env.fault.error))))]
  }

  /** The call one execution made: what was stored stays, and only its own effect may be new. */
  lemma StoredStays(s: System, t: System, i: nat, env: Environment, a: Attempt)
    requires CallLeft(s, t, i, env, a)
    ensures forall id | id in s.ledger.effects :: id in t.ledger.effects && t.ledger.effects[id] == s.ledger.effects[id]
    ensures forall id | id in t.ledger.effects && id !in s.ledger.effects :: id == EffectIdOf(s.executions[i].task)
  {
    hide Answer, OutcomeOf, Used;
  }

  lemma CalledAfter(s: System, t: System, i: nat, env: Environment, a: Attempt, id: string)
    requires CallLeft(s, t, i, env, a)
    ensures WasCalled(s, id) || id == EffectIdOf(s.executions[i].task) ==> WasCalled(t, id)
  {
    hide Answer, OutcomeOf, AfterApply, RequestOf;
    if WasCalled(s, id) {
      var k :| k in s.history.calls && k < |s.executions| && EffectIdOf(s.executions[k].task) == id;
      assert k in t.history.calls;
    }
    assert i in t.history.calls;
  }

  lemma TruthAfter(s: System, t: System, i: nat, env: Environment, a: Attempt, once: Option<string>, b: Attempt)
    requires CallLeft(s, t, i, env, a) && Truthful(s, once, b)
    requires once == Some(EffectIdOf(s.executions[i].task)) ==> !WasCalled(s, EffectIdOf(s.executions[i].task))
    ensures Truthful(t, once, b)
  {
    StoredStays(s, t, i, env, a);
    CalledAfter(s, t, i, env, a, b.effectId);
    hide CallLeft, WasCalled;
  }

  lemma AnswerIsTrue(s: System, t: System, i: nat, env: Environment, a: Attempt, once: Option<string>)
    requires CallLeft(s, t, i, env, a) && Vouched(s, once) && s.executions[i].stage == Calling(a)
    requires once == Some(EffectIdOf(s.executions[i].task)) ==> !WasCalled(s, EffectIdOf(s.executions[i].task))
    ensures Sound(t, once, t.executions[i])
  {
    assert Sound(s, once, s.executions[i]);
    CalledAfter(s, t, i, env, a, a.effectId);
    hide WasCalled;
  }

  lemma CallIsVouched(s: System, t: System, i: nat, env: Environment, a: Attempt, once: Option<string>)
    requires CallLeft(s, t, i, env, a) && Vouched(s, once) && s.executions[i].stage == Calling(a)
    requires once == Some(EffectIdOf(s.executions[i].task)) ==> !WasCalled(s, EffectIdOf(s.executions[i].task))
    ensures Vouched(t, once)
  {
    hide WasCalled, Truthful;
    StoredStays(s, t, i, env, a);
    AnswerIsTrue(s, t, i, env, a, once);
    forall id | id in t.ledger.effects ensures WasCalled(t, id) { CalledAfter(s, t, i, env, a, id); }
    forall b | b in t.records.attempts ensures Truthful(t, once, b) { TruthAfter(s, t, i, env, a, once, b); }
    hide AfterApply, OutcomeOf, Answer, RequestOf;
    forall j | 0 <= j < |t.executions| ensures Sound(t, once, t.executions[j]) {
      if j != i {
        assert Sound(s, once, s.executions[j]);
        var stage := s.executions[j].stage;
        if stage.NotingExisting? || stage.NotingOutcome? { TruthAfter(s, t, i, env, a, once, stage.attempt); }
      }
    }
  }

  // ---- runs ----------------------------------------------------------------

  lemma AdvanceIsVouched(hash: Hash, s: System, i: nat, env: Environment, once: Option<string>)
    requires Vouched(s, once) && Consistent(s.ledger) && i < |s.executions| && FirstCall(s, i, once)
    ensures Vouched(Advance(hash, s, i, env), once)
  {
    hide Vouched, Consistent, Advance;
    var stage := s.executions[i].stage;
    if stage.Observing? {
      ObservingIsVouched(hash, s, i, env, once);
    } else if stage.Concluding? {
      ConcludingIsVouched(hash, s, i, env, once);
    } else if stage.Calling? {
      if Executing(s.executions[i]) {
        CallLeaves(hash, s, i, env, stage.attempt);
        CallIsVouched(s, Advance(hash, s, i, env), i, env, stage.attempt, once);
      } else {
        CallingStays(hash, s, i, env);
      }
    } else if Carrying(stage) {
      NotingIsVouched(hash, s, i, env, once);
    } else {
      QuietIsVouched(hash, s, i, env, once);
    }
  }

  lemma CallingStays(hash: Hash, s: System, i: nat, env: Environment)
    requires i < |s.executions| && s.executions[i].stage.Calling? && !Executing(s.executions[i])
    ensures Advance(hash, s, i, env) == s
  {
    hide Start, Revalidate, Refuse, Load, ObserveStep, Accept, Conclude, Note, Call;
  }

  /** Where a step leaves the effect called at most once, it made the first call if any. */
  lemma OnceMeansFirst(hash: Hash, s: System, step: Step, id: string)
    requires InRange(s) && Called(Do(hash, s, step), id) <= 1
    requires step.Move? && step.execution < |s.executions|
    ensures FirstCall(s, step.execution, Some(id))
  {
    hide Do;
    StepCalls(hash, s, step);
    CalledMore(s, Do(hash, s, step), step, id);
    if WasCalled(s, id) {
      var k :| k in s.history.calls && k < |s.executions| && EffectIdOf(s.executions[k].task) == id;
      CalledIsCounted(s, s.history.calls, id, k);
    }
  }

  lemma StepIsVouched(hash: Hash, s: System, step: Step, once: Option<string>)
    requires Vouched(s, once) && Consistent(s.ledger) && InRange(s)
    requires once.Some? ==> Called(Do(hash, s, step), once.value) <= 1
    ensures Vouched(Do(hash, s, step), once)
  {
    hide Advance, Consistent, Truthful, WasCalled, InRange, Called;
    match step
    case Move(i, env) =>
      if i < |s.executions| {
        if once.Some? { OnceMeansFirst(hash, s, step, once.value); }
        AdvanceIsVouched(hash, s, i, env, once);
      }
    case Crash(i) => if i < |s.executions| { BesideIsVouched(s, Do(hash, s, step), i, once); }
    case Spawn(_) => BesideIsVouched(s, Do(hash, s, step), |s.executions|, once);
  }

  lemma {:induction false} RunIsVouched(hash: Hash, steps: seq<Step>, once: Option<string>)
    requires once.Some? ==> Called(Run(hash, INITIAL, steps), once.value) <= 1
    ensures Vouched(Run(hash, INITIAL, steps), once) && InRange(Run(hash, INITIAL, steps))
  {
    hide Do, Consistent, Called, CallsMore;
    if steps != [] {
      var n := |steps| - 1;
      var s := Run(hash, INITIAL, steps[..n]);
      RunIsVouched(hash, steps[..n], None);
      StepCalls(hash, s, steps[n]);
      CalledMore(s, Do(hash, s, steps[n]), steps[n], once.GetOr(""));
      RunIsVouched(hash, steps[..n], once);
      LedgerIsConsistent(hash, steps[..n]);
      StepIsVouched(hash, s, steps[n], once);
    }
  }

  lemma LedgerIsConsistent(hash: Hash, steps: seq<Step>)
    ensures Consistent(Run(hash, INITIAL, steps).ledger)
  {
    hide Run, Placed, TrulyPassed, CommitFits, Consistent;
    RunIsSafe(hash, steps);
  }

  // ---- main results --------------------------------------------------------

  /** Over every run: a stored attempt that says its effect is done, by an answer or by finding it
      in place, is about an effect the destination holds. It tells the state of that effect wrongly
      exactly when it was answered with a duplicate in the other state. */
  lemma DoneMeansStored(hash: Hash, steps: seq<Step>, a: Attempt)
    requires a in Run(hash, INITIAL, steps).records.attempts && SaysDone(a)
    ensures a.effectId in Run(hash, INITIAL, steps).ledger.effects
    ensures Agrees(Run(hash, INITIAL, steps).ledger, a) <==> AnswerFits(a)
    ensures a.acknowledgement == ReconciledExisting ==> Agrees(Run(hash, INITIAL, steps).ledger, a)
  {
    hide Run, Sound, Agrees, WasCalled;
    RunIsVouched(hash, steps, None);
    assert Truthful(Run(hash, INITIAL, steps), None, a);
  }

  /** An effect called at most once, whatever happened to any other: its stored attempts say what
      is there. Done agrees with the stored state, and failed means that it never came about. */
  lemma AttemptsAgreeWhenCalledOnce(hash: Hash, steps: seq<Step>, a: Attempt)
    requires a in Run(hash, INITIAL, steps).records.attempts
    requires Called(Run(hash, INITIAL, steps), a.effectId) <= 1
    ensures SaysDone(a) ==> Agrees(Run(hash, INITIAL, steps).ledger, a)
    ensures a.status == Failed ==> a.effectId !in Run(hash, INITIAL, steps).ledger.effects
  {
    hide Run, Sound, Agrees, WasCalled, Called, InRange;
    RunIsVouched(hash, steps, Some(a.effectId));
    assert Truthful(Run(hash, INITIAL, steps), Some(a.effectId), a);
  }

  /** So they do whenever the executions of that one effect do not overlap. */
  lemma SerializedAttemptsAgree(hash: Hash, steps: seq<Step>, a: Attempt)
    requires Serialized(hash, steps, a.effectId) && a in Run(hash, INITIAL, steps).records.attempts
    ensures SaysDone(a) ==> Agrees(Run(hash, INITIAL, steps).ledger, a)
    ensures a.status == Failed ==> a.effectId !in Run(hash, INITIAL, steps).ledger.effects
  {
    hide Run, Agrees, Called;
    DispatchedAtMostOnce(hash, steps, a.effectId);
    AttemptsAgreeWhenCalledOnce(hash, steps, a);
  }

  /** The effect the destination stores for a task, read off its proposal and its decision. */
  ghost predicate StoredFor(e: Effect, task: Task) {
    && task.Execute? && task.decision.binding.Some?
    && e.effectId == task.decision.effectId && e.grantId == task.decision.binding.value.grantId
    && e.target == task.proposal.target && e.amount == task.proposal.amount && e.unit == task.proposal.unit
    && e.payload == task.proposal.payload
    && e.state == (if task.partial then EffectState.Partial else EffectState.Applied)
  }

  /** The answer on the attempt: a new effect committed, or the stored one met again. */
  ghost predicate Acknowledges(l: Ledger, x: Attempt, task: Task) {
    && x.acknowledgement.Answered?
    && var o := x.acknowledgement.outcome;
    && (if x.effectId in l.effects then o == Duplicate(l.effects[x.effectId])
        else o.Committed? && StoredFor(o.effect, task))
  }

  /** The attempt a call turns a into, and the ledger it leaves: what decides is whether the effect
      is new, and how many effects of the bound grant are stored against the bound cap. */
  ghost predicate Outcome(s: System, t: System, i: nat, env: Environment, a: Attempt) {
    && i < |s.executions| && i < |t.executions| && Executing(s.executions[i]) && t.executions[i].stage.NotingOutcome?
    && var task, x := s.executions[i].task, t.executions[i].stage.attempt;
    && var b := task.decision.binding.value;
    && var answered, isNew := env.fault.NoFault?, a.effectId !in s.ledger.effects;
    && var fits := |EffectsOf(s.ledger, b.grantId)| < b.effectiveMaxEffects;
    && a.effectId == task.decision.effectId
    && (x.status == Failed <==> if answered then isNew && !fits else !env.fault.timeout)
    && (x.status == AttemptStatus.Unknown <==> if answered then isNew && fits && task.loseAck else env.fault.timeout)
    && (x.status == (if task.partial then PartlyDone else Acknowledged) <==>
          answered && (!isNew || (fits && !task.loseAck)))
    && (SaysDone(x) ==> Acknowledges(s.ledger, x, task))
    && (if answered && isNew && fits then Commits(s, t, i, task, a.effectId)
        else t.ledger == s.ledger && t.history.commits == s.history.commits)
    && x.attemptId == a.attemptId && x.effectId == a.effectId && x.decisionId == a.decisionId
  }

  /** One effect more, of this task, sent under the bound cap. */
  ghost predicate Commits(s: System, t: System, i: nat, task: Task, id: string) {
    && id in t.ledger.effects && StoredFor(t.ledger.effects[id], task)
    && t.ledger.effects == s.ledger.effects[id := t.ledger.effects[id]]
    && |t.history.commits| == |s.history.commits| + 1 && t.history.commits[..|s.history.commits|] == s.history.commits
    && var c := t.history.commits[|s.history.commits|];
    && c.execution == i && c.request.effect == t.ledger.effects[id]
    && c.request.maxEffects == task.decision.binding.value.effectiveMaxEffects
  }

  /** The call of a reachable state: exactly when its outcome is failed, unknown or done, with a
      raised fault as a case of its own, and exactly when the effect is then stored. */
  lemma OutcomeIsExact(hash: Hash, steps: seq<Step>, i: nat, env: Environment, a: Attempt)
    requires At(Run(hash, INITIAL, steps), i, Calling(a))
    ensures Outcome(Run(hash, INITIAL, steps), Do(hash, Run(hash, INITIAL, steps), Move(i, env)), i, env, a)
  {
    hide Run, Advance, Vouched, Wellformed, Entries, Named, Consistent, Resolve;
    var s := Run(hash, INITIAL, steps);
    CallerIsExecuting(hash, steps, i);
    RunIsVouched(hash, steps, None);
    CarriedIsOwn(s, i, a);
    CallLeaves(hash, s, i, env, a);
    CallCommits(hash, s, i, env, a);
    LedgerIsConsistent(hash, steps);
    LeftIsExact(s, Advance(hash, s, i, env), i, env, a);
  }

  ghost predicate At(s: System, i: nat, stage: Stage) {
    i < |s.executions| && s.executions[i].stage == stage
  }

  lemma CarriedIsOwn(s: System, i: nat, a: Attempt)
    requires Vouched(s, None) && At(s, i, Calling(a))
    ensures Open(a) && a.effectId == EffectIdOf(s.executions[i].task)
  {
    assert Sound(s, None, s.executions[i]);
  }

  lemma CallerIsExecuting(hash: Hash, steps: seq<Step>, i: nat)
    requires CallsAt(Run(hash, INITIAL, steps), i)
    ensures ExecutesAt(Run(hash, INITIAL, steps), i)
  {
    hide Run, Wellformed, Entries, Named, LedgerIsHistory, CommitFits, Resolve, BindingEffectId;
    var s := Run(hash, INITIAL, steps);
    RunIsSafe(hash, steps);
    RunIsStoried(hash, steps);
    assert InStep(s, i) && Placed(hash, s, i);
    var k :| 0 <= k < |s.history.passed| && s.history.passed[k].execution == i;
    assert TrulyPassed(hash, s, s.history.passed[k]);
  }

  ghost predicate CallsAt(s: System, i: nat) {
    i < |s.executions| && s.executions[i].stage.Calling?
  }

  ghost predicate ExecutesAt(s: System, i: nat) {
    i < |s.executions| && Executing(s.executions[i])
  }

  lemma LeftIsExact(s: System, t: System, i: nat, env: Environment, a: Attempt)
    requires CallLeft(s, t, i, env, a) && Open(a) && a.effectId == EffectIdOf(s.executions[i].task)
    requires CommitsMore(s, t, i, env) && Consistent(s.ledger)
    ensures Outcome(s, t, i, env, a)
  {
    var q := RequestOf(s.executions[i].task);
    assert Used(s.ledger, q.effect.grantId) == |EffectsOf(s.ledger, q.effect.grantId)|;
  }

  ghost predicate CommitsMore(s: System, t: System, i: nat, env: Environment) {
    && i < |s.executions| && Executing(s.executions[i])
    && var q := RequestOf(s.executions[i].task);
    && t.history.commits
       == s.history.commits + (if env.fault.NoFault? && Admits(s.ledger, q) then [CommitEvent(i, q)] else [])
  }

  lemma CallCommits(hash: Hash, s: System, i: nat, env: Environment, a: Attempt)
    requires i < |s.executions| && s.executions[i].stage == Calling(a) && Executing(s.executions[i])
    ensures CommitsMore(s, Advance(hash, s, i, env), i, env)
  {
    hide Start, Revalidate, Refuse, Load, ObserveStep, Accept, Conclude, Note, RequestOf, AfterApply, OutcomeOf, Answer;
    hide Admits;
  }
}
