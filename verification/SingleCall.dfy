/** The destination is called at most once for an effect when the executions of that effect
    do not overlap between loading the attempts and recording their own. */
module SingleCall {
  import opened Text
  import opened Commitments
  import opened Authority
  import opened Resolution
  import opened Destination
  import opened RunRecords
  import opened Reconciliations
  import opened ChangedInputs
  import opened Workflow

  /** Loaded the attempts, but not yet recorded one. */
  predicate InWindow(stage: Stage) {
    match stage
    case Observing(phase) => phase.Before?
    case Accepting(phase, _, _) => phase.Before?
    case Concluding(phase, _) => phase.Before?
    case NotingExisting(_) => true
    case NotingAttempt(_) => true
    case _ => false
  }

  /** In the window, having seen no attempt. */
  predicate SawNone(stage: Stage) {
    match stage
    case Observing(phase) => phase == Before(false)
    case Accepting(phase, _, _) => phase == Before(false)
    case Concluding(phase, _) => phase == Before(false)
    case NotingAttempt(_) => true
    case _ => false
  }

  predicate Carries(stage: Stage, effectId: string) {
    match stage
    case NotingExisting(a) => a.effectId == effectId
    case NotingAttempt(a) => a.effectId == effectId
    case Calling(a) => a.effectId == effectId
    case NotingOutcome(a) => a.effectId == effectId
    case _ => true
  }

  ghost predicate Belongs(e: Execution, id: string) {
    EffectIdOf(e.task) == id
  }

  /** At most one execution of this effect is in the window. */
  ghost predicate NoOverlap(s: System, id: string) {
    forall i, j | 0 <= i < j < |s.executions| && Belongs(s.executions[i], id) && Belongs(s.executions[j], id) ::
      !InWindow(s.executions[i].stage) || !InWindow(s.executions[j].stage)
  }

  /** How often executions of the effect called the destination. */
  ghost function CallsFor(executions: seq<Execution>, calls: seq<nat>, effectId: string): nat {
    if calls == [] then 0 else
      var n := |calls| - 1;
      CallsFor(executions, calls[..n], effectId)
      + (if calls[n] < |executions| && EffectIdOf(executions[calls[n]].task) == effectId then 1 else 0)
  }

  ghost function Called(s: System, effectId: string): nat {
    CallsFor(s.executions, s.history.calls, effectId)
  }

  /** Every execution carries its own effect; those of this effect agree with the attempts and calls for it. */
  ghost predicate Orderly(s: System, i: nat, id: string)
    requires i < |s.executions|
  {
    var e := s.executions[i];
    && (InWindow(e.stage) || e.stage.Calling? || e.stage.NotingOutcome? ==>
          Executing(e) && Carries(e.stage, EffectIdOf(e.task)))
    && (Belongs(e, id) ==>
          && (SawNone(e.stage) ==> !HasAttempt(s.records.attempts, id))
          && (e.stage.Calling? ==> HasAttempt(s.records.attempts, id) && Called(s, id) == 0)
          && (e.stage.NotingOutcome? ==> HasAttempt(s.records.attempts, id)))
  }

  ghost predicate OneCaller(s: System, id: string) {
    forall i, j | 0 <= i < j < |s.executions| && Belongs(s.executions[i], id) && Belongs(s.executions[j], id) ::
      !s.executions[i].stage.Calling? || !s.executions[j].stage.Calling?
  }

  ghost predicate Single(s: System, id: string) {
    && (forall i | 0 <= i < |s.executions| :: Orderly(s, i, id))
    && OneCaller(s, id)
    && Called(s, id) <= 1 && (Called(s, id) == 1 ==> HasAttempt(s.records.attempts, id))
    && InRange(s)
  }

  lemma {:induction false} CallsForKept(before: seq<Execution>, after: seq<Execution>, calls: seq<nat>, id: string)
    requires |before| <= |after| && forall i | 0 <= i < |before| :: after[i].task == before[i].task
    requires forall k | 0 <= k < |calls| :: calls[k] < |before|
    ensures CallsFor(before, calls, id) == CallsFor(after, calls, id)
  {
    if calls != [] {
      CallsForKept(before, after, calls[..|calls| - 1], id);
    }
  }

  // ---- how calls are counted -------------------------------------------------

  /** Every call on record was made by an execution that is there. */
  ghost predicate InRange(s: System) {
    forall k | 0 <= k < |s.history.calls| :: s.history.calls[k] < |s.executions|
  }

  lemma {:induction false} CalledIsCounted(s: System, calls: seq<nat>, id: string, i: nat)
    requires i in calls && i < |s.executions| && EffectIdOf(s.executions[i].task) == id
    ensures CallsFor(s.executions, calls, id) >= 1
  {
    var n := |calls| - 1;
    if calls[n] != i {
      assert calls == calls[..n] + [calls[n]];
      CalledIsCounted(s, calls[..n], id, i);
    }
  }

  /** A step adds at most one call, made by an execution about to call. */
  ghost predicate CallsMore(s: System, t: System, step: Step) {
    && |s.executions| <= |t.executions|
    && (forall i | 0 <= i < |s.executions| :: t.executions[i].task == s.executions[i].task)
    && (if step.Move? && step.execution < |s.executions| && s.executions[step.execution].stage.Calling?
           && Executing(s.executions[step.execution])
        then t.history.calls == s.history.calls + [step.execution] else t.history.calls == s.history.calls)
  }

  /** No call, and the same tasks. */
  ghost predicate CallsSame(s: System, t: System) {
    && t.history.calls == s.history.calls && |s.executions| <= |t.executions|
    && forall i | 0 <= i < |s.executions| :: t.executions[i].task == s.executions[i].task
  }

  lemma ChecksCallNone(hash: Hash, s: System, i: nat, t: Task, env: Environment)
    requires i < |s.executions|
    ensures CallsSame(s, Start(hash, s, i, t, env))
    ensures t.Execute? ==> CallsSame(s, Revalidate(hash, s, i, t, env)) && CallsSame(s, Load(s, i, t))
  {
    hide Resolve, DecisionFor, Presentable, RefusalReasons, HasAttempt;
  }

  lemma NotesCallNone(hash: Hash, s: System, i: nat, t: Task, env: Environment)
    requires i < |s.executions|
    ensures t.Execute? && t.decision.binding.Some? ==> forall reasons ::
        CallsSame(s, Refuse(hash, s, i, t, reasons, env))
    ensures forall a, next :: CallsSame(s, Note(s, i, a, next))
  {
    hide Changed;
  }

  lemma ObservationsCallNone(s: System, i: nat, t: Task, env: Environment)
    requires i < |s.executions|
    ensures forall phase :: CallsSame(s, ObserveStep(s, i, t, phase, env))
    ensures forall phase, o, verdict :: CallsSame(s, Accept(s, i, phase, o, verdict))
    ensures forall phase, verdict :: CallsSame(s, Conclude(s, i, t, phase, verdict, env))
  {
    hide Judged, Unavailable, Observe, Onward;
  }

  lemma StepCalls(hash: Hash, s: System, step: Step)
    ensures CallsMore(s, Do(hash, s, step), step)
  {
    hide Start, Revalidate, Refuse, Load, ObserveStep, Accept, Conclude, Note, RequestOf, AfterApply, OutcomeOf;
    if step.Move? && step.execution < |s.executions| {
      var i, t, env := step.execution, s.executions[step.execution].task, step.environment;
      ChecksCallNone(hash, s, i, t, env);
      NotesCallNone(hash, s, i, t, env);
      ObservationsCallNone(s, i, t, env);
    }
  }

  lemma CalledMore(s: System, t: System, step: Step, id: string)
    requires InRange(s) && CallsMore(s, t, step)
    ensures InRange(t) && Called(t, id) >= Called(s, id)
    ensures t.history.calls != s.history.calls && EffectIdOf(s.executions[step.execution].task) == id ==>
      Called(t, id) == Called(s, id) + 1
  {
    CallsForKept(s.executions, t.executions, s.history.calls, id);
    if t.history.calls != s.history.calls {
      assert t.history.calls[..|s.history.calls|] == s.history.calls;
    }
  }

  // ---- one call at most ------------------------------------------------------

  /** Everything but execution i is as it was, and no call was made. */
  ghost predicate Only(s: System, t: System, i: nat) {
    && |t.executions| == |s.executions| && i < |s.executions|
    && t.executions == s.executions[i := t.executions[i]] && t.executions[i].task == s.executions[i].task
    && t.history.calls == s.history.calls
  }

  lemma CalledKept(s: System, t: System, i: nat, id: string)
    requires Single(s, id) && Only(s, t, i)
    ensures Called(t, id) == Called(s, id)
  {
    CallsForKept(s.executions, t.executions, s.history.calls, id);
  }

  /** A step that records no attempt. */
  lemma StepWithoutAttempt(s: System, t: System, i: nat, id: string)
    requires Single(s, id) && Only(s, t, i) && t.records.attempts == s.records.attempts
    requires Orderly(t, i, id) && (t.executions[i].stage.Calling? ==> s.executions[i].stage.Calling?)
    ensures Single(t, id)
  {
    CalledKept(s, t, i, id);
    forall j | 0 <= j < |t.executions| ensures Orderly(t, j, id) {
      assert Orderly(s, j, id);
    }
  }

  lemma HasAttemptAfter(attempts: seq<Attempt>, a: Attempt, id: string)
    ensures HasAttempt(attempts + [a], id) <==> HasAttempt(attempts, id) || a.effectId == id
  {
    var more := attempts + [a];
    if HasAttempt(attempts, id) {
      var b :| b in attempts && b.effectId == id;
      assert b in more;
    }
    assert a in more;
  }

  /** A step that records an attempt of execution i. */
  lemma StepWithAttempt(s: System, t: System, i: nat, a: Attempt, id: string)
    requires Single(s, id) && NoOverlap(s, id) && Only(s, t, i)
    requires t.records.attempts == s.records.attempts + [a]
    requires a.effectId == EffectIdOf(s.executions[i].task)
    requires a.effectId == id ==> InWindow(s.executions[i].stage) || HasAttempt(s.records.attempts, id)
    requires var e := t.executions[i];
      || e.stage.Finished? || (e.stage.Observing? && !e.stage.phase.Before?)
      || (e.stage == Calling(a) && Executing(e) && SawNone(s.executions[i].stage))
    ensures Single(t, id)
  {
    CalledKept(s, t, i, id);
    HasAttemptAfter(s.records.attempts, a, id);
    forall j | 0 <= j < |t.executions| ensures Orderly(t, j, id) {
      assert Orderly(s, j, id);
    }
    CallersKept(s, t, i, id);
  }

  lemma CallersKept(s: System, t: System, i: nat, id: string)
    requires Single(s, id) && Only(s, t, i)
    requires t.executions[i].stage.Calling? ==> SawNone(s.executions[i].stage)
    ensures OneCaller(t, id)
  {
    forall j, k | 0 <= j < k < |t.executions| && Belongs(t.executions[j], id) && Belongs(t.executions[k], id)
      ensures !t.executions[j].stage.Calling? || !t.executions[k].stage.Calling?
    {
      assert Orderly(s, j, id) && Orderly(s, k, id);
    }
  }

  /** A call by the one execution that may make it. */
  lemma CalledOnce(s: System, t: System, i: nat, id: string)
    requires Single(s, id) && i < |s.executions| && s.executions[i].stage.Calling?
    requires |t.executions| == |s.executions| && t.executions == s.executions[i := t.executions[i]]
    requires t.executions[i].task == s.executions[i].task && t.executions[i].stage.NotingOutcome?
    requires Carries(t.executions[i].stage, EffectIdOf(s.executions[i].task))
    requires t.history.calls == s.history.calls + [i] && t.records == s.records
    ensures Single(t, id)
  {
    var n := |s.history.calls|;
    assert Orderly(s, i, id);
    assert t.history.calls[..n] == s.history.calls && t.history.calls[n] == i;
    CallsForKept(s.executions, t.executions, s.history.calls, id);
    assert Called(t, id) == Called(s, id) + (if Belongs(s.executions[i], id) then 1 else 0);
    hide CallsFor;
    forall j | 0 <= j < |t.executions| ensures Orderly(t, j, id) {
      assert Orderly(s, j, id);
    }
  }

  lemma CallIsSingle(hash: Hash, s: System, i: nat, env: Environment, id: string)
    requires Single(s, id) && i < |s.executions| && s.executions[i].stage.Calling?
    ensures Single(Advance(hash, s, i, env), id)
  {
    hide Start, Revalidate, Refuse, Load, ObserveStep, Accept, Conclude, Note;
    hide RequestOf, AfterApply, OutcomeOf, CallsFor;
    assert Orderly(s, i, id);
    CalledOnce(s, Advance(hash, s, i, env), i, id);
  }

  lemma NoteIsSingle(hash: Hash, s: System, i: nat, env: Environment, id: string)
    requires Single(s, id) && NoOverlap(s, id) && i < |s.executions|
    requires var stage := s.executions[i].stage; stage.NotingExisting? || stage.NotingAttempt? || stage.NotingOutcome?
    ensures Single(Advance(hash, s, i, env), id)
  {
    hide Start, Revalidate, Refuse, Load, ObserveStep, Accept, Conclude, Call, CallsFor;
    assert Orderly(s, i, id);
    StepWithAttempt(s, Advance(hash, s, i, env), i, s.executions[i].stage.attempt, id);
  }

  /** Steps that neither note an attempt nor call. */
  lemma OtherIsSingle(hash: Hash, s: System, i: nat, env: Environment, id: string)
    requires Single(s, id) && NoOverlap(s, id) && i < |s.executions|
    requires var stage := s.executions[i].stage;
      !stage.NotingExisting? && !stage.NotingAttempt? && !stage.NotingOutcome? && !stage.Calling?
    ensures Single(Advance(hash, s, i, env), id)
  {
    hide Advance, CallsFor, Orderly, HasAttempt;
    var t := Advance(hash, s, i, env);
    OtherIsQuiet(hash, s, i, env);
    assert Orderly(s, i, id);
    if t != s {
      CalledKept(s, t, i, id);
      OtherIsOrderly(hash, s, i, env, id);
      StepWithoutAttempt(s, t, i, id);
    }
  }

  ghost predicate QuietAt(s: System, t: System, i: nat) {
    && Only(s, t, i) && t.records.attempts == s.records.attempts
    && (t.executions[i].stage.Calling? ==> s.executions[i].stage.Calling?)
  }

  lemma OtherIsQuiet(hash: Hash, s: System, i: nat, env: Environment)
    requires i < |s.executions|
    requires var stage := s.executions[i].stage;
      !stage.NotingExisting? && !stage.NotingAttempt? && !stage.NotingOutcome? && !stage.Calling?
    ensures QuietAt(s, Advance(hash, s, i, env), i)
  {
    hide Resolve, Changed, Judged, Unavailable, Observe, DecisionFor, Note, Call, CallsFor;
  }

  lemma OtherIsOrderly(hash: Hash, s: System, i: nat, env: Environment, id: string)
    requires i < |s.executions| && Orderly(s, i, id) && QuietAt(s, Advance(hash, s, i, env), i)
    requires Called(Advance(hash, s, i, env), id) == Called(s, id)
    requires var stage := s.executions[i].stage;
      !stage.NotingExisting? && !stage.NotingAttempt? && !stage.NotingOutcome? && !stage.Calling?
    ensures OrderlyAt(Advance(hash, s, i, env), i, id)
  {
    hide Resolve, Changed, Judged, Unavailable, Observe, DecisionFor, Note, Call, CallsFor;
  }

  ghost predicate OrderlyAt(s: System, i: nat, id: string) {
    i < |s.executions| && Orderly(s, i, id)
  }

  lemma AdvanceIsSingle(hash: Hash, s: System, i: nat, env: Environment, id: string)
    requires Single(s, id) && NoOverlap(s, id) && i < |s.executions|
    ensures Single(Advance(hash, s, i, env), id)
  {
    hide Advance, Single;
    var stage := s.executions[i].stage;
    if stage.Calling? {
      CallIsSingle(hash, s, i, env, id);
    } else if stage.NotingExisting? || stage.NotingAttempt? || stage.NotingOutcome? {
      NoteIsSingle(hash, s, i, env, id);
    } else {
      OtherIsSingle(hash, s, i, env, id);
    }
  }

  lemma StepIsSingle(hash: Hash, s: System, step: Step, id: string)
    requires Single(s, id) && NoOverlap(s, id)
    ensures Single(Do(hash, s, step), id)
  {
    hide Advance, CallsFor;
    var t := Do(hash, s, step);
    match step
    case Move(i, env) => if i < |s.executions| { AdvanceIsSingle(hash, s, i, env, id); }
    case Crash(i) => if i < |s.executions| { StepWithoutAttempt(s, t, i, id); }
    case Spawn(_) =>
      CallsForKept(s.executions, t.executions, s.history.calls, id);
      forall j | 0 <= j < |t.executions| ensures Orderly(t, j, id) {
        if j < |s.executions| { assert Orderly(s, j, id); }
      }
  }

  /** The run, at every step, keeps executions of this effect from overlapping. */
  ghost predicate Serialized(hash: Hash, steps: seq<Step>, effectId: string) {
    forall n | 0 <= n <= |steps| :: NoOverlap(Run(hash, INITIAL, steps[..n]), effectId)
  }

  lemma SerializedBefore(hash: Hash, steps: seq<Step>, effectId: string)
    requires steps != [] && Serialized(hash, steps, effectId)
    ensures Serialized(hash, steps[..|steps| - 1], effectId)
  {
    hide Run;
    var n := |steps| - 1;
    forall m | 0 <= m <= n ensures NoOverlap(Run(hash, INITIAL, steps[..n][..m]), effectId) {
      assert steps[..n][..m] == steps[..m];
    }
  }

  lemma {:induction false} SerializedIsSingle(hash: Hash, steps: seq<Step>, effectId: string)
    requires Serialized(hash, steps, effectId)
    ensures Single(Run(hash, INITIAL, steps), effectId)
  {
    hide Do;
    if steps != [] {
      var n := |steps| - 1;
      SerializedBefore(hash, steps, effectId);
      SerializedIsSingle(hash, steps[..n], effectId);
      StepIsSingle(hash, Run(hash, INITIAL, steps[..n]), steps[n], effectId);
    }
  }

  /** Through lost acknowledgements, crashes, restarts and repeated decisions, and whatever the
      executions of other effects do, an effect whose own executions do not overlap is dispatched
      at most once over the whole life of the store. */
  lemma DispatchedAtMostOnce(hash: Hash, steps: seq<Step>, effectId: string)
    requires Serialized(hash, steps, effectId)
    ensures Called(Run(hash, INITIAL, steps), effectId) <= 1
  {
    hide Run, NoOverlap, Called;
    SerializedIsSingle(hash, steps, effectId);
  }

  /** What two moves from a prepared attempt do: record it and call. */
  ghost predicate Calls(s: System, t: System, i: nat) {
    && |t.executions| == |s.executions| && i < |s.executions|
    && (forall k | 0 <= k < |s.executions| :: t.executions[k].task == s.executions[k].task)
    && (forall k | 0 <= k < |s.executions| && k != i :: t.executions[k] == s.executions[k])
    && t.history.calls == s.history.calls + [i]
  }

  lemma TwoMovesCall(hash: Hash, s: System, i: nat, env: Environment)
    requires i < |s.executions| && s.executions[i].stage.NotingAttempt? && Executing(s.executions[i])
    ensures Calls(s, Do(hash, Do(hash, s, Move(i, env)), Move(i, env)), i)
  {
    hide Start, Revalidate, Refuse, Load, ObserveStep, Accept, Conclude, RequestOf, AfterApply, OutcomeOf;
  }

  lemma CallIsCounted(s: System, t: System, i: nat, id: string)
    requires Calls(s, t, i) && InRange(s)
    ensures Called(t, id) == Called(s, id) + (if EffectIdOf(s.executions[i].task) == id then 1 else 0)
  {
    var n := |s.history.calls|;
    assert t.history.calls[..n] == s.history.calls && t.history.calls[n] == i;
    CallsForKept(s.executions, t.executions, s.history.calls, id);
  }

  /** Without the condition the claim fails: two executions of one effect that have both read
      that it was never attempted both call the destination. RefundRuns reaches such a state. */
  lemma OverlapCallsTwice(hash: Hash, s: System, i: nat, j: nat, env: Environment, id: string)
    requires i < |s.executions| && j < |s.executions| && i != j
    requires s.executions[i].stage.NotingAttempt? && Executing(s.executions[i])
        && EffectIdOf(s.executions[i].task) == id
    requires s.executions[j].stage.NotingAttempt? && Executing(s.executions[j])
        && EffectIdOf(s.executions[j].task) == id
    requires InRange(s)
    ensures !NoOverlap(s, id)
    ensures Called(Run(hash, s, [Move(i, env), Move(i, env), Move(j, env), Move(j, env)]), id) == Called(s, id) + 2
  {
    hide Do, CallsFor;
    var first, second := Move(i, env), Move(j, env);
    assert InWindow(s.executions[i].stage) && InWindow(s.executions[j].stage);
    var t := Do(hash, Do(hash, s, first), first);
    var u := Do(hash, Do(hash, t, second), second);
    TwoMovesCall(hash, s, i, env);
    TwoMovesCall(hash, t, j, env);
    CallIsCounted(s, t, i, id);
    CallIsCounted(t, u, j, id);
    RunFour(hash, s, first, first, second, second);
  }

  lemma RunFour(hash: Hash, s: System, a: Step, b: Step, c: Step, d: Step)
    ensures Run(hash, s, [a, b, c, d]) == Do(hash, Do(hash, Do(hash, Do(hash, s, a), b), c), d)
  {
    hide Do;
    assert [a, b, c, d][..3] == [a, b, c] && [a, b, c][..2] == [a, b] && [a, b][..1] == [a] && [a][..0] == [];
    assert Run(hash, s, [a]) == Do(hash, s, a);
    assert Run(hash, s, [a, b]) == Do(hash, Do(hash, s, a), b);
    assert Run(hash, s, [a, b, c]) == Do(hash, Do(hash, Do(hash, s, a), b), c);
  }
}
