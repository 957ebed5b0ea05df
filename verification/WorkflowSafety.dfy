/** Whole-run safety: what is committed, why, how often, and under which cap. */
module WorkflowSafety {
  import opened Text
  import opened CanonicalJson
  import opened Commitments
  import opened Authority
  import opened Resolution
  import opened ResolutionLaws
  import opened Destination
  import opened RunRecords
  import opened Reconciliations
  import opened ChangedInputs
  import opened Workflow

  // ---- runs only add -------------------------------------------------------

  ghost predicate Grows(s: System, t: System) {
    && |s.executions| <= |t.executions|
    && (forall i | 0 <= i < |s.executions| :: t.executions[i].task == s.executions[i].task)
    && s.records.PrefixOf(t.records)
    && s.history.passed <= t.history.passed && s.history.commits <= t.history.commits
    && s.history.calls <= t.history.calls && s.history.crashes <= t.history.crashes
    && s.issued <= t.issued
  }

  lemma StartGrows(hash: Hash, s: System, i: nat, t: Task, env: Environment)
    requires i < |s.executions| && s.executions[i].task == t
    ensures Grows(s, Start(hash, s, i, t, env))
  {
    hide Resolve, DecisionFor, Presentable;
  }

  lemma RevalidateGrows(hash: Hash, s: System, i: nat, t: Task, env: Environment)
    requires i < |s.executions| && s.executions[i].task == t && t.Execute?
    ensures Grows(s, Revalidate(hash, s, i, t, env))
  {
    hide Resolve, RefusalReasons;
  }

  lemma RefuseGrows(hash: Hash, s: System, i: nat, t: Task, reasons: seq<string>, env: Environment)
    requires i < |s.executions| && s.executions[i].task == t && t.Execute? && t.decision.binding.Some?
    ensures Grows(s, Refuse(hash, s, i, t, reasons, env))
  {
    hide Changed;
  }

  lemma ObservationStepsGrow(s: System, i: nat, t: Task, phase: Phase, env: Environment)
    requires i < |s.executions| && s.executions[i].task == t
    ensures t.Execute? ==> Grows(s, Load(s, i, t))
    ensures Grows(s, ObserveStep(s, i, t, phase, env))
    ensures forall o, verdict :: Grows(s, Accept(s, i, phase, o, verdict))
  {
    hide Judged, Unavailable, Observe;
  }

  lemma RecordStepsGrow(s: System, i: nat, t: Task, phase: Phase, env: Environment)
    requires i < |s.executions| && s.executions[i].task == t
    ensures forall verdict :: Grows(s, Conclude(s, i, t, phase, verdict, env))
    ensures forall a, next :: Grows(s, Note(s, i, a, next))
  {}

  lemma CallGrows(s: System, i: nat, t: Task, a: Attempt, env: Environment)
    requires i < |s.executions| && s.executions[i].task == t && t.Execute? && t.decision.binding.Some?
    ensures Grows(s, Call(s, i, t, a, env))
  {}

  lemma StepGrows(hash: Hash, s: System, step: Step)
    ensures Grows(s, Do(hash, s, step))
  {
    hide Start, Revalidate, Refuse, Load, ObserveStep, Accept, Conclude, Note, Call;
    if step.Move? && step.execution < |s.executions| {
      var i, env := step.execution, step.environment;
      var t, stage := s.executions[i].task, s.executions[i].stage;
      match stage
      case Starting => StartGrows(hash, s, i, t, env);
      case Revalidating => if Executing(s.executions[i]) { RevalidateGrows(hash, s, i, t, env); }
      case Refusing(reasons) => if Executing(s.executions[i]) { RefuseGrows(hash, s, i, t, reasons, env); }
      case Observing(phase) => ObservationStepsGrow(s, i, t, phase, env);
      case Accepting(phase, _, _) => ObservationStepsGrow(s, i, t, phase, env);
      case Concluding(phase, _) => RecordStepsGrow(s, i, t, phase, env);
      case Calling(a) => if Executing(s.executions[i]) { CallGrows(s, i, t, a, env); }
      case _ =>
        ObservationStepsGrow(s, i, t, Alone, env);
        RecordStepsGrow(s, i, t, Alone, env);
    }
  }

  lemma {:induction false} RunGrows(hash: Hash, s: System, steps: seq<Step>)
    ensures Grows(s, Run(hash, s, steps))
  {
    if steps != [] {
      var n := |steps| - 1;
      RunGrows(hash, s, steps[..n]);
      StepGrows(hash, Run(hash, s, steps[..n]), steps[n]);
    }
  }

  // ---- provenance ----------------------------------------------------------

  /** The decision a task presents is persisted, authorized, and under its own effect id. */
  ghost predicate Persisted(hash: Hash, s: System, t: Task) {
    && t.Execute? && t.decision in s.records.decisions
    && t.decision.result == DecisionResult.Authorized && t.decision.binding.Some?
    && t.decision.effectId == BindingEffectId(hash, t.decision.binding.value)
  }

  /** The entry records a revalidation that resolved to the persisted binding. */
  ghost predicate TrulyPassed(hash: Hash, s: System, e: Passed) {
    && e.execution < |s.executions|
    && var t := s.executions[e.execution].task;
    && Persisted(hash, s, t)
    && e.resolved == Resolve(hash, t.config, e.view, t.proposal, t.now)
    && e.resolved.binding == t.decision.binding
  }

  ghost predicate HasPassed(s: System, i: nat) {
    exists k | 0 <= k < |s.history.passed| :: s.history.passed[k].execution == i
  }

  /** Stages an execution reaches only after its revalidation passed. */
  predicate PastCheck(stage: Stage) {
    match stage
    case Loading => true
    case Observing(phase) => phase.Before?
    case Accepting(phase, _, _) => phase.Before?
    case Concluding(phase, _) => phase.Before?
    case NotingExisting(_) => true
    case NotingAttempt(_) => true
    case Calling(_) => true
    case NotingOutcome(_) => true
    case _ => false
  }

  ghost predicate Placed(hash: Hash, s: System, i: nat)
    requires i < |s.executions|
  {
    var e := s.executions[i];
    && (e.stage.Revalidating? ==> Persisted(hash, s, e.task))
    && (e.stage.Refusing? ==> Persisted(hash, s, e.task) && e.stage.reasons != [] && StrictlySorted(e.stage.reasons))
    && (PastCheck(e.stage) && e.task.Execute? ==> HasPassed(s, i))
  }

  /** How many of the commits carry the grant. */
  ghost function Count(commits: seq<CommitEvent>, grantId: string): nat {
    if commits == [] then 0 else
      var n := |commits| - 1;
      Count(commits[..n], grantId) + (if commits[n].request.effect.grantId == grantId then 1 else 0)
  }

  ghost predicate CommitFits(s: System, j: nat)
    requires j < |s.history.commits|
  {
    var c := s.history.commits[j];
    && c.execution < |s.executions| && HasPassed(s, c.execution)
    && s.executions[c.execution].task.Execute? && s.executions[c.execution].task.decision.binding.Some?
    && c.request == RequestOf(s.executions[c.execution].task)
    && Count(s.history.commits[..j], c.request.effect.grantId) < c.request.maxEffects
  }

  /** The ledger holds exactly the committed effects, each once. */
  ghost predicate LedgerIsHistory(s: System) {
    var commits := s.history.commits;
    && (forall j | 0 <= j < |commits| ::
          && commits[j].request.effect.effectId in s.ledger.effects
          && s.ledger.effects[commits[j].request.effect.effectId] == commits[j].request.effect)
    && (forall id | id in s.ledger.effects :: exists j | 0 <= j < |commits| :: commits[j].request.effect.effectId == id)
    && (forall j, k | 0 <= j < k < |commits| ::
          commits[j].request.effect.effectId != commits[k].request.effect.effectId)
    && (forall g: string :: Used(s.ledger, g) == Count(commits, g))
    && Consistent(s.ledger)
  }

  ghost predicate Safe(hash: Hash, s: System) {
    && (forall k | 0 <= k < |s.history.passed| :: TrulyPassed(hash, s, s.history.passed[k]))
    && (forall i | 0 <= i < |s.executions| :: Placed(hash, s, i))
    && (forall j | 0 <= j < |s.history.commits| :: CommitFits(s, j))
    && LedgerIsHistory(s)
    && SortedRefusals(s.records)
  }

  lemma HasPassedGrows(s: System, t: System, i: nat)
    requires Grows(s, t) && HasPassed(s, i)
    ensures HasPassed(t, i)
  {
    var k :| 0 <= k < |s.history.passed| && s.history.passed[k].execution == i;
    assert t.history.passed[k] == s.history.passed[k];
  }

  lemma PassedKept(hash: Hash, s: System, t: System, k: nat)
    requires Safe(hash, s) && Grows(s, t) && k < |s.history.passed|
    ensures TrulyPassed(hash, t, t.history.passed[k])
  {
    hide Resolve, BindingEffectId, LedgerIsHistory;
    assert TrulyPassed(hash, s, s.history.passed[k]);
    assert t.history.passed[k] == s.history.passed[k];
  }

  lemma PlacedKept(hash: Hash, s: System, t: System, i: nat)
    requires Safe(hash, s) && Grows(s, t) && i < |s.executions| && t.executions[i] == s.executions[i]
    ensures Placed(hash, t, i)
  {
    hide Resolve, BindingEffectId, LedgerIsHistory;
    assert Placed(hash, s, i);
    if HasPassed(s, i) {
      HasPassedGrows(s, t, i);
    }
  }

  lemma CommitKept(hash: Hash, s: System, t: System, j: nat)
    requires Safe(hash, s) && Grows(s, t) && j < |s.history.commits|
    ensures CommitFits(t, j)
  {
    hide Resolve, BindingEffectId, LedgerIsHistory;
    assert CommitFits(s, j);
    HasPassedGrows(s, t, s.history.commits[j].execution);
    assert t.history.commits[j] == s.history.commits[j];
    assert t.history.commits[..j] == s.history.commits[..j];
  }

  ghost predicate SortedRefusals(rs: Records) {
    forall f | f in rs.refusals :: f.reasons != [] && StrictlySorted(f.reasons)
  }

  ghost predicate Kept(s: System, t: System, j: nat) {
    j < |s.executions| && j < |t.executions| && t.executions[j] == s.executions[j]
  }

  /** A step is safe when what it adds is. */
  lemma GrowthIsSafe(hash: Hash, s: System, t: System, i: nat)
    requires Safe(hash, s) && Grows(s, t)
    requires forall j | 0 <= j < |t.executions| && j != i :: Kept(s, t, j)
    requires i < |t.executions| ==> Placed(hash, t, i)
    requires forall k | |s.history.passed| <= k < |t.history.passed| :: TrulyPassed(hash, t, t.history.passed[k])
    requires forall j | |s.history.commits| <= j < |t.history.commits| :: CommitFits(t, j)
    requires LedgerIsHistory(t) && SortedRefusals(t.records)
    ensures Safe(hash, t)
  {
    hide TrulyPassed, Placed, CommitFits, LedgerIsHistory, Grows;
    forall k | 0 <= k < |t.history.passed| ensures TrulyPassed(hash, t, t.history.passed[k]) {
      if k < |s.history.passed| { PassedKept(hash, s, t, k); }
    }
    forall j | 0 <= j < |t.executions| ensures Placed(hash, t, j) {
      if j != i {
        assert Kept(s, t, j);
        PlacedKept(hash, s, t, j);
      }
    }
    forall j | 0 <= j < |t.history.commits| ensures CommitFits(t, j) {
      if j < |s.history.commits| { CommitKept(hash, s, t, j); }
    }
  }

  /** A step that leaves ledger, passes and commits alone is safe where it places its execution safely. */
  lemma QuietStepIsSafe(hash: Hash, s: System, t: System, i: nat)
    requires Safe(hash, s) && Grows(s, t)
    requires t.ledger == s.ledger && t.history.passed == s.history.passed && t.history.commits == s.history.commits
    requires forall j | 0 <= j < |t.executions| && j != i :: Kept(s, t, j)
    requires i < |t.executions| ==> Placed(hash, t, i)
    requires SortedRefusals(t.records)
    ensures Safe(hash, t)
  {
    hide TrulyPassed, Placed, CommitFits, Grows;
    GrowthIsSafe(hash, s, t, i);
  }

  lemma PresentableIsPersisted(hash: Hash, s: System, t: Task)
    requires t.Execute? && Presentable(hash, s.records.decisions, t.decision)
    ensures Persisted(hash, s, t)
  {}

  lemma StartIsSafe(hash: Hash, s: System, i: nat, env: Environment)
    requires Safe(hash, s) && i < |s.executions| && s.executions[i].stage.Starting?
    ensures Safe(hash, Advance(hash, s, i, env))
  {
    hide Revalidate, Refuse, Load, ObserveStep, Accept, Conclude, Note, Call, Resolve, DecisionFor;
    hide LedgerIsHistory, TrulyPassed, CommitFits;
    var t := Advance(hash, s, i, env);
    StepGrows(hash, s, Move(i, env));
    var task := s.executions[i].task;
    hide Grows;
    if task.Execute? && Presentable(hash, s.records.decisions, task.decision) {
      PresentableIsPersisted(hash, s, task);
    }
    QuietStepIsSafe(hash, s, t, i);
  }

  lemma RefusalReasonsSorted(found: Resolved, binding: Option<Binding>)
    ensures StrictlySorted(RefusalReasons(found, binding))
    ensures RefusalReasons(found, binding) == [] <==> found.reasons == [] && found.binding == binding
  {
    if found.reasons != [] {
      assert found.reasons[0] in SortedSet(found.reasons);
    }
  }

  lemma RevalidateIsSafe(hash: Hash, s: System, i: nat, env: Environment)
    requires Safe(hash, s) && i < |s.executions| && s.executions[i].stage.Revalidating?
    ensures Safe(hash, Advance(hash, s, i, env))
  {
    hide Resolve, Changed, Judged, Unavailable, Observe, DecisionFor, BindingEffectId;
    var t := Advance(hash, s, i, env);
    var task := s.executions[i].task;
    StepGrows(hash, s, Move(i, env));
    assert Placed(hash, s, i);
    var found := Resolve(hash, task.config, env.view, task.proposal, task.now);
    RefusalReasonsSorted(found, task.decision.binding);
    if t.executions[i].stage.Loading? {
      PassIsSafe(hash, s, t, i, Passed(i, env.view, found));
    } else {
      QuietStepIsSafe(hash, s, t, i);
    }
  }

  lemma PassIsSafe(hash: Hash, s: System, t: System, i: nat, e: Passed)
    requires Safe(hash, s) && i < |s.executions|
    requires t == Place(s, i, Loading).(history := s.history.(passed := s.history.passed + [e]))
    requires TrulyPassed(hash, s, e) && e.execution == i
    ensures Safe(hash, t)
  {
    hide Resolve, BindingEffectId, CommitFits, LedgerIsHistory;
    assert t.history.passed[|s.history.passed|] == e;
    assert LedgerIsHistory(t) by { LedgerUntouched(s, t); }
    GrowthIsSafe(hash, s, t, i);
  }

  lemma LedgerUntouched(s: System, t: System)
    requires LedgerIsHistory(s) && t.ledger == s.ledger && t.history.commits == s.history.commits
    ensures LedgerIsHistory(t)
  {}

  lemma CallIsSafe(hash: Hash, s: System, i: nat, env: Environment)
    requires Safe(hash, s) && i < |s.executions| && s.executions[i].stage.Calling?
    ensures Safe(hash, Advance(hash, s, i, env))
  {
    hide Resolve, Changed, Judged, Unavailable, Observe, DecisionFor, BindingEffectId;
    var t := Advance(hash, s, i, env);
    var task := s.executions[i].task;
    StepGrows(hash, s, Move(i, env));
    assert Placed(hash, s, i);
    if Executing(s.executions[i]) && env.fault.NoFault? && Admits(s.ledger, RequestOf(task)) {
      CommitIsSafe(hash, s, t, i);
    } else {
      QuietStepIsSafe(hash, s, t, i);
    }
  }

  lemma StoredFollow(l: Ledger, commits: seq<CommitEvent>, e: CommitEvent)
    requires Admits(l, e.request)
    requires forall j | 0 <= j < |commits| ::
      && commits[j].request.effect.effectId in l.effects
      && l.effects[commits[j].request.effect.effectId] == commits[j].request.effect
    requires forall id | id in l.effects :: exists j | 0 <= j < |commits| :: commits[j].request.effect.effectId == id
    ensures var m, more := AfterApply(l, e.request), commits + [e];
      && (forall j | 0 <= j < |more| ::
            && more[j].request.effect.effectId in m.effects
            && m.effects[more[j].request.effect.effectId] == more[j].request.effect)
      && (forall id | id in m.effects :: exists j | 0 <= j < |more| :: more[j].request.effect.effectId == id)
  {
    var m, more := AfterApply(l, e.request), commits + [e];
    forall id | id in m.effects ensures exists j | 0 <= j < |more| :: more[j].request.effect.effectId == id {
      if id in l.effects {
        var j :| 0 <= j < |commits| && commits[j].request.effect.effectId == id;
        assert more[j] == commits[j];
      } else {
        assert more[|commits|] == e;
      }
    }
  }

  lemma CountsFollow(l: Ledger, commits: seq<CommitEvent>, e: CommitEvent)
    requires Admits(l, e.request) && forall g: string :: Used(l, g) == Count(commits, g)
    ensures forall g: string :: Used(AfterApply(l, e.request), g) == Count(commits + [e], g)
  {
    assert (commits + [e])[..|commits|] == commits;
  }

  lemma LedgerFollows(s: System, t: System, e: CommitEvent)
    requires LedgerIsHistory(s) && Admits(s.ledger, e.request)
    requires t.ledger == AfterApply(s.ledger, e.request) && t.history.commits == s.history.commits + [e]
    ensures LedgerIsHistory(t)
  {
    hide AfterApply, Consistent, Count, Used;
    ApplyKeepsConsistent(s.ledger, e.request);
    StoredFollow(s.ledger, s.history.commits, e);
    CountsFollow(s.ledger, s.history.commits, e);
    StillDistinct(s.ledger, s.history.commits, e);
  }

  lemma StillDistinct(l: Ledger, commits: seq<CommitEvent>, e: CommitEvent)
    requires Admits(l, e.request)
    requires forall j | 0 <= j < |commits| :: commits[j].request.effect.effectId in l.effects
    requires forall j, k | 0 <= j < k < |commits| ::
      commits[j].request.effect.effectId != commits[k].request.effect.effectId
    ensures var more := commits + [e];
      forall j, k | 0 <= j < k < |more| :: more[j].request.effect.effectId != more[k].request.effect.effectId
  {
    hide Used;
    var more := commits + [e];
    forall j, k | 0 <= j < k < |more| ensures more[j].request.effect.effectId != more[k].request.effect.effectId {
      assert more[j] == commits[j];
    }
  }

  /** The new commit is the request of an execution that passed, admitted under its cap. */
  lemma NewCommitFits(hash: Hash, s: System, t: System, i: nat)
    requires Safe(hash, s) && i < |s.executions| && Grows(s, t)
    requires Executing(s.executions[i]) && HasPassed(s, i) && Admits(s.ledger, RequestOf(s.executions[i].task))
    requires t.history.commits == s.history.commits + [CommitEvent(i, RequestOf(s.executions[i].task))]
    ensures CommitFits(t, |s.history.commits|)
  {
    hide TrulyPassed, Placed, Consistent, Count, RequestOf;
    var n := |s.history.commits|;
    HasPassedGrows(s, t, i);
    assert t.history.commits[n] == CommitEvent(i, RequestOf(s.executions[i].task))
        && t.history.commits[..n] == s.history.commits;
  }

  lemma CallerIsPlaced(hash: Hash, s: System, t: System, i: nat)
    requires Grows(s, t) && HasPassed(s, i) && i < |t.executions| && t.executions[i].stage.NotingOutcome?
    ensures Placed(hash, t, i)
  {
    HasPassedGrows(s, t, i);
  }

  lemma CommitIsSafe(hash: Hash, s: System, t: System, i: nat)
    requires Safe(hash, s) && i < |s.executions| && Grows(s, t)
    requires Executing(s.executions[i]) && HasPassed(s, i)
    requires t.executions == s.executions[i := t.executions[i]] && t.executions[i].stage.NotingOutcome?
    requires var q := RequestOf(s.executions[i].task);
      && Admits(s.ledger, q) && t.ledger == AfterApply(s.ledger, q)
      && t.history.commits == s.history.commits + [CommitEvent(i, q)]
    requires t.history.passed == s.history.passed && t.records == s.records
    ensures Safe(hash, t)
  {
    hide AfterApply, Admits, TrulyPassed, Placed, LedgerIsHistory, CommitFits, RequestOf, Grows, HasPassed;
    LedgerFollows(s, t, CommitEvent(i, RequestOf(s.executions[i].task)));
    NewCommitFits(hash, s, t, i);
    CallerIsPlaced(hash, s, t, i);
    GrowthIsSafe(hash, s, t, i);
  }

  lemma RefuseIsSafe(hash: Hash, s: System, i: nat, env: Environment)
    requires Safe(hash, s) && i < |s.executions| && s.executions[i].stage.Refusing?
    ensures Safe(hash, Advance(hash, s, i, env))
  {
    hide Resolve, Changed, BindingEffectId, LedgerIsHistory, TrulyPassed, CommitFits;
    var t := Advance(hash, s, i, env);
    StepGrows(hash, s, Move(i, env));
    assert Placed(hash, s, i);
    hide Grows;
    QuietStepIsSafe(hash, s, t, i);
  }

  /** Execution i moved on without a refusal, a pass or a commit, and not past the check if it was not. */
  ghost predicate MovesOn(s: System, t: System, i: nat) {
    && i < |s.executions| && |t.executions| == |s.executions| && t.ledger == s.ledger
    && t.history.passed == s.history.passed && t.history.commits == s.history.commits
    && t.records.refusals == s.records.refusals
    && (forall j | 0 <= j < |t.executions| && j != i :: t.executions[j] == s.executions[j])
    && var before, after := s.executions[i].stage, t.executions[i].stage;
    && t.executions[i].task == s.executions[i].task
    && (after.Revalidating? || after.Refusing? ==> after == before)
    && (PastCheck(after) ==> PastCheck(before))
  }

  lemma LoadMovesOn(s: System, i: nat, t: Task)
    requires i < |s.executions| && s.executions[i] == Execution(t, Loading) && t.Execute?
    ensures MovesOn(s, Load(s, i, t), i)
  {
    hide HasAttempt;
  }

  lemma ObservationMovesOn(s: System, i: nat, t: Task, phase: Phase, env: Environment)
    requires i < |s.executions| && s.executions[i] == Execution(t, Observing(phase))
    ensures MovesOn(s, ObserveStep(s, i, t, phase, env), i)
  {
    hide Judged, Unavailable, Observe;
  }

  lemma ConclusionMovesOn(s: System, i: nat, t: Task, phase: Phase, verdict: Reconciliation, env: Environment)
    requires i < |s.executions| && s.executions[i] == Execution(t, Concluding(phase, verdict))
    ensures MovesOn(s, Conclude(s, i, t, phase, verdict, env), i)
  {}

  lemma OtherMovesOn(hash: Hash, s: System, i: nat, env: Environment)
    requires i < |s.executions|
    requires var stage := s.executions[i].stage;
      !stage.Starting? && !stage.Revalidating? && !stage.Calling? && !stage.Refusing?
    ensures MovesOn(s, Advance(hash, s, i, env), i)
  {
    hide Start, Revalidate, Refuse, Load, ObserveStep, Conclude, Call;
    var t, stage := s.executions[i].task, s.executions[i].stage;
    match stage
    case Loading => if Executing(s.executions[i]) { LoadMovesOn(s, i, t); }
    case Observing(phase) => ObservationMovesOn(s, i, t, phase, env);
    case Concluding(phase, verdict) => ConclusionMovesOn(s, i, t, phase, verdict, env);
    case _ =>
  }

  lemma MovedIsPlaced(hash: Hash, s: System, t: System, i: nat)
    requires Grows(s, t) && MovesOn(s, t, i) && Placed(hash, s, i)
    ensures Placed(hash, t, i)
  {
    hide Resolve, BindingEffectId;
    if HasPassed(s, i) { HasPassedGrows(s, t, i); }
  }

  /** Steps that only observe, conclude or note. */
  lemma OtherIsSafe(hash: Hash, s: System, i: nat, env: Environment)
    requires Safe(hash, s) && i < |s.executions|
    requires var stage := s.executions[i].stage;
      !stage.Starting? && !stage.Revalidating? && !stage.Calling? && !stage.Refusing?
    ensures Safe(hash, Advance(hash, s, i, env))
  {
    hide Advance, LedgerIsHistory, TrulyPassed, CommitFits, Placed, Grows;
    var t := Advance(hash, s, i, env);
    StepGrows(hash, s, Move(i, env));
    OtherMovesOn(hash, s, i, env);
    MovedIsPlaced(hash, s, t, i);
    QuietStepIsSafe(hash, s, t, i);
  }

  lemma SpawnIsSafe(hash: Hash, s: System, task: Task)
    requires Safe(hash, s)
    ensures Safe(hash, Do(hash, s, Spawn(task)))
  {
    hide Resolve, BindingEffectId, LedgerIsHistory, TrulyPassed, CommitFits;
    StepGrows(hash, s, Spawn(task));
    QuietStepIsSafe(hash, s, Do(hash, s, Spawn(task)), |s.executions|);
  }

  lemma CrashIsSafe(hash: Hash, s: System, i: nat)
    requires Safe(hash, s)
    ensures Safe(hash, Do(hash, s, Crash(i)))
  {
    hide LedgerIsHistory, TrulyPassed, CommitFits, Advance;
    StepGrows(hash, s, Crash(i));
    hide Grows;
    QuietStepIsSafe(hash, s, Do(hash, s, Crash(i)), i);
  }

  lemma StepIsSafe(hash: Hash, s: System, step: Step)
    requires Safe(hash, s)
    ensures Safe(hash, Do(hash, s, step))
  {
    hide Advance, Safe;
    match step
    case Spawn(t) => SpawnIsSafe(hash, s, t);
    case Crash(i) => CrashIsSafe(hash, s, i);
    case Move(i, env) =>
      if i < |s.executions| {
        var stage := s.executions[i].stage;
        if stage.Starting? { StartIsSafe(hash, s, i, env); }
        else if stage.Revalidating? { RevalidateIsSafe(hash, s, i, env); }
        else if stage.Calling? { CallIsSafe(hash, s, i, env); }
        else if stage.Refusing? { RefuseIsSafe(hash, s, i, env); }
        else { OtherIsSafe(hash, s, i, env); }
      }
  }

  lemma InitialIsSafe(hash: Hash)
    ensures Safe(hash, INITIAL)
  {
    assert forall g: string :: EffectsOf(EMPTY_LEDGER, g) == {};
  }

  /** Every reachable state is safe, whatever the interleaving, the answers and the crashes. */
  lemma {:induction false} RunIsSafe(hash: Hash, steps: seq<Step>)
    ensures Safe(hash, Run(hash, INITIAL, steps))
  {
    if steps == [] {
      InitialIsSafe(hash);
    } else {
      RunIsSafe(hash, steps[..|steps| - 1]);
      StepIsSafe(hash, Run(hash, INITIAL, steps[..|steps| - 1]), steps[|steps| - 1]);
    }
  }

  /** An execution that dies is finished where it stands: nothing recorded or stored changes, and no
      other execution notices. */
  lemma CrashOnlyFinishes(hash: Hash, s: System, i: nat)
    requires i < |s.executions|
    ensures var n := Do(hash, s, Crash(i));
      && n.records == s.records && n.ledger == s.ledger && n.issued == s.issued
      && n.executions == s.executions[i := Execution(s.executions[i].task, Finished)]
      && n.history.passed == s.history.passed && n.history.calls == s.history.calls
      && n.history.commits == s.history.commits && n.history.crashes == s.history.crashes + 1
  {
    hide Pending;
    assert s.executions[i].(stage := Finished) == Execution(s.executions[i].task, Finished);
  }
}
