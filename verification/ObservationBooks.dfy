/** Observations and reconciliations balance, and say what the destination held. */
module ObservationBooks {
  import opened Text
  import opened Commitments
  import opened Authority
  import opened Resolution
  import opened Destination
  import opened RunRecords
  import opened Reconciliations
  import opened ChangedInputs
  import opened Workflow
  import opened WorkflowSafety

  /** The observations that accepted reconciliations carry. */
  ghost function Reconciled(rs: seq<Reconciliation>): multiset<Observation> {
    if rs == [] then multiset{} else
      var n := |rs| - 1;
      Reconciled(rs[..n])
      + (if rs[n].accepted && rs[n].observation.Some? then multiset{rs[n].observation.value} else multiset{})
  }

  /** Recorded observations whose reconciliation is still to be recorded. */
  ghost function InFlight(es: seq<Execution>): multiset<Observation> {
    if es == [] then multiset{} else
      var n := |es| - 1;
      InFlight(es[..n]) + Pending(es[n].stage)
  }

  ghost predicate Fair(v: Reconciliation) {
    !v.retryEligible && v.result != SafeToRetry
  }

  ghost predicate Ready(stage: Stage) {
    match stage
    case Accepting(_, o, v) => Fair(v) && v.accepted && v.observation == Some(o)
    case Concluding(_, v) => Fair(v)
    case _ => true
  }

  /** How often o is stored: once per accepted reconciliation, once per pending one, once per orphan. */
  ghost predicate BalancedAt(s: System, o: Observation) {
    multiset(s.records.observations)[o]
      == Reconciled(s.records.reconciliations)[o] + InFlight(s.executions)[o] + s.history.orphans[o]
  }

  ghost predicate Balanced(s: System) {
    && (forall o :: BalancedAt(s, o))
    && |s.history.orphans| <= s.history.crashes
    && (forall i | 0 <= i < |s.executions| :: Ready(s.executions[i].stage))
    && (forall r | r in s.records.reconciliations :: Fair(r))
  }

  lemma InFlightLast(es: seq<Execution>, e: Execution, o: Observation)
    ensures InFlight(es + [e])[o] == InFlight(es)[o] + Pending(e.stage)[o]
  {
    hide Pending;
    assert (es + [e])[..|es|] == es;
  }

  lemma {:induction false} InFlightReplaced(es: seq<Execution>, i: nat, e: Execution, o: Observation)
    requires i < |es|
    ensures InFlight(es[i := e])[o] + Pending(es[i].stage)[o] == InFlight(es)[o] + Pending(e.stage)[o]
  {
    hide InFlight, Pending;
    var n := |es| - 1;
    assert es == es[..n] + [es[n]];
    InFlightLast(es[..n], es[n], o);
    if i < n {
      InFlightReplaced(es[..n], i, e, o);
      assert es[i := e] == es[..n][i := e] + [es[n]];
      InFlightLast(es[..n][i := e], es[n], o);
    } else {
      assert es[i := e] == es[..n] + [e];
      InFlightLast(es[..n], e, o);
    }
  }

  /** Only execution i moved on. */
  ghost predicate Moved(s: System, t: System, i: nat) {
    i < |s.executions| && |t.executions| == |s.executions| && t.executions == s.executions[i := t.executions[i]]
  }

  ghost function Before(s: System, i: nat, o: Observation): nat
    requires i < |s.executions|
  {
    Pending(s.executions[i].stage)[o]
  }

  lemma Follow(s: System, t: System, i: nat)
    requires Balanced(s) && Moved(s, t, i) && Ready(t.executions[i].stage)
    requires forall r | r in t.records.reconciliations :: Fair(r)
    requires |t.history.orphans| <= t.history.crashes
    requires forall o ::
      multiset(t.records.observations)[o] + Reconciled(s.records.reconciliations)[o] + Before(s, i, o)
        + s.history.orphans[o]
      == multiset(s.records.observations)[o] + Reconciled(t.records.reconciliations)[o] + Before(t, i, o)
        + t.history.orphans[o]
    ensures Balanced(t)
  {
    hide Reconciled, InFlight, Pending;
    forall o ensures BalancedAt(t, o) {
      assert BalancedAt(s, o);
      InFlightReplaced(s.executions, i, t.executions[i], o);
    }
  }

  lemma ReconciledAppend(rs: seq<Reconciliation>, v: Reconciliation, o: Observation)
    ensures Reconciled(rs + [v])[o] == Reconciled(rs)[o] + Pending(Concluding(Alone, v))[o]
  {
    assert (rs + [v])[..|rs|] == rs;
  }

  lemma ConcludeBalances(s: System, t: System, i: nat, v: Reconciliation)
    requires Balanced(s) && Moved(s, t, i) && t.history == s.history
    requires s.executions[i].stage.Concluding? && s.executions[i].stage.verdict == v
    requires !t.executions[i].stage.Concluding? && !t.executions[i].stage.Accepting?
    requires t.records == s.records.(reconciliations := s.records.reconciliations + [v])
    ensures Balanced(t)
  {
    assert Ready(s.executions[i].stage);
    forall o ensures Reconciled(t.records.reconciliations)[o]
                     == Reconciled(s.records.reconciliations)[o] + Before(s, i, o)
    {
      ReconciledAppend(s.records.reconciliations, v, o);
    }
    hide Reconciled, InFlight;
    Follow(s, t, i);
  }

  lemma AcceptBalances(s: System, t: System, i: nat, o: Observation, v: Reconciliation)
    requires Balanced(s) && Moved(s, t, i) && t.history == s.history
    requires s.executions[i].stage.Accepting?
    requires s.executions[i].stage.observation == o && s.executions[i].stage.verdict == v
    requires t.executions[i].stage.Concluding? && t.executions[i].stage.verdict == v
    requires t.records == s.records.(observations := s.records.observations + [o])
    ensures Balanced(t)
  {
    hide Reconciled, InFlight;
    assert Ready(s.executions[i].stage);
    Follow(s, t, i);
  }

  lemma QuietBalances(s: System, t: System, i: nat)
    requires Balanced(s) && Moved(s, t, i)
    requires t.history.orphans == s.history.orphans && t.history.crashes >= s.history.crashes
    requires t.records.observations == s.records.observations && t.records.reconciliations == s.records.reconciliations
    requires Pending(s.executions[i].stage) == Pending(t.executions[i].stage) == multiset{}
    requires Ready(t.executions[i].stage)
    ensures Balanced(t)
  {
    hide Reconciled, InFlight;
    Follow(s, t, i);
  }

  lemma ObserveBalances(s: System, i: nat, t: Task, phase: Phase, env: Environment)
    requires Balanced(s) && i < |s.executions| && s.executions[i] == Execution(t, Observing(phase))
    ensures Balanced(ObserveStep(s, i, t, phase, env))
  {
    hide Balanced, Observe, Accepts, ObservationReasons, SortedSet;
    QuietBalances(s, ObserveStep(s, i, t, phase, env), i);
  }

  lemma DeskBalances(hash: Hash, s: System, i: nat, env: Environment)
    requires Balanced(s) && i < |s.executions|
    requires var stage := s.executions[i].stage; !stage.Observing? && !stage.Accepting? && !stage.Concluding?
    ensures Balanced(Advance(hash, s, i, env))
  {
    hide Balanced, Resolve, Changed, DecisionFor, BindingEffectId, RequestOf, AfterApply, OutcomeOf, Presentable,
         RefusalReasons, HasAttempt;
    var t := Advance(hash, s, i, env);
    if t != s {
      QuietBalances(s, t, i);
    }
  }

  lemma AdvanceBalances(hash: Hash, s: System, i: nat, env: Environment)
    requires Balanced(s) && i < |s.executions|
    ensures Balanced(Advance(hash, s, i, env))
  {
    hide Balanced, Start, Revalidate, Refuse, Load, ObserveStep, Note, Call;
    var e := s.executions[i];
    match e.stage
    case Observing(phase) => ObserveBalances(s, i, e.task, phase, env);
    case Accepting(phase, o, v) => AcceptBalances(s, Accept(s, i, phase, o, v), i, o, v);
    case Concluding(phase, v) =>
      var t := Conclude(s, i, e.task, phase, v, env);
      if t != s { ConcludeBalances(s, t, i, v); }
    case _ => DeskBalances(hash, s, i, env);
  }

  lemma CrashBalances(s: System, i: nat)
    requires Balanced(s) && i < |s.executions|
    ensures Balanced(Stop(s, i))
  {
    hide Reconciled, InFlight;
    Follow(s, Stop(s, i), i);
  }

  lemma SpawnBalances(s: System, t: System, task: Task)
    requires Balanced(s) && t == s.(executions := s.executions + [Execution(task, Starting)])
    ensures Balanced(t)
  {
    assert t.executions[..|s.executions|] == s.executions;
    forall o ensures BalancedAt(t, o) {
      assert BalancedAt(s, o);
    }
  }

  lemma StepBalances(hash: Hash, s: System, step: Step)
    requires Balanced(s)
    ensures Balanced(Do(hash, s, step))
  {
    hide Advance, Balanced, Stop;
    match step
    case Move(i, env) => if i < |s.executions| { AdvanceBalances(hash, s, i, env); }
    case Crash(i) => if i < |s.executions| { CrashBalances(s, i); }
    case Spawn(t) => SpawnBalances(s, Do(hash, s, step), t);
  }

  lemma {:induction false} RunBalances(hash: Hash, steps: seq<Step>)
    ensures Balanced(Run(hash, INITIAL, steps))
  {
    hide Do;
    if steps != [] {
      var n := |steps| - 1;
      RunBalances(hash, steps[..n]);
      StepBalances(hash, Run(hash, INITIAL, steps[..n]), steps[n]);
    }
  }

  lemma {:induction false} NothingInFlight(es: seq<Execution>)
    requires forall i | 0 <= i < |es| :: !es[i].stage.Concluding?
    ensures InFlight(es) == multiset{}
  {
    if es != [] {
      NothingInFlight(es[..|es| - 1]);
    }
  }

  /** With nothing in flight, the stored observations are those carried by accepted
      reconciliations, plus at most one for each crash. No run calls anything safe to retry. */
  lemma BooksAgree(hash: Hash, steps: seq<Step>)
    ensures var s := Run(hash, INITIAL, steps);
      && (forall r | r in s.records.reconciliations :: r.result != SafeToRetry && !r.retryEligible)
      && ((forall i | 0 <= i < |s.executions| :: !s.executions[i].stage.Concluding?) ==>
            && multiset(s.records.observations) == Reconciled(s.records.reconciliations) + s.history.orphans
            && |s.history.orphans| <= s.history.crashes)
  {
    hide Run, Reconciled;
    var s := Run(hash, INITIAL, steps);
    RunBalances(hash, steps);
    if forall i | 0 <= i < |s.executions| :: !s.executions[i].stage.Concluding? {
      NothingInFlight(s.executions);
      forall o ensures multiset(s.records.observations)[o]
                       == (Reconciled(s.records.reconciliations) + s.history.orphans)[o]
      {
        assert BalancedAt(s, o);
      }
    }
  }

  /** What an observation concludes is what the ledger held when it was made. */
  lemma ObservationIsTruthful(hash: Hash, steps: seq<Step>, i: nat, env: Environment)
    requires var s := Run(hash, INITIAL, steps);
      i < |s.executions| && s.executions[i].stage.Observing?
    ensures var s := Run(hash, INITIAL, steps);
      var id := EffectIdOf(s.executions[i].task);
      var next := Advance(hash, s, i, env).executions[i].stage;
      && (next.Accepting? || next.Concluding?)
      && (next.verdict.result == ReconciliationResult.Applied ==>
            id in s.ledger.effects && s.ledger.effects[id].state == EffectState.Applied)
      && (next.verdict.result == ObservedAbsent ==> id !in s.ledger.effects)
      && (next.Accepting? <==> next.verdict.accepted)
  {
    hide Run, Judged, Resolve;
    var s := Run(hash, INITIAL, steps);
    RunIsSafe(hash, steps);
    var t := s.executions[i].task;
    ResultAgreesWithLedger(t.config.observationPolicy, EffectIdOf(t), s.ledger, EvaluatedAt(t), env.clock);
  }
}
