/** The life of every attempt identifier in the store. */
module AttemptHistory {
  import opened Text
  import opened Commitments
  import opened Authority
  import opened Resolution
  import opened Destination
  import opened RunRecords
  import opened Reconciliations
  import opened ChangedInputs
  import opened Workflow
  import opened WorkflowSafety

  /** The stored entries under one attempt id, oldest first. */
  ghost function Entries(attempts: seq<Attempt>, id: string): seq<Attempt> {
    if attempts == [] then [] else
      var n := |attempts| - 1;
      Entries(attempts[..n], id) + (if attempts[n].attemptId == id then [attempts[n]] else [])
  }

  ghost predicate Open(a: Attempt) {
    a.status == Attempted && a.acknowledgement == NoAcknowledgement
  }

  ghost predicate Closes(b: Attempt, a: Attempt) {
    && Open(a) && b.status != Attempted && b.acknowledgement != ReconciledExisting
    && b.attemptId == a.attemptId && b.effectId == a.effectId && b.decisionId == a.decisionId
    && b.startedAt == a.startedAt
  }

  ghost predicate Existing(a: Attempt) {
    a.acknowledgement == ReconciledExisting && (a.status == Acknowledged || a.status == PartlyDone)
  }

  /** Nothing yet, an open attempt, an attempt and its one outcome, or an effect found in place. */
  ghost predicate Wellformed(h: seq<Attempt>) {
    || h == []
    || (|h| == 1 && Open(h[0]))
    || (|h| == 2 && Closes(h[1], h[0]))
    || (|h| == 1 && Existing(h[0]))
  }

  /** The entry names an authorized decision of this store, and its effect. */
  ghost predicate Named(rs: Records, a: Attempt) {
    exists d | d in rs.decisions ::
      d.decisionId == a.decisionId && d.effectId == a.effectId && d.result == DecisionResult.Authorized
  }

  predicate Carrying(stage: Stage) {
    stage.NotingExisting? || stage.NotingAttempt? || stage.Calling? || stage.NotingOutcome?
  }

  /** What the store holds of the attempt an execution carries. */
  ghost predicate InStep(s: System, i: nat)
    requires i < |s.executions|
  {
    var e := s.executions[i];
    && (Carrying(e.stage) ==>
          e.task.Execute? && e.stage.attempt.attemptId in s.issued && Named(s.records, e.stage.attempt))
    && (e.stage.NotingExisting? ==>
          Existing(e.stage.attempt) && Entries(s.records.attempts, e.stage.attempt.attemptId) == [])
    && (e.stage.NotingAttempt? ==>
          Open(e.stage.attempt) && Entries(s.records.attempts, e.stage.attempt.attemptId) == [])
    && (e.stage.Calling? ==>
          Open(e.stage.attempt) && Entries(s.records.attempts, e.stage.attempt.attemptId) == [e.stage.attempt])
    && (e.stage.NotingOutcome? ==>
          && |Entries(s.records.attempts, e.stage.attempt.attemptId)| == 1
          && Closes(e.stage.attempt, Entries(s.records.attempts, e.stage.attempt.attemptId)[0]))
    && (e.stage.Concluding? && e.stage.phase.Before? ==> e.task.Execute?)
    && (e.stage.Accepting? && e.stage.phase.Before? ==> e.task.Execute?)
    && (e.stage.Observing? && e.stage.phase.Before? ==> e.task.Execute?)
  }

  /** No two executions carry one attempt id. */
  ghost predicate Apart(s: System) {
    forall i, j | 0 <= i < j < |s.executions| && Carrying(s.executions[i].stage) && Carrying(s.executions[j].stage) ::
      s.executions[i].stage.attempt.attemptId != s.executions[j].stage.attempt.attemptId
  }

  ghost predicate Storied(s: System) {
    && (forall id: string :: Wellformed(Entries(s.records.attempts, id)))
    && (forall a | a in s.records.attempts :: a.attemptId in s.issued && Named(s.records, a))
    && (forall i | 0 <= i < |s.executions| :: InStep(s, i))
    && Apart(s)
  }

  lemma {:induction false} UnissuedHasNoEntries(s: System, attempts: seq<Attempt>, id: string)
    requires forall a | a in attempts :: a.attemptId in s.issued
    requires id !in s.issued
    ensures Entries(attempts, id) == []
  {
    if attempts != [] {
      UnissuedHasNoEntries(s, attempts[..|attempts| - 1], id);
    }
  }

  lemma EntriesAppend(attempts: seq<Attempt>, a: Attempt, id: string)
    ensures Entries(attempts + [a], id) == Entries(attempts, id) + (if a.attemptId == id then [a] else [])
  {
    assert (attempts + [a])[..|attempts|] == attempts;
  }

  lemma NamedGrows(r: Records, q: Records, a: Attempt)
    requires Named(r, a) && r.decisions <= q.decisions
    ensures Named(q, a)
  {
    var d :| d in r.decisions && d.decisionId == a.decisionId && d.effectId == a.effectId
             && d.result == DecisionResult.Authorized;
    assert d in q.decisions;
  }

  ghost predicate OnlyAt(s: System, t: System, i: nat) {
    && |t.executions| == |s.executions| && i < |s.executions|
    && t.executions == s.executions[i := t.executions[i]] && t.executions[i].task == s.executions[i].task
    && s.records.decisions <= t.records.decisions && s.issued <= t.issued
  }

  /** A step that records no attempt. */
  lemma QuietStep(s: System, t: System, i: nat)
    requires Storied(s) && OnlyAt(s, t, i) && t.records.attempts == s.records.attempts
    requires InStep(t, i)
    requires Carrying(t.executions[i].stage) ==>
      || t.executions[i].stage.attempt.attemptId !in s.issued
      || (Carrying(s.executions[i].stage)
          && t.executions[i].stage.attempt.attemptId == s.executions[i].stage.attempt.attemptId)
    ensures Storied(t)
  {
    forall a | a in t.records.attempts ensures a.attemptId in t.issued && Named(t.records, a) {
      NamedGrows(s.records, t.records, a);
    }
    forall j | 0 <= j < |t.executions| ensures InStep(t, j) {
      if j != i {
        assert InStep(s, j);
        if Carrying(s.executions[j].stage) {
          NamedGrows(s.records, t.records, s.executions[j].stage.attempt);
        }
      }
    }
    forall j | 0 <= j < |t.executions| && j != i && Carrying(t.executions[j].stage) && Carrying(t.executions[i].stage)
      ensures t.executions[j].stage.attempt.attemptId != t.executions[i].stage.attempt.attemptId
    {
      assert InStep(s, j);
    }
  }

  /** One entry more keeps every history well formed, if it keeps that of its own id so. */
  lemma HistoriesStayWellformed(attempts: seq<Attempt>, a: Attempt)
    requires forall id: string :: Wellformed(Entries(attempts, id))
    requires Wellformed(Entries(attempts, a.attemptId) + [a])
    ensures forall id: string :: Wellformed(Entries(attempts + [a], id))
  {
    hide Wellformed, Entries;
    forall id: string ensures Wellformed(Entries(attempts + [a], id)) {
      EntriesAppend(attempts, a, id);
      assert Wellformed(Entries(attempts, id));
      assert Entries(attempts, id) + [] == Entries(attempts, id);
    }
  }

  lemma RecordedIsWellformed(s: System, i: nat)
    requires i < |s.executions| && Carrying(s.executions[i].stage) && !s.executions[i].stage.Calling? && InStep(s, i)
    ensures var a := s.executions[i].stage.attempt; Wellformed(Entries(s.records.attempts, a.attemptId) + [a])
  {
    hide Entries, Named;
  }

  /** What an execution that carries another attempt can say is as before. */
  lemma OthersInStep(s: System, t: System, i: nat, j: nat, a: Attempt)
    requires Storied(s) && OnlyAt(s, t, i) && i != j && j < |s.executions|
    requires Carrying(s.executions[i].stage) && s.executions[i].stage.attempt == a
    requires t.records == s.records.(attempts := s.records.attempts + [a])
    ensures InStep(t, j)
  {
    hide Entries, Named, Wellformed;
    assert InStep(s, j);
    if Carrying(s.executions[j].stage) {
      var b := s.executions[j].stage.attempt;
      assert b.attemptId != a.attemptId;
      EntriesAppend(s.records.attempts, a, b.attemptId);
      assert Entries(s.records.attempts, b.attemptId) + [] == Entries(s.records.attempts, b.attemptId);
      NamedGrows(s.records, t.records, b);
    }
  }

  lemma RecorderInStep(s: System, t: System, i: nat, a: Attempt)
    requires OnlyAt(s, t, i) && InStep(s, i) && Carrying(s.executions[i].stage) && s.executions[i].stage.attempt == a
    requires t.records == s.records.(attempts := s.records.attempts + [a])
    requires
      if s.executions[i].stage.NotingAttempt? then t.executions[i].stage == Calling(a)
      else t.executions[i].stage.Finished? || t.executions[i].stage == Observing(After)
    ensures InStep(t, i)
  {
    hide Entries, Named;
    EntriesAppend(s.records.attempts, a, a.attemptId);
    NamedGrows(s.records, t.records, a);
  }

  /** Recording the attempt an execution carries. */
  lemma RecordStep(s: System, t: System, i: nat, a: Attempt)
    requires Storied(s) && OnlyAt(s, t, i)
    requires Carrying(s.executions[i].stage) && !s.executions[i].stage.Calling? && s.executions[i].stage.attempt == a
    requires t.records == s.records.(attempts := s.records.attempts + [a]) && t.issued == s.issued
    requires
      if s.executions[i].stage.NotingAttempt? then t.executions[i].stage == Calling(a)
      else t.executions[i].stage.Finished? || t.executions[i].stage == Observing(After)
    ensures Storied(t)
  {
    hide Wellformed, Entries, Named;
    assert InStep(s, i);
    RecordedIsWellformed(s, i);
    HistoriesStayWellformed(s.records.attempts, a);
    assert a.attemptId in s.issued && Named(s.records, a);
    forall b | b in t.records.attempts ensures b.attemptId in t.issued && Named(t.records, b) {
      NamedGrows(s.records, t.records, b);
    }
    RecorderInStep(s, t, i, a);
    hide InStep;
    forall j | 0 <= j < |t.executions| ensures InStep(t, j) {
      if j != i { OthersInStep(s, t, i, j, a); }
    }
    RecordingStaysApart(s, t, i);
  }

  lemma RecordingStaysApart(s: System, t: System, i: nat)
    requires Apart(s) && OnlyAt(s, t, i) && Carrying(s.executions[i].stage)
    requires Carrying(t.executions[i].stage) ==> t.executions[i].stage.attempt == s.executions[i].stage.attempt
    ensures Apart(t)
  {}

  lemma PassedIsNamed(hash: Hash, s: System, i: nat, a: Attempt)
    requires Safe(hash, s) && i < |s.executions| && HasPassed(s, i)
    requires s.executions[i].task.Execute?
    requires a.decisionId == s.executions[i].task.decision.decisionId
        && a.effectId == s.executions[i].task.decision.effectId
    ensures Named(s.records, a)
  {
    hide Resolve, BindingEffectId, LedgerIsHistory, CommitFits;
    var k :| 0 <= k < |s.history.passed| && s.history.passed[k].execution == i;
    assert TrulyPassed(hash, s, s.history.passed[k]);
    assert s.executions[i].task.decision in s.records.decisions;
  }

  lemma ConcludeIsStoried(hash: Hash, s: System, i: nat, env: Environment)
    requires Safe(hash, s) && Storied(s) && i < |s.executions| && s.executions[i].stage.Concluding?
    ensures Storied(Advance(hash, s, i, env))
  {
    hide Resolve, BindingEffectId, LedgerIsHistory, CommitFits, TrulyPassed, Wellformed;
    var t := Advance(hash, s, i, env);
    assert InStep(s, i) && Placed(hash, s, i);
    if t != s {
      if Carrying(t.executions[i].stage) {
        var a := t.executions[i].stage.attempt;
        UnissuedHasNoEntries(s, s.records.attempts, a.attemptId);
        PassedIsNamed(hash, s, i, a);
        NamedGrows(s.records, t.records, a);
      }
      QuietStep(s, t, i);
    }
  }

  ghost predicate CallClosed(s: System, t: System, i: nat) {
    && OnlyAt(s, t, i) && t.records == s.records && t.issued == s.issued
    && s.executions[i].stage.Calling? && t.executions[i].stage.NotingOutcome?
    && (Open(s.executions[i].stage.attempt) ==> Closes(t.executions[i].stage.attempt, s.executions[i].stage.attempt))
  }

  lemma CallCloses(hash: Hash, s: System, i: nat, env: Environment)
    requires i < |s.executions| && s.executions[i].stage.Calling?
    ensures CallClosed(s, Advance(hash, s, i, env), i) || Advance(hash, s, i, env) == s
  {
    hide Start, Revalidate, Refuse, Load, ObserveStep, Accept, Conclude, Note, Call;
    if Executing(s.executions[i]) {
      CallingCloses(s, i, s.executions[i].task, s.executions[i].stage.attempt, env);
    }
  }

  lemma CallingCloses(s: System, i: nat, t: Task, a: Attempt, env: Environment)
    requires i < |s.executions| && s.executions[i] == Execution(t, Calling(a)) && Executing(s.executions[i])
    ensures CallClosed(s, Call(s, i, t, a, env), i)
  {
    hide RequestOf, AfterApply, OutcomeOf;
  }

  lemma CallIsStoried(hash: Hash, s: System, i: nat, env: Environment)
    requires Storied(s) && i < |s.executions| && s.executions[i].stage.Calling?
    ensures Storied(Advance(hash, s, i, env))
  {
    hide Advance, Wellformed, Entries;
    var t := Advance(hash, s, i, env);
    CallCloses(hash, s, i, env);
    if t != s {
      assert InStep(s, i);
      NamedGrows(s.records, t.records, s.executions[i].stage.attempt);
      QuietStep(s, t, i);
    }
  }

  lemma NoteIsStoried(hash: Hash, s: System, i: nat, env: Environment)
    requires Storied(s) && i < |s.executions|
    requires Carrying(s.executions[i].stage) && !s.executions[i].stage.Calling?
    ensures Storied(Advance(hash, s, i, env))
  {
    hide Storied, InStep, Named;
    RecordStep(s, Advance(hash, s, i, env), i, s.executions[i].stage.attempt);
  }

  /** Steps that only decide, check and observe. */
  lemma OtherIsStoried(hash: Hash, s: System, i: nat, env: Environment)
    requires Storied(s) && i < |s.executions|
    requires !Carrying(s.executions[i].stage) && !s.executions[i].stage.Concluding?
    ensures Storied(Advance(hash, s, i, env))
  {
    hide Resolve, Changed, Judged, Unavailable, Observe, DecisionFor, BindingEffectId, Wellformed, Entries;
    var t := Advance(hash, s, i, env);
    assert InStep(s, i);
    if t != s {
      assert OnlyAt(s, t, i) && InStep(t, i);
      hide Advance, InStep;
      QuietStep(s, t, i);
    }
  }

  lemma AdvanceIsStoried(hash: Hash, s: System, i: nat, env: Environment)
    requires Safe(hash, s) && Storied(s) && i < |s.executions|
    ensures Storied(Advance(hash, s, i, env))
  {
    hide Advance, Safe, Storied;
    var stage := s.executions[i].stage;
    if stage.Concluding? {
      ConcludeIsStoried(hash, s, i, env);
    } else if stage.Calling? {
      CallIsStoried(hash, s, i, env);
    } else if Carrying(stage) {
      NoteIsStoried(hash, s, i, env);
    } else {
      OtherIsStoried(hash, s, i, env);
    }
  }

  lemma StepIsStoried(hash: Hash, s: System, step: Step)
    requires Safe(hash, s) && Storied(s)
    ensures Storied(Do(hash, s, step))
  {
    hide Advance, Safe, Wellformed;
    var t := Do(hash, s, step);
    match step
    case Move(i, env) => if i < |s.executions| { AdvanceIsStoried(hash, s, i, env); }
    case Crash(i) => if i < |s.executions| { QuietStep(s, t, i); }
    case Spawn(_) =>
      forall j | 0 <= j < |t.executions| ensures InStep(t, j) {
        if j < |s.executions| { assert InStep(s, j); }
      }
  }

  lemma {:induction false} RunIsStoried(hash: Hash, steps: seq<Step>)
    ensures Storied(Run(hash, INITIAL, steps))
  {
    hide Do, Safe;
    if steps == [] {
      assert forall id: string :: Entries([], id) == [];
    } else {
      var n := |steps| - 1;
      RunIsStoried(hash, steps[..n]);
      RunIsSafe(hash, steps[..n]);
      StepIsStoried(hash, Run(hash, INITIAL, steps[..n]), steps[n]);
    }
  }

  lemma {:induction false} EntriesAreStored(attempts: seq<Attempt>, id: string, a: Attempt)
    requires a in Entries(attempts, id)
    ensures a in attempts && a.attemptId == id
  {
    var n := |attempts| - 1;
    if a in Entries(attempts[..n], id) {
      EntriesAreStored(attempts[..n], id, a);
    }
  }

  /** In every reachable store an attempt id has one of four histories, its entries share effect
      and decision, and they name an authorized decision kept in that store. */
  lemma EveryAttemptHasItsHistory(hash: Hash, steps: seq<Step>, id: string)
    ensures var s := Run(hash, INITIAL, steps);
      var h := Entries(s.records.attempts, id);
      && Wellformed(h)
      && (forall a | a in h :: Named(s.records, a))
      && (forall a, b | a in h && b in h :: a.effectId == b.effectId && a.decisionId == b.decisionId)
  {
    hide Run;
    var s := Run(hash, INITIAL, steps);
    var h := Entries(s.records.attempts, id);
    RunIsStoried(hash, steps);
    forall a | a in h ensures Named(s.records, a) {
      EntriesAreStored(s.records.attempts, id, a);
    }
  }
}
