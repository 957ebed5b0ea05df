/** The workflow object as it runs alone: its methods take exactly the machine's steps. */
module WorkflowClass {
  import opened Text
  import opened Commitments
  import opened Authority
  import opened Resolution
  import opened ResolutionLaws
  import opened ResolveLoops
  import opened Destination
  import opened RunRecords
  import opened Reconciliations
  import opened ChangedInputs
  import opened Workflow

  /** One execution moving by itself through the given choices of the environment. */
  function Solo(hash: Hash, s: System, i: nat, envs: seq<Environment>): System
    decreases |envs|
  {
    if envs == [] then s else Solo(hash, Do(hash, s, Move(i, envs[0])), i, envs[1..])
  }

  function Moves(i: nat, envs: seq<Environment>): seq<Step> {
    seq(|envs|, k requires 0 <= k < |envs| => Move(i, envs[k]))
  }

  /** Moving alone is a run of the machine. */
  lemma {:induction false} SoloIsRun(hash: Hash, s: System, i: nat, envs: seq<Environment>)
    ensures Solo(hash, s, i, envs) == Run(hash, s, Moves(i, envs))
    decreases |envs|
  {
    hide Do;
    if envs != [] {
      var first, rest := [Move(i, envs[0])], Moves(i, envs[1..]);
      assert Moves(i, envs) == first + rest;
      RunConcat(hash, s, first, rest);
      assert first[..0] == [] && Run(hash, s, []) == s;
      assert Run(hash, s, first) == Do(hash, s, Move(i, envs[0]));
      SoloIsRun(hash, Do(hash, s, Move(i, envs[0])), i, envs[1..]);
    }
  }

  lemma {:induction false} FinishedStays(hash: Hash, s: System, i: nat, envs: seq<Environment>)
    requires i < |s.executions| && s.executions[i].stage.Finished?
    ensures Solo(hash, s, i, envs) == s
    decreases |envs|
  {
    if envs != [] {
      hide Start, Revalidate, Refuse, Load, ObserveStep, Accept, Conclude, Note, Call;
      assert Do(hash, s, Move(i, envs[0])) == s;
      FinishedStays(hash, s, i, envs[1..]);
    }
  }

  /** The identifiers to come are new, and new to each other. */
  ghost predicate FreshIds(issued: set<string>, envs: seq<Environment>) {
    && (forall k | 0 <= k < |envs| :: envs[k].freshId !in issued)
    && (forall j, k | 0 <= j < k < |envs| :: envs[j].freshId != envs[k].freshId)
  }

  /** Execution i of task t is at the given stage, with the given durable state. */
  ghost predicate Stands(s: System, i: nat, t: Task, stage: Stage, rs: Records, l: Ledger) {
    i < |s.executions| && s.executions[i] == Execution(t, stage) && s.records == rs && s.ledger == l
  }

  /** One move: where it leaves execution i and the durable state, and what it may have issued. */
  ghost predicate MovesTo(hash: Hash, s: System, i: nat, env: Environment, stage: Stage, rs: Records, l: Ledger) {
    && i < |s.executions|
    && Stands(Do(hash, s, Move(i, env)), i, s.executions[i].task, stage, rs, l)
    && Do(hash, s, Move(i, env)).issued <= s.issued + {env.freshId}
  }

  lemma FreshFirst(issued: set<string>, envs: seq<Environment>)
    requires envs != [] && FreshIds(issued, envs)
    ensures envs[0].freshId !in issued
  {}

  /** The state after the next move, and what remains of the environment's choices. */
  lemma NextMove(hash: Hash, s: System, i: nat, envs: seq<Environment>) returns (n: System)
    requires envs != [] && FreshIds(s.issued, envs) && i < |s.executions|
    requires exists stage, rs, l :: MovesTo(hash, s, i, envs[0], stage, rs, l)
    ensures forall stage, rs, l :: MovesTo(hash, s, i, envs[0], stage, rs, l) ==>
      Stands(n, i, s.executions[i].task, stage, rs, l)
    ensures FreshIds(n.issued, envs[1..])
    ensures Solo(hash, s, i, envs) == Solo(hash, n, i, envs[1..])
  {
    hide Do;
    n := Do(hash, s, Move(i, envs[0]));
  }

  lemma MoveStart(hash: Hash, s: System, i: nat, t: Task, env: Environment)
    requires i < |s.executions| && s.executions[i] == Execution(t, Starting) && t.Execute?
    ensures MovesTo(hash, s, i, env, if Presentable(hash, s.records.decisions, t.decision) then Revalidating
        else Finished,
                    s.records, s.ledger)
  {
    hide Presentable;
  }

  lemma MoveRevalidate(hash: Hash, s: System, i: nat, t: Task, env: Environment, found: Resolved)
    requires i < |s.executions| && s.executions[i] == Execution(t, Revalidating) && Executing(s.executions[i])
    requires found == Resolve(hash, t.config, env.view, t.proposal, t.now)
    ensures MovesTo(hash, s, i, env,
      (if RefusalReasons(found, t.decision.binding) != [] then Refusing(RefusalReasons(found, t.decision.binding))
       else if found.binding.None? || t.adapterId != found.binding.value.adapterId then Finished
       else Loading), s.records, s.ledger)
  {
    hide Resolve, RefusalReasons;
  }

  lemma MoveRefuse(hash: Hash, s: System, i: nat, t: Task, reasons: seq<string>, env: Environment)
    requires i < |s.executions| && s.executions[i] == Execution(t, Refusing(reasons)) && Executing(s.executions[i])
    requires env.freshId !in s.issued
    ensures MovesTo(hash, s, i, env, Finished,
      s.records.(refusals := s.records.refusals
        + [Refusal(env.freshId, t.decision.decisionId, t.decision.effectId, t.now, reasons,
                   Changed(hash, env.view, t.proposal, t.decision.binding.value))]), s.ledger)
  {
    hide Changed;
  }

  lemma MoveLoad(hash: Hash, s: System, i: nat, t: Task, env: Environment)
    requires i < |s.executions| && s.executions[i] == Execution(t, Loading) && Executing(s.executions[i])
    ensures MovesTo(hash, s, i, env, Observing(Before(HasAttempt(s.records.attempts, t.decision.effectId))),
                    s.records, s.ledger)
  {
    hide HasAttempt;
  }

  lemma MoveObserve(hash: Hash, s: System, i: nat, t: Task, phase: Phase, env: Environment, verdict: Reconciliation)
    requires i < |s.executions| && s.executions[i] == Execution(t, Observing(phase))
    requires verdict ==
      if env.fault.Raised?
      then Unavailable(t.config.observationPolicy, EffectIdOf(t), env.fault.error, EvaluatedAt(t), env.clock)
      else Judged(t.config.observationPolicy, EffectIdOf(t), Observe(s.ledger, EffectIdOf(t), env.clock),
                  EvaluatedAt(t), env.clock)
    ensures MovesTo(hash, s, i, env,
      (if env.fault.NoFault? && verdict.accepted
       then Accepting(phase, Observe(s.ledger, EffectIdOf(t), env.clock), verdict)
       else Concluding(phase, verdict)), s.records, s.ledger)
  {
    hide Judged, Unavailable, Observe;
  }

  lemma MoveAccept(hash: Hash, s: System, i: nat, t: Task, phase: Phase, o: Observation, verdict: Reconciliation,
                   env: Environment)
    requires i < |s.executions| && s.executions[i] == Execution(t, Accepting(phase, o, verdict))
    ensures MovesTo(hash, s, i, env, Concluding(phase, verdict),
                    s.records.(observations := s.records.observations + [o]), s.ledger)
  {}

  lemma MoveConclude(hash: Hash, s: System, i: nat, t: Task, phase: Phase, verdict: Reconciliation, env: Environment)
    requires i < |s.executions| && s.executions[i] == Execution(t, Concluding(phase, verdict))
    requires env.freshId !in s.issued
    ensures MovesTo(hash, s, i, env,
      (if phase.Before? && t.Execute? then Onward(t, phase.priorAttempt, verdict, env.freshId) else Finished),
      s.records.(reconciliations := s.records.reconciliations + [verdict]), s.ledger)
  {
    hide Onward;
  }

  lemma MoveNote(hash: Hash, s: System, i: nat, t: Task, a: Attempt, env: Environment)
    requires i < |s.executions| && s.executions[i].task == t
    requires s.executions[i].stage in [NotingExisting(a), NotingAttempt(a), NotingOutcome(a)]
    ensures MovesTo(hash, s, i, env,
      (match s.executions[i].stage
       case NotingExisting(_) => Finished
       case NotingAttempt(_) => Calling(a)
       case _ => Observing(After)),
      s.records.(attempts := s.records.attempts + [a]), s.ledger)
  {
    hide Start, Revalidate, Refuse, Load, ObserveStep, Accept, Conclude, Call;
  }

  /** The attempt after the call. */
  function AfterCall(l: Ledger, t: Task, a: Attempt, fault: Fault): Attempt
    requires t.Execute? && t.decision.binding.Some?
  {
    match fault
    case Raised(error, timeout) => a.(status := if timeout then AttemptStatus.Unknown else Failed, error := Some(error))
    case NoFault => Answer(a, t.partial, OutcomeOf(l, RequestOf(t), t.loseAck))
  }

  lemma MoveCall(hash: Hash, s: System, i: nat, t: Task, a: Attempt, env: Environment)
    requires i < |s.executions| && s.executions[i] == Execution(t, Calling(a)) && Executing(s.executions[i])
    ensures MovesTo(hash, s, i, env, NotingOutcome(AfterCall(s.ledger, t, a, env.fault)), s.records,
                    if env.fault.NoFault? then AfterApply(s.ledger, RequestOf(t)) else s.ledger)
  {
    hide AfterApply, OutcomeOf, RequestOf;
  }

  /** The reasons of a refusal as the code words them. */
  lemma RefusalInWords(found: Resolved, binding: Option<Binding>, words: seq<string>)
    requires binding.Some?
    requires words == if found.reasons == [] && found.binding != binding then ["authorization_binding_changed"]
                      else SortedSet(found.reasons)
    ensures words == RefusalReasons(found, binding)
    ensures words != [] <==> found.reasons != [] || found.binding.None? || found.binding != binding
  {
    if found.reasons != [] { assert found.reasons[0] in SortedSet(found.reasons); }
  }

  datatype Returned = Refused(message: string) | Done(attempt: Attempt, observation: Option<Observation>)

  class BoundedAuthorizationWorkflow {
    const hash: Hash
    const config: Config
    const records: BoundedRecordStore
    const destination: LocalRefundDestination

    constructor (hash: Hash, config: Config, records: BoundedRecordStore, destination: LocalRefundDestination)
      ensures this.hash == hash && this.config == config
      ensures this.records == records && this.destination == destination
    {
      this.hash, this.config, this.records, this.destination := hash, config, records, destination;
    }

    method Decide(p: Proposal, now: Time, env: Environment) returns (d: Decision)
      modifies records
      ensures d == DecisionFor(hash, p, now, env.freshId, Resolve(hash, config, env.view, p, now))
      ensures records.record == old(records.record).(decisions := old(records.record).decisions + [d])
    {
      var reasons, binding := ResolveAuthority(hash, config, env.view, p, now);
      ResolveDecides(hash, config, env.view, p, now);
      hide Resolve;
      if binding.Some? {
        d := Decision(env.freshId, BindingEffectId(hash, binding.value), DecisionResult.Authorized, [], now, binding);
      } else {
        d := Decision(env.freshId, EffectId(hash, ProposalCommitment(hash, p), None), DecisionResult.Hold, reasons, now,
                      None);
      }
      records.AppendDecision(d);
    }

    /** Observe once and record either the accepted observation and its verdict, or the verdict
        alone. The ghost state m moves with the code, to n. */
    method ObserveAndReconcile(t: Task, phase: Phase, envs: seq<Environment>, ghost i: nat, ghost m: System)
      returns (verdict: Reconciliation, id: string, rest: seq<Environment>, ghost n: System)
      requires |envs| >= 3 && FreshIds(m.issued, envs)
      requires Stands(m, i, t, Observing(phase), records.record, destination.Contents())
      requires phase.Before? ==> t.Execute?
      modifies records
      ensures |rest| >= |envs| - 3 && FreshIds(n.issued, rest)
      ensures Solo(hash, m, i, envs) == Solo(hash, n, i, rest)
      ensures Stands(n, i, t, if phase.Before? then Onward(t, phase.priorAttempt, verdict, id) else Finished,
                     records.record, destination.Contents())
      ensures records.record.attempts == old(records.record.attempts)
    {
      hide Judged, Unavailable, Observe, MovesTo, Solo, FreshIds, Onward, Do;
      rest, n := envs, m;
      var env := rest[0];
      var policy, e, at := t.config.observationPolicy, EffectIdOf(t), EvaluatedAt(t);
      if env.fault.Raised? {
        verdict := ReconcileFailure(policy, e, env.fault.error, at, env.clock);
        MoveObserve(hash, n, i, t, phase, env, verdict);
        n := NextMove(hash, n, i, rest);
        rest := rest[1..];
      } else {
        var o := destination.ObserveEffect(e, env.clock);
        verdict := ReconcileObservation(policy, e, o, at, env.clock);
        MoveObserve(hash, n, i, t, phase, env, verdict);
        n := NextMove(hash, n, i, rest);
        rest := rest[1..];
        if verdict.accepted {
          records.AppendObservation(o);
          MoveAccept(hash, n, i, t, phase, o, verdict, rest[0]);
          n := NextMove(hash, n, i, rest);
          rest := rest[1..];
        }
      }
      records.AppendReconciliation(verdict);
      FreshFirst(n.issued, rest);
      id := rest[0].freshId;
      MoveConclude(hash, n, i, t, phase, verdict, rest[0]);
      n := NextMove(hash, n, i, rest);
      rest := rest[1..];
    }

    /** Revalidate, then refuse, or go on to the destination. */
    method Execute(t: Task, envs: seq<Environment>, ghost i: nat, ghost m: System) returns (r: Returned)
      requires t.Execute? && t.config == config
      requires |envs| >= 12 && FreshIds(m.issued, envs)
      requires Stands(m, i, t, Starting, records.record, destination.Contents())
      modifies records, destination
      ensures var n := Solo(hash, m, i, envs);
        Stands(n, i, t, Finished, records.record, destination.Contents())
      ensures r.Refused? ==>
        records.record.attempts == old(records.record.attempts) && destination.Contents() == old(destination.Contents())
      ensures r.Done? ==>
        records.record.attempts != [] && records.record.attempts[|records.record.attempts| - 1] == r.attempt
    {
      hide MovesTo, Solo, FreshIds, Do, Resolve, Changed, RefusalReasons, BindingEffectId, Onward;
      hide ResolutionLaws.Authorized, FindDecision;
      var rest, d := envs, t.decision;
      ghost var n := m;
      var persisted := records.Decision(d.decisionId);
      MoveStart(hash, n, i, t, rest[0]);
      n := NextMove(hash, n, i, rest);
      rest := rest[1..];
      if persisted != Some(d) || d.result != DecisionResult.Authorized || d.binding.None?
         || d.effectId != BindingEffectId(hash, d.binding.value) {
        FinishedStays(hash, n, i, rest);
        return Refused("decision is not the authorized persisted decision");
      }
      var env := rest[0];
      var reasons, current := ResolveAuthority(hash, config, env.view, t.proposal, t.now);
      var found := Resolved(reasons, current);
      MoveRevalidate(hash, n, i, t, env, found);
      n := NextMove(hash, n, i, rest);
      rest := rest[1..];
      var refusal := SortedSet(reasons);
      if refusal == [] && current != d.binding {
        refusal := ["authorization_binding_changed"];
      }
      RefusalInWords(found, d.binding, refusal);
      if reasons != [] || current.None? || current != d.binding {
        env := rest[0];
        var changed := GatherChanged(hash, env.view, t.proposal, d.binding.value);
        records.AppendRefusal(Refusal(env.freshId, d.decisionId, d.effectId, t.now, refusal, changed));
        FreshFirst(n.issued, rest);
        MoveRefuse(hash, n, i, t, refusal, env);
        n := NextMove(hash, n, i, rest);
        FinishedStays(hash, n, i, rest[1..]);
        return Refused("authorization-critical inputs changed before effect");
      }
      if current.None? || t.adapterId != current.value.adapterId {
        FinishedStays(hash, n, i, rest);
        return Refused("adapter substitution detected");
      }
      r := Dispatch(t, rest, i, n);
    }

    /** The part of an execution after its revalidation passed. */
    method Dispatch(t: Task, envs: seq<Environment>, ghost i: nat, ghost m: System) returns (r: Returned)
      requires t.Execute? && t.decision.binding.Some?
      requires |envs| >= 10 && FreshIds(m.issued, envs)
      requires Stands(m, i, t, Loading, records.record, destination.Contents())
      modifies records, destination
      ensures var n := Solo(hash, m, i, envs);
        Stands(n, i, t, Finished, records.record, destination.Contents())
      ensures r.Refused? ==>
        records.record.attempts == old(records.record.attempts) && destination.Contents() == old(destination.Contents())
      ensures r.Done? ==>
        records.record.attempts != [] && records.record.attempts[|records.record.attempts| - 1] == r.attempt
    {
      hide MovesTo, Solo, FreshIds, NewAttempt, Do;
      var rest, d := envs, t.decision;
      ghost var n := m;
      var prior := HasAttempt(records.record.attempts, d.effectId);
      MoveLoad(hash, n, i, t, rest[0]);
      n := NextMove(hash, n, i, rest);
      rest := rest[1..];
      var verdict, id;
      verdict, id, rest, n := ObserveAndReconcile(t, Before(prior), rest, i, n);
      r := Proceed(t, prior, verdict, id, rest, i, n);
    }

    /** The effect is in place already: record an attempt that says so. */
    method NoteExisting(t: Task, a: Attempt, seen: Option<Observation>, envs: seq<Environment>, ghost i: nat,
                        ghost m: System)
      returns (r: Returned)
      requires envs != [] && FreshIds(m.issued, envs)
      requires Stands(m, i, t, NotingExisting(a), records.record, destination.Contents())
      modifies records
      ensures Stands(Solo(hash, m, i, envs), i, t, Finished, records.record, destination.Contents())
      ensures r == Done(a, seen) && records.record.attempts == old(records.record.attempts) + [a]
    {
      hide MovesTo, Solo, FreshIds, Do;
      records.AppendAttempt(a);
      MoveNote(hash, m, i, t, a, envs[0]);
      ghost var n := NextMove(hash, m, i, envs);
      FinishedStays(hash, n, i, envs[1..]);
      r := Done(a, seen);
    }

    /** Where the first observation leads: an effect in place, a refusal, or the destination. */
    method Proceed(t: Task, prior: bool, verdict: Reconciliation, id: string, envs: seq<Environment>, ghost i: nat,
                   ghost m: System)
      returns (r: Returned)
      requires t.Execute? && t.decision.binding.Some?
      requires |envs| >= 6 && FreshIds(m.issued, envs)
      requires Stands(m, i, t, Onward(t, prior, verdict, id), records.record, destination.Contents())
      modifies records, destination
      ensures var n := Solo(hash, m, i, envs);
        Stands(n, i, t, Finished, records.record, destination.Contents())
      ensures r.Refused? ==>
        records.record.attempts == old(records.record.attempts) && destination.Contents() == old(destination.Contents())
      ensures r.Done? ==>
        records.record.attempts != [] && records.record.attempts[|records.record.attempts| - 1] == r.attempt
    {
      hide MovesTo, Solo, FreshIds, Do;
      if verdict.result == ReconciliationResult.Applied
         || (verdict.accepted && verdict.observation.Some? && verdict.observation.value.state.Partial?) {
        var status := if verdict.result == ReconciliationResult.Applied then Acknowledged else PartlyDone;
        var existing := Attempt(id, t.decision.effectId, t.decision.decisionId, t.now, status, ReconciledExisting,
                                None);
        r := NoteExisting(t, existing, verdict.observation, envs, i, m);
        return;
      }
      if verdict.result != ObservedAbsent || prior {
        FinishedStays(hash, m, i, envs);
        return Refused(if verdict.result != ObservedAbsent
          then "destination observation is not valid for effect dispatch"
          else "observed absence does not establish retry eligibility after a prior attempt");
      }
      var attempt := Attempt(id, t.decision.effectId, t.decision.decisionId, t.now, Attempted, NoAcknowledgement, None);
      r := CallDestination(t, attempt, envs, i, m);
    }

    /** Send the frozen proposal under the bound grant and cap, and put the answer on the attempt. */
    method Call(t: Task, attempt: Attempt, fault: Fault) returns (outcome: Attempt)
      requires t.Execute? && t.decision.binding.Some?
      modifies destination
      ensures outcome == AfterCall(old(destination.Contents()), t, attempt, fault)
      ensures destination.Contents() ==
        if fault.NoFault? then AfterApply(old(destination.Contents()), RequestOf(t)) else old(destination.Contents())
    {
      hide AfterApply, OutcomeOf;
      match fault {
        case Raised(error, timeout) =>
          outcome := attempt.(status := if timeout then AttemptStatus.Unknown else Failed, error := Some(error));
        case NoFault =>
          var b, p := t.decision.binding.value, t.proposal;
          var state := if t.partial then EffectState.Partial else EffectState.Applied;
          var sent := Effect(t.decision.effectId, b.grantId, p.target, p.amount, p.unit, p.payload, state);
          var ack := destination.Apply(Request(sent, b.effectiveMaxEffects), t.loseAck);
          match ack {
            case Exhausted =>
              outcome := attempt.(status := Failed, error := Some("cumulative grant max_effects exhausted"));
            case AckLost =>
              outcome := attempt.(status := AttemptStatus.Unknown,
                                  error := Some("synthetic acknowledgement lost after commit"));
            case _ =>
              outcome := attempt.(status := if t.partial then PartlyDone else Acknowledged,
                                  acknowledgement := Answered(ack));
          }
      }
    }

    /** Record the attempt, call the destination, record the outcome and look again. */
    method CallDestination(t: Task, attempt: Attempt, envs: seq<Environment>, ghost i: nat, ghost m: System)
      returns (r: Returned)
      requires t.Execute? && t.decision.binding.Some?
      requires |envs| >= 6 && FreshIds(m.issued, envs)
      requires Stands(m, i, t, NotingAttempt(attempt), records.record, destination.Contents())
      modifies records, destination
      ensures var n := Solo(hash, m, i, envs);
        Stands(n, i, t, Finished, records.record, destination.Contents())
      ensures r.Refused? ==>
        records.record.attempts == old(records.record.attempts) && destination.Contents() == old(destination.Contents())
      ensures r.Done? ==>
        records.record.attempts != [] && records.record.attempts[|records.record.attempts| - 1] == r.attempt
    {
      hide MovesTo, Solo, FreshIds, AfterApply, OutcomeOf, RequestOf, AfterCall, Do;
      var rest := envs;
      ghost var n := m;
      records.AppendAttempt(attempt);
      MoveNote(hash, n, i, t, attempt, rest[0]);
      n := NextMove(hash, n, i, rest);
      rest := rest[1..];
      var env := rest[0];
      MoveCall(hash, n, i, t, attempt, env);
      var outcome := Call(t, attempt, env.fault);
      n := NextMove(hash, n, i, rest);
      rest := rest[1..];
      records.AppendAttempt(outcome);
      MoveNote(hash, n, i, t, outcome, rest[0]);
      n := NextMove(hash, n, i, rest);
      rest := rest[1..];
      var verdict, id;
      verdict, id, rest, n := ObserveAndReconcile(t, After, rest, i, n);
      FinishedStays(hash, n, i, rest);
      return Done(outcome, if verdict.accepted then verdict.observation else None);
    }
  }
}
