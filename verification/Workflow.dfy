/** Deciding, executing and reconciling as a machine of single steps. Executions
    interleave freely; each read of authority, each append, observation and call of the
    destination is one step, and an execution may stop for good between any two. */
module Workflow {
  import opened Text
  import opened CanonicalJson
  import opened Commitments
  import opened Authority
  import opened Resolution
  import opened Destination
  import opened RunRecords
  import opened Reconciliations
  import opened ChangedInputs

  // ---- executions ----------------------------------------------------------

  /** What a caller asked for. */
  datatype Task =
    | Decide(config: Config, proposal: Proposal, now: Time)
    | Execute(config: Config, proposal: Proposal, decision: Decision, adapterId: string, now: Time,
              loseAck: bool, partial: bool)
    | Reconcile(config: Config, target: string, at: EvaluationTime)

  /** Why the destination is being observed. */
  datatype Phase = Before(priorAttempt: bool) | After | Alone

  /** The next thing an execution does. */
  datatype Stage =
    | Starting
    | Deciding(decision: Decision)
    | Revalidating
    | Refusing(reasons: seq<string>)
    | Loading
    | Observing(phase: Phase)
    | Accepting(phase: Phase, observation: Observation, verdict: Reconciliation)
    | Concluding(phase: Phase, verdict: Reconciliation)
    | NotingExisting(attempt: Attempt)
    | NotingAttempt(attempt: Attempt)
    | Calling(attempt: Attempt)
    | NotingOutcome(attempt: Attempt)
    | Finished

  datatype Execution = Execution(task: Task, stage: Stage)

  // ---- history kept for the claims, never read by a step --------------------

  /** A revalidation that passed: who ran it, what the resolver answered, and the result. */
  datatype Passed = Passed(execution: nat, view: Resolver, resolved: Resolved)

  /** An effect the destination committed, and the call that committed it. */
  datatype CommitEvent = CommitEvent(execution: nat, request: Request)

  datatype History = History(
    passed: seq<Passed>, calls: seq<nat>, commits: seq<CommitEvent>, crashes: nat, orphans: multiset<Observation>)

  datatype System = System(
    records: Records, ledger: Ledger, executions: seq<Execution>, issued: set<string>, history: History)

  const INITIAL := System(NO_RECORDS, EMPTY_LEDGER, [], {}, History([], [], [], 0, multiset{}))

  // ---- the environment's choices -------------------------------------------

  datatype Fault = NoFault | Raised(error: string, timeout: bool)

  /** What one step meets: the resolver's answers, the clock, a new identifier, a failure. */
  datatype Environment = Environment(view: Resolver, clock: Time, freshId: string, fault: Fault)

  datatype Step = Spawn(task: Task) | Move(execution: nat, environment: Environment) | Crash(execution: nat)

  // ---- one step of one execution -------------------------------------------

  function Place(s: System, i: nat, stage: Stage): System
    requires i < |s.executions|
  {
    s.(executions := s.executions[i := s.executions[i].(stage := stage)])
  }

  function StartDecide(hash: Hash, s: System, i: nat, t: Task, env: Environment): System
    requires i < |s.executions| && t.Decide?
  {
    if env.freshId in s.issued then s else
      var found := Resolve(hash, t.config, env.view, t.proposal, t.now);
      Place(s, i, Deciding(DecisionFor(hash, t.proposal, t.now, env.freshId, found)))
      .(issued := s.issued + {env.freshId})
  }

  function DecisionFor(hash: Hash, p: Proposal, now: Time, id: string, found: Resolved): Decision {
    if found.reasons == [] && found.binding.Some?
    then Decision(id, BindingEffectId(hash, found.binding.value), DecisionResult.Authorized, [], now, found.binding)
    else Decision(id, EffectId(hash, ProposalCommitment(hash, p), None), DecisionResult.Hold, found.reasons, now, None)
  }

  /** The supplied decision is the persisted one, authorized, under the effect id of its binding. */
  predicate Presentable(hash: Hash, decisions: seq<Decision>, d: Decision) {
    && FindDecision(decisions, d.decisionId) == Some(d)
    && d.result == DecisionResult.Authorized && d.binding.Some?
    && d.effectId == BindingEffectId(hash, d.binding.value)
  }

  function Start(hash: Hash, s: System, i: nat, t: Task, env: Environment): System
    requires i < |s.executions|
  {
    match t
    case Decide(_, _, _) => StartDecide(hash, s, i, t, env)
    case Execute(_, _, d, _, _, _, _) =>
      Place(s, i, if Presentable(hash, s.records.decisions, d) then Revalidating else Finished)
    case Reconcile(_, _, _) => Place(s, i, Observing(Alone))
  }

  /** The reasons a refusal carries, none when the revalidation passes. */
  function RefusalReasons(found: Resolved, binding: Option<Binding>): seq<string> {
    if found.reasons != [] then SortedSet(found.reasons)
    else if found.binding != binding then ["authorization_binding_changed"]
    else []
  }

  function Revalidate(hash: Hash, s: System, i: nat, t: Task, env: Environment): System
    requires i < |s.executions| && t.Execute?
  {
    var found := Resolve(hash, t.config, env.view, t.proposal, t.now);
    if RefusalReasons(found, t.decision.binding) != [] then
      Place(s, i, Refusing(RefusalReasons(found, t.decision.binding)))
    else if found.binding.None? || t.adapterId != found.binding.value.adapterId then
      Place(s, i, Finished)
    else
      Place(s, i, Loading).(history := s.history.(passed := s.history.passed + [Passed(i, env.view, found)]))
  }

  function Refuse(hash: Hash, s: System, i: nat, t: Task, reasons: seq<string>, env: Environment): System
    requires i < |s.executions| && t.Execute? && t.decision.binding.Some?
  {
    if env.freshId in s.issued then s else
      var d := t.decision;
      var refusal := Refusal(env.freshId, d.decisionId, d.effectId, t.now, reasons,
        Changed(hash, env.view, t.proposal, d.binding.value));
      Place(s, i, Finished)
      .(records := s.records.(refusals := s.records.refusals + [refusal]), issued := s.issued + {env.freshId})
  }

  function Load(s: System, i: nat, t: Task): System
    requires i < |s.executions| && t.Execute?
  {
    Place(s, i, Observing(Before(HasAttempt(s.records.attempts, t.decision.effectId))))
  }

  function EffectIdOf(t: Task): string {
    match t
    case Decide(_, _, _) => ""
    case Execute(_, _, d, _, _, _, _) => d.effectId
    case Reconcile(_, e, _) => e
  }

  function EvaluatedAt(t: Task): EvaluationTime {
    match t
    case Decide(_, _, now) => Trusted(now)
    case Execute(_, _, _, _, now, _, _) => Trusted(now)
    case Reconcile(_, _, at) => at
  }

  function ObserveStep(s: System, i: nat, t: Task, phase: Phase, env: Environment): System
    requires i < |s.executions|
  {
    var policy, e, at := t.config.observationPolicy, EffectIdOf(t), EvaluatedAt(t);
    if env.fault.Raised? then
      Place(s, i, Concluding(phase, Unavailable(policy, e, env.fault.error, at, env.clock)))
    else
      var o := Observe(s.ledger, e, env.clock);
      var verdict := Judged(policy, e, o, at, env.clock);
      Place(s, i, if verdict.accepted then Accepting(phase, o, verdict) else Concluding(phase, verdict))
  }

  function Accept(s: System, i: nat, phase: Phase, o: Observation, verdict: Reconciliation): System
    requires i < |s.executions|
  {
    Place(s, i, Concluding(phase, verdict))
    .(records := s.records.(observations := s.records.observations + [o]))
  }

  function NewAttempt(t: Task, id: string, status: AttemptStatus, ack: Acknowledgement): Attempt
    requires t.Execute?
  {
    Attempt(id, t.decision.effectId, t.decision.decisionId, t.now, status, ack, None)
  }

  /** Where the first observation of an execution leads. */
  function Onward(t: Task, prior: bool, verdict: Reconciliation, id: string): Stage
    requires t.Execute?
  {
    if verdict.result == ReconciliationResult.Applied then
      NotingExisting(NewAttempt(t, id, Acknowledged, ReconciledExisting))
    else if verdict.accepted && verdict.observation.Some? && verdict.observation.value.state.Partial? then
      NotingExisting(NewAttempt(t, id, PartlyDone, ReconciledExisting))
    else if verdict.result != ObservedAbsent || prior then Finished
    else NotingAttempt(NewAttempt(t, id, Attempted, NoAcknowledgement))
  }

  function Conclude(s: System, i: nat, t: Task, phase: Phase, verdict: Reconciliation, env: Environment): System
    requires i < |s.executions|
  {
    var recorded := s.records.(reconciliations := s.records.reconciliations + [verdict]);
    if phase.Before? && t.Execute? then
      if env.freshId in s.issued then s else
        Place(s, i, Onward(t, phase.priorAttempt, verdict, env.freshId))
        .(records := recorded, issued := s.issued + {env.freshId})
    else Place(s, i, Finished).(records := recorded)
  }

  function Note(s: System, i: nat, a: Attempt, next: Stage): System
    requires i < |s.executions|
  {
    Place(s, i, next).(records := s.records.(attempts := s.records.attempts + [a]))
  }

  function RequestOf(t: Task): Request
    requires t.Execute? && t.decision.binding.Some?
  {
    var b, p := t.decision.binding.value, t.proposal;
    Request(Effect(t.decision.effectId, b.grantId, p.target, p.amount, p.unit, p.payload,
                   if t.partial then EffectState.Partial else EffectState.Applied),
            b.effectiveMaxEffects)
  }

  function Answer(a: Attempt, partial: bool, o: Outcome): Attempt {
    match o
    case Exhausted => a.(status := Failed, error := Some("cumulative grant max_effects exhausted"))
    case AckLost => a.(status := AttemptStatus.Unknown, error := Some("synthetic acknowledgement lost after commit"))
    case _ => a.(status := if partial then PartlyDone else Acknowledged, acknowledgement := Answered(o))
  }

  function Call(s: System, i: nat, t: Task, a: Attempt, env: Environment): System
    requires i < |s.executions| && t.Execute? && t.decision.binding.Some?
  {
    var calls := s.history.calls + [i];
    match env.fault
    case Raised(error, timeout) =>
      Place(s, i, NotingOutcome(a.(status := if timeout then AttemptStatus.Unknown else Failed, error := Some(error))))
      .(history := s.history.(calls := calls))
    case NoFault =>
      var q := RequestOf(t);
      Place(s, i, NotingOutcome(Answer(a, t.partial, OutcomeOf(s.ledger, q, t.loseAck))))
      .(ledger := AfterApply(s.ledger, q),
        history := s.history.(calls := calls,
          commits := if Admits(s.ledger, q) then s.history.commits + [CommitEvent(i, q)] else s.history.commits))
  }

  /** Only an execution has a decision to refuse, load or call for. */
  predicate Executing(e: Execution) {
    e.task.Execute? && e.task.decision.binding.Some?
  }

  function Advance(hash: Hash, s: System, i: nat, env: Environment): System
    requires i < |s.executions|
  {
    var t := s.executions[i].task;
    match s.executions[i].stage
    case Starting => Start(hash, s, i, t, env)
    case Deciding(d) =>
      Place(s, i, Finished).(records := s.records.(decisions := s.records.decisions + [d]))
    case Revalidating => if Executing(s.executions[i]) then Revalidate(hash, s, i, t, env) else s
    case Refusing(reasons) => if Executing(s.executions[i]) then Refuse(hash, s, i, t, reasons, env) else s
    case Loading => if Executing(s.executions[i]) then Load(s, i, t) else s
    case Observing(phase) => ObserveStep(s, i, t, phase, env)
    case Accepting(phase, o, verdict) => Accept(s, i, phase, o, verdict)
    case Concluding(phase, verdict) => Conclude(s, i, t, phase, verdict, env)
    case NotingExisting(a) => Note(s, i, a, Finished)
    case NotingAttempt(a) => Note(s, i, a, Calling(a))
    case Calling(a) => if Executing(s.executions[i]) then Call(s, i, t, a, env) else s
    case NotingOutcome(a) => Note(s, i, a, Observing(After))
    case Finished => s
  }

  /** An observation recorded but not yet reconciled. */
  function Pending(stage: Stage): multiset<Observation> {
    if stage.Concluding? && stage.verdict.accepted && stage.verdict.observation.Some?
    then multiset{stage.verdict.observation.value} else multiset{}
  }

  function Stop(s: System, i: nat): System
    requires i < |s.executions|
  {
    Place(s, i, Finished)
    .(history := s.history.(crashes := s.history.crashes + 1,
                            orphans := s.history.orphans + Pending(s.executions[i].stage)))
  }

  /** A step whose execution does not exist changes nothing. */
  function Do(hash: Hash, s: System, step: Step): System {
    match step
    case Spawn(t) => s.(executions := s.executions + [Execution(t, Starting)])
    case Move(i, env) => if i < |s.executions| then Advance(hash, s, i, env) else s
    case Crash(i) => if i < |s.executions| then Stop(s, i) else s
  }

  function Run(hash: Hash, s: System, steps: seq<Step>): System {
    if steps == [] then s else Do(hash, Run(hash, s, steps[..|steps| - 1]), steps[|steps| - 1])
  }

  lemma {:induction false} RunConcat(hash: Hash, s: System, a: seq<Step>, b: seq<Step>)
    ensures Run(hash, s, a + b) == Run(hash, Run(hash, s, a), b)
  {
    if b == [] {
      assert a + b == a;
    } else {
      var n := |b| - 1;
      RunConcat(hash, s, a, b[..n]);
      assert (a + b)[..|a + b| - 1] == a + b[..n];
      assert (a + b)[|a + b| - 1] == b[n];
    }
  }
}
