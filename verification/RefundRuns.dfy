/** Runs from the initial state: an execution that meets no obstacle prepares its attempt in six
    moves, and two that do so at once both call the destination. */
module RefundRuns {
  import opened Text
  import opened Commitments
  import opened Authority
  import opened Resolution
  import opened ResolutionLaws
  import opened Destination
  import opened RunRecords
  import opened Reconciliations
  import opened ChangedInputs
  import opened Workflow
  import opened SingleCall
  import opened RefundExample

  // ---- six moves -----------------------------------------------------------

  /** Nothing stands in the way: the decision is stored, authority resolves to its binding, the
      effect was neither attempted nor stored, and an observation made now is accepted. */
  ghost predicate Clear(hash: Hash, s: System, t: Task, env: Environment) {
    && t.Execute? && Presentable(hash, s.records.decisions, t.decision)
    && Resolve(hash, t.config, env.view, t.proposal, t.now) == Resolved([], t.decision.binding)
    && t.adapterId == t.decision.binding.value.adapterId
    && !HasAttempt(s.records.attempts, t.decision.effectId) && t.decision.effectId !in s.ledger.effects
    && env.fault.NoFault? && env.freshId !in s.issued && t.config.observationPolicy.Some?
    && t.now - t.config.observationPolicy.value.maxAge <= env.clock
         <= t.now + t.config.observationPolicy.value.clockTolerance
  }

  /** What an observation of a missing effect shows. */
  function Nothing(t: Task, env: Environment): Observation {
    Observation(EffectIdOf(t), At(env.clock), Absent, None)
  }

  function Verdict(t: Task, env: Environment): Reconciliation {
    Judged(t.config.observationPolicy, EffectIdOf(t), Nothing(t, env), EvaluatedAt(t), env.clock)
  }

  function Prepared(t: Task, id: string): Stage {
    if t.Execute? then NotingAttempt(NewAttempt(t, id, Attempted, NoAcknowledgement)) else Finished
  }

  ghost predicate Stands(s: System, i: nat, t: Task, stage: Stage) {
    i < |s.executions| && s.executions[i] == Execution(t, stage)
  }

  /** Execution i went on to the stage; neither ledger nor decisions, attempts, calls or commits changed. */
  ghost predicate Went(s: System, t: System, i: nat, stage: Stage) {
    && i < |s.executions| && t.executions == s.executions[i := Execution(s.executions[i].task, stage)]
    && t.ledger == s.ledger && t.records.decisions == s.records.decisions && t.records.attempts == s.records.attempts
    && t.history.calls == s.history.calls && t.history.commits == s.history.commits
  }

  lemma ChecksPass(hash: Hash, s: System, i: nat, t: Task, env: Environment)
    requires Clear(hash, s, t, env)
    ensures var u := Do(hash, s, Move(i, env));
      && (Stands(s, i, t, Starting) ==> Went(s, u, i, Revalidating) && u.issued == s.issued)
      && (Stands(s, i, t, Revalidating) ==> Went(s, u, i, Loading) && u.issued == s.issued)
      && (Stands(s, i, t, Loading) ==> Went(s, u, i, Observing(Before(false))) && u.issued == s.issued)
  {
    hide Resolve, Changed, BindingEffectId, HasAttempt, ObserveStep, Accept, Conclude, Note, Call, Refuse, FindDecision;
  }

  lemma AbsenceIsAccepted(hash: Hash, s: System, t: Task, env: Environment)
    requires Clear(hash, s, t, env)
    ensures Observe(s.ledger, EffectIdOf(t), env.clock) == Nothing(t, env)
    ensures Verdict(t, env).accepted && Verdict(t, env).result == ObservedAbsent
    ensures Verdict(t, env).observation == Some(Nothing(t, env))
    ensures t.Execute? && env.fault.NoFault? && env.freshId !in s.issued
  {
    hide Resolve, BindingEffectId, HasAttempt, FindDecision;
    AcceptanceIsExact(t.config.observationPolicy, EffectIdOf(t), Nothing(t, env), EvaluatedAt(t));
    hide ObservationReasons;
  }

  lemma ObservingMoves(hash: Hash, s: System, i: nat, t: Task, env: Environment)
    requires Clear(hash, s, t, env) && Stands(s, i, t, Observing(Before(false)))
    ensures var u := Do(hash, s, Move(i, env));
      Went(s, u, i, Accepting(Before(false), Nothing(t, env), Verdict(t, env))) && u.issued == s.issued
  {
    hide Clear, Nothing, Observe, Judged, Start, Refuse, Revalidate, Accept, Conclude, Note, Call;
    AbsenceIsAccepted(hash, s, t, env);
  }

  lemma AcceptingMoves(hash: Hash, s: System, i: nat, t: Task, env: Environment, o: Observation, v: Reconciliation)
    requires Stands(s, i, t, Accepting(Before(false), o, v))
    ensures var u := Do(hash, s, Move(i, env));
      Went(s, u, i, Concluding(Before(false), v)) && u.issued == s.issued
  {
    hide Start, Refuse, Revalidate, ObserveStep, Conclude, Note, Call;
  }

  lemma ConcludingMoves(hash: Hash, s: System, i: nat, t: Task, env: Environment)
    requires Clear(hash, s, t, env) && Stands(s, i, t, Concluding(Before(false), Verdict(t, env)))
    ensures var u := Do(hash, s, Move(i, env));
      Went(s, u, i, Prepared(t, env.freshId)) && u.issued == s.issued + {env.freshId}
  {
    hide Clear, Verdict, Start, Refuse, Revalidate, ObserveStep, Accept, Note, Call;
    AbsenceIsAccepted(hash, s, t, env);
  }

  lemma StaysClear(hash: Hash, s: System, u: System, i: nat, t: Task, env: Environment, stage: Stage)
    requires Clear(hash, s, t, env) && Went(s, u, i, stage) && u.issued == s.issued
    ensures Clear(hash, u, t, env)
  {
    hide Resolve, BindingEffectId, HasAttempt, FindDecision;
  }

  lemma WentOn(s: System, u: System, v: System, i: nat, a: Stage, b: Stage)
    requires Went(s, u, i, a) && Went(u, v, i, b)
    ensures Went(s, v, i, b)
  {}

  lemma Standing(s: System, u: System, i: nat, t: Task, a: Stage, b: Stage)
    requires Stands(s, i, t, a) && Went(s, u, i, b)
    ensures Stands(u, i, t, b)
  {}

  /** The checks: three moves from the start to the first observation. */
  lemma ThreeMovesCheck(hash: Hash, s: System, i: nat, t: Task, env: Environment)
    requires Clear(hash, s, t, env) && Stands(s, i, t, Starting)
    ensures var m := Move(i, env);
      var u := Do(hash, Do(hash, Do(hash, s, m), m), m);
      Went(s, u, i, Observing(Before(false))) && u.issued == s.issued
  {
    hide Do, Clear, Stands, Went;
    var m := Move(i, env);
    var a := Do(hash, s, m);
    ChecksPass(hash, s, i, t, env);
    StaysClear(hash, s, a, i, t, env, Revalidating);
    Standing(s, a, i, t, Starting, Revalidating);
    var b := Do(hash, a, m);
    ChecksPass(hash, a, i, t, env);
    StaysClear(hash, a, b, i, t, env, Loading);
    Standing(a, b, i, t, Revalidating, Loading);
    WentOn(s, a, b, i, Revalidating, Loading);
    ChecksPass(hash, b, i, t, env);
    WentOn(s, b, Do(hash, b, m), i, Loading, Observing(Before(false)));
  }

  /** The observation: three more to the attempt. */
  lemma ThreeMovesObserve(hash: Hash, s: System, i: nat, t: Task, env: Environment)
    requires Clear(hash, s, t, env) && Stands(s, i, t, Observing(Before(false)))
    ensures var m := Move(i, env);
      var u := Do(hash, Do(hash, Do(hash, s, m), m), m);
      Went(s, u, i, Prepared(t, env.freshId)) && u.issued == s.issued + {env.freshId}
  {
    hide Do, Clear, Stands, Went, Nothing, Verdict, Prepared;
    var m, o, v := Move(i, env), Nothing(t, env), Verdict(t, env);
    var a := Do(hash, s, m);
    var accepting, concluding := Accepting(Before(false), o, v), Concluding(Before(false), v);
    ObservingMoves(hash, s, i, t, env);
    StaysClear(hash, s, a, i, t, env, accepting);
    Standing(s, a, i, t, Observing(Before(false)), accepting);
    var b := Do(hash, a, m);
    AcceptingMoves(hash, a, i, t, env, o, v);
    StaysClear(hash, a, b, i, t, env, concluding);
    Standing(a, b, i, t, accepting, concluding);
    WentOn(s, a, b, i, accepting, concluding);
    ConcludingMoves(hash, b, i, t, env);
    WentOn(s, b, Do(hash, b, m), i, concluding, Prepared(t, env.freshId));
  }

  /** An execution that nothing stands in the way of has its attempt ready after six moves. */
  lemma SixMovesPrepare(hash: Hash, s: System, i: nat, t: Task, env: Environment)
    requires Clear(hash, s, t, env) && Stands(s, i, t, Starting)
    ensures var m := Move(i, env);
      var u := Run(hash, s, [m, m, m, m, m, m]);
      Went(s, u, i, Prepared(t, env.freshId)) && u.issued == s.issued + {env.freshId}
  {
    hide Do, Clear, Stands, Went, Run, Prepared;
    var m := Move(i, env);
    var u := Do(hash, Do(hash, Do(hash, s, m), m), m);
    ThreeMovesCheck(hash, s, i, t, env);
    StaysClear(hash, s, u, i, t, env, Observing(Before(false)));
    Standing(s, u, i, t, Starting, Observing(Before(false)));
    ThreeMovesObserve(hash, u, i, t, env);
    WentOn(s, u, Do(hash, Do(hash, Do(hash, u, m), m), m), i, Observing(Before(false)), Prepared(t, env.freshId));
    RunThree(hash, s, m, m, m);
    RunThree(hash, u, m, m, m);
    RunConcat(hash, s, [m, m, m], [m, m, m]);
    assert [m, m, m] + [m, m, m] == [m, m, m, m, m, m];
  }

  lemma RunThree(hash: Hash, s: System, a: Step, b: Step, c: Step)
    ensures Run(hash, s, [a, b, c]) == Do(hash, Do(hash, Do(hash, s, a), b), c)
  {
    hide Do;
    assert [a, b, c][..2] == [a, b] && [a, b][..1] == [a] && [a][..0] == [];
    assert Run(hash, s, [a]) == Do(hash, s, a);
    assert Run(hash, s, [a, b]) == Do(hash, Do(hash, s, a), b);
  }

  // ---- the run -------------------------------------------------------------

  function Decided(hash: Hash, refs: seq<string>): Decision {
    DecisionFor(hash, Refund(hash), NOW, "decision", Resolve(hash, CONFIG, Source(hash, refs), Refund(hash), NOW))
  }

  /** Both callers present the one decision; what they may differ in is the partial flag. */
  function Caller(hash: Hash, partial: bool): Task {
    Execute(CONFIG, Refund(hash), Decided(hash, []), "ledger", NOW, false, partial)
  }

  function Meeting(hash: Hash, id: string): Environment {
    Environment(Source(hash, []), NOW, id, NoFault)
  }

  function Opening(hash: Hash): seq<Step> {
    [Spawn(Decide(CONFIG, Refund(hash), NOW)), Move(0, Meeting(hash, "decision")), Move(0, Meeting(hash, "decision")),
     Spawn(Caller(hash, false)), Spawn(Caller(hash, true))]
  }

  function Opened(hash: Hash): System {
    System(NO_RECORDS.(decisions := [Decided(hash, [])]), EMPTY_LEDGER,
      [Execution(Decide(CONFIG, Refund(hash), NOW), Finished),
       Execution(Caller(hash, false), Starting), Execution(Caller(hash, true), Starting)],
      {"decision"}, INITIAL.history)
  }

  lemma OpeningOpens(hash: Hash)
    ensures Run(hash, INITIAL, Opening(hash)) == Opened(hash)
  {
    hide Refund, CONFIG, Source, Caller, Resolve, DecisionFor, NOW;
    hide Revalidate, Refuse, ObserveStep, Accept, Conclude, Note, Call;
    var decide, move := Spawn(Decide(CONFIG, Refund(hash), NOW)), Move(0, Meeting(hash, "decision"));
    var a, b := Spawn(Caller(hash, false)), Spawn(Caller(hash, true));
    var s := Do(hash, Do(hash, Do(hash, INITIAL, decide), move), move);
    RunThree(hash, INITIAL, decide, move, move);
    RunTwo(hash, s, a, b);
    RunConcat(hash, INITIAL, [decide, move, move], [a, b]);
    assert [decide, move, move] + [a, b] == Opening(hash);
  }

  lemma RunTwo(hash: Hash, s: System, a: Step, b: Step)
    ensures Run(hash, s, [a, b]) == Do(hash, Do(hash, s, a), b)
  {
    hide Do;
    assert [a, b][..1] == [a] && [a][..0] == [];
    assert Run(hash, s, [a]) == Do(hash, s, a);
  }

  lemma CallerIsBound(hash: Hash, refs: seq<string>)
    ensures Resolve(hash, CONFIG, Source(hash, refs), Refund(hash), NOW) == Resolved([], Some(Bound(hash, refs)))
    ensures Bound(hash, refs).adapterId == "ledger" && Bound(hash, refs).effectiveMaxEffects >= 1
  {
    hide Resolve, Source, CONFIG, ProposalCommitment, MatchingPermission, FindAction, Declares, Permits, MappingDigest;
    RefundIsAuthorized(hash, refs);
    BindingRecordsProposal(hash, CONFIG, Source(hash, refs), Refund(hash), NOW);
    AuthorizedIsInEveryEnvelope(hash, CONFIG, Source(hash, refs), Refund(hash), NOW);
  }

  lemma DecidedIsPresentable(hash: Hash, refs: seq<string>)
    ensures Presentable(hash, [Decided(hash, refs)], Decided(hash, refs))
    ensures Decided(hash, refs).binding == Some(Bound(hash, refs))
  {
    hide Refund, Source, Resolve, BindingEffectId, CONFIG, Bound, EffectId;
    CallerIsBound(hash, refs);
    var d := Decided(hash, refs);
    assert [d][..0] == [];
    assert WithId([d], d.decisionId) == WithId([], d.decisionId) + [d] == [d];
  }

  /** The decision authorizes, and an execution presenting it meets no obstacle. */
  lemma CallerIsClear(hash: Hash, s: System, partial: bool, id: string)
    requires s.records.decisions == [Decided(hash, [])] && s.records.attempts == [] && s.ledger == EMPTY_LEDGER
    requires id !in s.issued
    ensures Clear(hash, s, Caller(hash, partial), Meeting(hash, id))
  {
    hide Refund, Source, Resolve, Presentable, Bound, Decided, MANIFEST;
    CallerIsBound(hash, []);
    DecidedIsPresentable(hash, []);
  }

  function Six(m: Step): seq<Step> {
    [m, m, m, m, m, m]
  }

  /** Both callers check, observe and conclude before either records its attempt. */
  function Overlapping(hash: Hash): seq<Step> {
    Opening(hash) + Six(Move(1, Meeting(hash, "first"))) + Six(Move(2, Meeting(hash, "second")))
  }

  ghost predicate BothReady(hash: Hash, s: System) {
    && Stands(s, 1, Caller(hash, false), Prepared(Caller(hash, false), "first"))
    && Stands(s, 2, Caller(hash, true), Prepared(Caller(hash, true), "second"))
    && s.ledger == EMPTY_LEDGER && s.records.attempts == [] && s.history.calls == []
  }

  lemma OverlappingIsReady(hash: Hash)
    ensures BothReady(hash, Run(hash, INITIAL, Overlapping(hash)))
  {
    hide Run, Caller, Decided, Opening, Clear, Prepared, Do, Source, Refund, CONFIG;
    var m, n := Move(1, Meeting(hash, "first")), Move(2, Meeting(hash, "second"));
    var s := Opened(hash);
    var t := Run(hash, s, Six(m));
    OpeningOpens(hash);
    assert "first"[0] == 'f' && "second"[0] == 's' && "decision"[0] == 'd';
    CallerIsClear(hash, s, false, "first");
    SixMovesPrepare(hash, s, 1, Caller(hash, false), Meeting(hash, "first"));
    CallerIsClear(hash, t, true, "second");
    SixMovesPrepare(hash, t, 2, Caller(hash, true), Meeting(hash, "second"));
    RunConcat(hash, INITIAL, Opening(hash), Six(m));
    RunConcat(hash, INITIAL, Opening(hash) + Six(m), Six(n));
  }

  /** What the two callers do next: record and call, one after the other. */
  function BothCall(hash: Hash): seq<Step> {
    [Move(1, Meeting(hash, "first")), Move(1, Meeting(hash, "first")),
     Move(2, Meeting(hash, "first")), Move(2, Meeting(hash, "first"))]
  }

  /** From the initial state, an authorized refund is dispatched twice: its two executions both
      read that it was never attempted. */
  lemma AuthorizedRefundIsCalledTwice(hash: Hash)
    ensures Called(Run(hash, INITIAL, Overlapping(hash) + BothCall(hash)), Decided(hash, []).effectId) == 2
    ensures !NoOverlap(Run(hash, INITIAL, Overlapping(hash)), Decided(hash, []).effectId)
    ensures !Serialized(hash, Overlapping(hash) + BothCall(hash), Decided(hash, []).effectId)
  {
    hide Run, Decided, Opening, Overlapping, NoOverlap, Source, Refund, CONFIG, Bound, Presentable;
    var s := Run(hash, INITIAL, Overlapping(hash));
    OverlappingIsReady(hash);
    DecidedIsPresentable(hash, []);
    OverlapCallsTwice(hash, s, 1, 2, Meeting(hash, "first"), Decided(hash, []).effectId);
    RunConcat(hash, INITIAL, Overlapping(hash), BothCall(hash));
    var all := Overlapping(hash) + BothCall(hash);
    assert all[..|Overlapping(hash)|] == Overlapping(hash);
  }

  // ---- what the second call records ----------------------------------------

  /** The attempt a prepared execution notes after calling. */
  function Noted(l: Ledger, t: Task, id: string, env: Environment): Attempt
    requires t.Execute? && t.decision.binding.Some?
  {
    var a := NewAttempt(t, id, Attempted, NoAcknowledgement);
    match env.fault
    case NoFault => Answer(a, t.partial, OutcomeOf(l, RequestOf(t), t.loseAck))
    case Raised(error, timeout) =>
      a.(status := if timeout then AttemptStatus.Unknown else Failed, error := Some(error))
  }

  /** Recorded, called and noted: the ledger after the call and the noted attempt last. */
  ghost predicate CalledAndNoted(s: System, u: System, i: nat, t: Task, id: string, env: Environment) {
    && t.Execute? && t.decision.binding.Some?
    && u.ledger == (if env.fault.NoFault? then AfterApply(s.ledger, RequestOf(t)) else s.ledger)
    && Noted(s.ledger, t, id, env) in u.records.attempts
    && (forall j | 0 <= j < |s.executions| && j != i :: j < |u.executions| && u.executions[j] == s.executions[j])
  }

  lemma ThreeMovesNote(hash: Hash, s: System, i: nat, t: Task, id: string, env: Environment)
    requires Stands(s, i, t, Prepared(t, id)) && t.Execute? && t.decision.binding.Some?
    ensures var m := Move(i, env); CalledAndNoted(s, Run(hash, s, [m, m, m]), i, t, id, env)
  {
    hide Start, Refuse, Revalidate, ObserveStep, Accept, Conclude, Load;
    hide RequestOf, AfterApply, OutcomeOf, NewAttempt, Answer, Run;
    var m := Move(i, env);
    RunThree(hash, s, m, m, m);
  }

  /** The first caller records, calls and notes; then the second does, meeting the fault. */
  function OneThenOther(hash: Hash, fault: Fault): seq<Step> {
    var m, n := Move(1, Meeting(hash, "first")), Move(2, Meeting(hash, "second").(fault := fault));
    [m, m, m] + [n, n, n]
  }

  /** The attempt is stored at the end of the run, about the refund the destination holds in full. */
  ghost predicate Stored(hash: Hash, fault: Fault, a: Attempt) {
    var s := Run(hash, INITIAL, Overlapping(hash) + OneThenOther(hash, fault));
    && a in s.records.attempts && a.effectId == Decided(hash, []).effectId
    && a.effectId in s.ledger.effects && s.ledger.effects[a.effectId].state == EffectState.Applied
  }

  lemma FirstCallApplies(hash: Hash, l: Ledger)
    requires l == AfterApply(EMPTY_LEDGER, RequestOfCaller(hash, false))
    ensures Decided(hash, []).effectId in l.effects
        && l.effects[Decided(hash, []).effectId].state == EffectState.Applied
  {
    hide Source, Refund, CONFIG, Bound, Resolve, BindingEffectId, Decided;
    CallerIsBound(hash, []);
    DecidedIsPresentable(hash, []);
  }

  function RequestOfCaller(hash: Hash, partial: bool): Request {
    DecidedIsPresentable(hash, []);
    RequestOf(Caller(hash, partial))
  }

  lemma SecondIsNoted(hash: Hash, fault: Fault)
    ensures var l := AfterApply(EMPTY_LEDGER, RequestOfCaller(hash, false));
      Stored(hash, fault, NotedByCaller(hash, l, fault))
  {
    hide Source, Refund, CONFIG, Bound, Resolve, Decided, Run, Overlapping, Presentable, RequestOf, AfterApply, Noted;
    var m, n := Move(1, Meeting(hash, "first")), Move(2, Meeting(hash, "second").(fault := fault));
    var s := Run(hash, INITIAL, Overlapping(hash));
    var t := Run(hash, s, [m, m, m]);
    DecidedIsPresentable(hash, []);
    OverlappingIsReady(hash);
    ThreeMovesNote(hash, s, 1, Caller(hash, false), "first", m.environment);
    FirstCallApplies(hash, t.ledger);
    ThreeMovesNote(hash, t, 2, Caller(hash, true), "second", n.environment);
    SecondChangesNothing(hash, t.ledger);
    NotedIsAboutTheRefund(hash, t.ledger, fault);
    RunConcat(hash, s, [m, m, m], [n, n, n]);
    RunConcat(hash, INITIAL, Overlapping(hash), OneThenOther(hash, fault));
  }

  function NotedByCaller(hash: Hash, l: Ledger, fault: Fault): Attempt {
    DecidedIsPresentable(hash, []);
    Noted(l, Caller(hash, true), "second", Meeting(hash, "second").(fault := fault))
  }

  lemma SecondChangesNothing(hash: Hash, l: Ledger)
    requires Decided(hash, []).effectId in l.effects
    ensures AfterApply(l, RequestOfCaller(hash, true)) == l
  {
    hide Source, Refund, CONFIG, Bound, Resolve, Decided;
    DecidedIsPresentable(hash, []);
  }

  lemma NotedIsAboutTheRefund(hash: Hash, l: Ledger, fault: Fault)
    requires Decided(hash, []).effectId in l.effects
    ensures var a := NotedByCaller(hash, l, fault);
      && a.effectId == Decided(hash, []).effectId
      && (fault.NoFault? ==> a.status == PartlyDone)
      && (fault.Raised? && !fault.timeout ==> a.status == Failed)
  {
    hide Source, Refund, CONFIG, Bound, Resolve, Decided;
    DecidedIsPresentable(hash, []);
  }

  /** Where executions overlap, stored attempts mislead: partly done for an effect applied in full,
      and failed for an effect that is there. */
  lemma OverlapMisleads(hash: Hash)
    ensures exists a :: Stored(hash, NoFault, a) && a.status == PartlyDone
    ensures exists a :: Stored(hash, Raised("refused", false), a) && a.status == Failed
  {
    hide Stored, NotedByCaller, Decided;
    var l := AfterApply(EMPTY_LEDGER, RequestOfCaller(hash, false));
    SecondIsNoted(hash, NoFault);
    SecondIsNoted(hash, Raised("refused", false));
    FirstCallApplies(hash, l);
    NotedIsAboutTheRefund(hash, l, NoFault);
    NotedIsAboutTheRefund(hash, l, Raised("refused", false));
  }
}
