/** Accepting or refusing one destination observation. */
module Reconciliations {
  import opened Text
  import opened Authority
  import opened Destination
  import opened Reasons
  import opened RunRecords

  /** The time an observation is judged at: absent, without a zone, or trusted. */
  datatype EvaluationTime = NoTime | NoZone | Trusted(time: Time)

  function TimeReasons(now: EvaluationTime): seq<string> {
    match now
    case NoTime => ["evaluation_time_missing"]
    case NoZone => ["evaluation_time_timezone_missing"]
    case Trusted(_) => []
  }

  function AgeReasons(policy: Option<ObservationPolicy>, at: ObservedTime, now: EvaluationTime): seq<string> {
    match at
    case Missing => ["observation_time_missing"]
    case Malformed => ["observation_time_malformed"]
    case Naive => ["observation_time_timezone_missing"]
    case At(t) =>
      if policy.None? || !now.Trusted? then []
      else if t > now.time + policy.value.clockTolerance then ["observation_time_future"]
      else When(now.time - t > policy.value.maxAge, "observation_stale")
  }

  function StateReasons(effectId: string, o: Observation): seq<string> {
    match o.state
    case Applied => ClaimReasons(effectId, o, EffectState.Applied)
    case Partial => ClaimReasons(effectId, o, EffectState.Partial)
    case Absent => When(o.destinationState.Some?, "absence_has_destination_state")
    case Unknown => ["observation_state_unknown"]
  }

  function ClaimReasons(effectId: string, o: Observation, claimed: EffectState): seq<string> {
    When(o.destinationState.None? || o.destinationState.value.effectId != effectId, "destination_effect_id_mismatch")
    + When(o.destinationState.None? || o.destinationState.value.state != claimed, "destination_state_contradiction")
  }

  function ObservationReasons(policy: Option<ObservationPolicy>, effectId: string, o: Observation,
                              now: EvaluationTime): seq<string> {
    TimeReasons(now)
    + When(policy.None?, "observation_policy_missing")
    + When(o.effectId != effectId, "observation_effect_id_mismatch")
    + AgeReasons(policy, o.observedAt, now)
    + StateReasons(effectId, o)
  }

  predicate Accepts(policy: Option<ObservationPolicy>, effectId: string, o: Observation, now: EvaluationTime) {
    ObservationReasons(policy, effectId, o, now) == []
  }

  function ResultOf(accepted: bool, o: Observation): ReconciliationResult {
    if !accepted then OnHold
    else match o.state
      case Applied => ReconciliationResult.Applied
      case Absent => ObservedAbsent
      case _ => OnHold
  }

  function Judged(policy: Option<ObservationPolicy>, effectId: string, o: Observation, now: EvaluationTime,
                  clock: Time): Reconciliation {
    var accepted := Accepts(policy, effectId, o, now);
    Reconciliation(effectId, clock, ResultOf(accepted, o), Some(o), accepted, false,
      SortedSet(ObservationReasons(policy, effectId, o, now)),
      if now.Trusted? then Some(now.time) else None,
      if policy.Some? then Some(policy.value.maxAge) else None,
      if policy.Some? then Some(policy.value.clockTolerance) else None)
  }

  /** The time to judge at, if it can be trusted; otherwise the reason it cannot. */
  method TrustedTime(now: EvaluationTime) returns (time: Option<Time>, reasons: seq<string>)
    ensures reasons == TimeReasons(now)
    ensures time == if now.Trusted? then Some(now.time) else None
  {
    match now
    case NoTime => time, reasons := None, ["evaluation_time_missing"];
    case NoZone => time, reasons := None, ["evaluation_time_timezone_missing"];
    case Trusted(t) => time, reasons := Some(t), [];
  }

  method JudgeAge(policy: Option<ObservationPolicy>, at: ObservedTime, now: EvaluationTime)
      returns (reasons: seq<string>)
    ensures reasons == AgeReasons(policy, at, now)
  {
    reasons := [];
    match at
    case Missing => reasons := ["observation_time_missing"];
    case Malformed => reasons := ["observation_time_malformed"];
    case Naive => reasons := ["observation_time_timezone_missing"];
    case At(t) =>
      if policy.Some? && now.Trusted? {
        if t > now.time + policy.value.clockTolerance {
          reasons := ["observation_time_future"];
        } else if now.time - t > policy.value.maxAge {
          reasons := ["observation_stale"];
        }
      }
  }

  method JudgeState(effectId: string, o: Observation) returns (reasons: seq<string>)
    ensures reasons == StateReasons(effectId, o)
  {
    reasons := [];
    match o.state
    case Absent => if o.destinationState.Some? { reasons := ["absence_has_destination_state"]; }
    case Unknown => reasons := ["observation_state_unknown"];
    case _ =>
      var claimed := if o.state.Applied? then EffectState.Applied else EffectState.Partial;
      reasons := AppendWhen(reasons, o.destinationState.None? || o.destinationState.value.effectId != effectId,
                            "destination_effect_id_mismatch");
      reasons := AppendWhen(reasons, o.destinationState.None? || o.destinationState.value.state != claimed,
                            "destination_state_contradiction");
  }

  method ReconcileObservation(policy: Option<ObservationPolicy>, effectId: string, o: Observation, now: EvaluationTime,
                              clock: Time)
    returns (verdict: Reconciliation)
    ensures verdict == Judged(policy, effectId, o, now, clock)
  {
    hide When, SortedSet;
    var time, reasons := TrustedTime(now);
    reasons := AppendWhen(reasons, policy.None?, "observation_policy_missing");
    reasons := AppendWhen(reasons, o.effectId != effectId, "observation_effect_id_mismatch");
    var aged := JudgeAge(policy, o.observedAt, now);
    reasons := reasons + aged;
    var shown := JudgeState(effectId, o);
    reasons := reasons + shown;
    var accepted := reasons == [];
    var result := OnHold;
    if accepted && o.state.Applied? { result := ReconciliationResult.Applied; }
    if accepted && o.state.Absent? { result := ObservedAbsent; }
    verdict := Reconciliation(effectId, clock, result, Some(o), accepted, false, SortedSet(reasons), time,
      if policy.Some? then Some(policy.value.maxAge) else None,
      if policy.Some? then Some(policy.value.clockTolerance) else None);
  }

  /** The destination could not be observed. */
  function Unavailable(policy: Option<ObservationPolicy>, effectId: string, error: string, now: EvaluationTime,
                       clock: Time): Reconciliation {
    Reconciliation(effectId, clock, OnHold, None, false, false,
      SortedSet(TimeReasons(now) + When(policy.None?, "observation_policy_missing")
                + ["observation_unavailable:" + error]),
      if now.Trusted? then Some(now.time) else None,
      if policy.Some? then Some(policy.value.maxAge) else None,
      if policy.Some? then Some(policy.value.clockTolerance) else None)
  }

  method ReconcileFailure(policy: Option<ObservationPolicy>, effectId: string, error: string, now: EvaluationTime,
                          clock: Time)
    returns (verdict: Reconciliation)
    ensures verdict == Unavailable(policy, effectId, error, now, clock)
  {
    hide When, SortedSet;
    var time, reasons := TrustedTime(now);
    reasons := AppendWhen(reasons, policy.None?, "observation_policy_missing");
    reasons := reasons + ["observation_unavailable:" + error];
    var maxAge, tolerance: Option<int> := None, None;
    if policy.Some? {
      maxAge, tolerance := Some(policy.value.maxAge), Some(policy.value.clockTolerance);
    }
    verdict := Reconciliation(effectId, clock, OnHold, None, false, false, SortedSet(reasons), time, maxAge, tolerance);
  }

  /** Absence shows nothing; presence shows this effect in the state claimed. */
  ghost predicate Backed(effectId: string, o: Observation) {
    match o.state
    case Absent => o.destinationState.None?
    case Applied => o.destinationState.Some? && o.destinationState.value.effectId == effectId
                    && o.destinationState.value.state == EffectState.Applied
    case Partial => o.destinationState.Some? && o.destinationState.value.effectId == effectId
                    && o.destinationState.value.state == EffectState.Partial
    case Unknown => false
  }

  /** An observation is accepted exactly when a trusted time and a policy are there, the
      observation is about this effect and timely, and its state and its evidence agree. */
  lemma AcceptanceIsExact(policy: Option<ObservationPolicy>, effectId: string, o: Observation, now: EvaluationTime)
    ensures Accepts(policy, effectId, o, now) <==>
      && now.Trusted? && policy.Some? && o.effectId == effectId
      && o.observedAt.At?
      && now.time - policy.value.maxAge <= o.observedAt.time <= now.time + policy.value.clockTolerance
      && Backed(effectId, o)
  {
    var a, b := TimeReasons(now), When(policy.None?, "observation_policy_missing");
    var d, e, f := When(o.effectId != effectId, "observation_effect_id_mismatch"),
      AgeReasons(policy, o.observedAt, now), StateReasons(effectId, o);
    assert |a + b + d + e + f| == |a| + |b| + |d| + |e| + |f|;
  }

  /** Against a consistent ledger, applied and observed_absent say what the ledger held. */
  lemma ResultAgreesWithLedger(policy: Option<ObservationPolicy>, effectId: string, l: Ledger, now: EvaluationTime,
                               clock: Time)
    requires Consistent(l)
    ensures var rec := Judged(policy, effectId, Observe(l, effectId, clock), now, clock);
      && (rec.result == ReconciliationResult.Applied ==>
            effectId in l.effects && l.effects[effectId].state == EffectState.Applied)
      && (rec.result == ObservedAbsent ==> effectId !in l.effects)
      && (rec.accepted && rec.result == OnHold ==>
            effectId in l.effects && l.effects[effectId].state == EffectState.Partial)
      && (rec.accepted <==>
            now.Trusted? && policy.Some?
            && now.time - policy.value.maxAge <= clock <= now.time + policy.value.clockTolerance)
  {
    AcceptanceIsExact(policy, effectId, Observe(l, effectId, clock), now);
  }
}
