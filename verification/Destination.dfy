/** The local destination: effects stored once each, and a cumulative cap per grant. */
module Destination {
  import opened Text
  import opened CanonicalJson
  import opened Authority

  datatype EffectState = Applied | Partial

  datatype Effect = Effect(
    effectId: string, grantId: string, target: string, amount: nat, unit: string, payload: seq<Field>,
    state: EffectState)

  datatype Ledger = Ledger(effects: map<string, Effect>, counts: map<string, int>)

  /** An effect to apply under a cap. */
  datatype Request = Request(effect: Effect, maxEffects: int)

  datatype Outcome = Duplicate(effect: Effect) | Exhausted | Committed(effect: Effect) | AckLost

  const EMPTY_LEDGER := Ledger(map[], map[])

  function Used(l: Ledger, grantId: string): int {
    if grantId in l.counts then l.counts[grantId] else 0
  }

  predicate Admits(l: Ledger, q: Request) {
    q.effect.effectId !in l.effects && Used(l, q.effect.grantId) < q.maxEffects
  }

  function Commit(l: Ledger, e: Effect): Ledger {
    Ledger(l.effects[e.effectId := e], l.counts[e.grantId := Used(l, e.grantId) + 1])
  }

  function AfterApply(l: Ledger, q: Request): Ledger {
    if Admits(l, q) then Commit(l, q.effect) else l
  }

  function OutcomeOf(l: Ledger, q: Request, loseAck: bool): Outcome {
    if q.effect.effectId in l.effects then Duplicate(l.effects[q.effect.effectId])
    else if !Admits(l, q) then Exhausted
    else if loseAck then AckLost
    else Committed(q.effect)
  }

  ghost function EffectsOf(l: Ledger, grantId: string): set<string> {
    set id | id in l.effects && l.effects[id].grantId == grantId
  }

  /** Effects are stored under their own id and each grant's counter counts its effects. */
  ghost predicate Consistent(l: Ledger) {
    && (forall id | id in l.effects :: l.effects[id].effectId == id)
    && (forall g: string :: Used(l, g) == |EffectsOf(l, g)|)
  }

  /** A new effect raises the count of its own grant by one and of no other. */
  lemma CommitCounts(l: Ledger, e: Effect, g: string)
    requires e.effectId !in l.effects && Used(l, g) == |EffectsOf(l, g)|
    ensures Used(Commit(l, e), g) == |EffectsOf(Commit(l, e), g)|
  {
    var m := Commit(l, e);
    if g == e.grantId {
      assert e.effectId !in EffectsOf(l, g);
      assert EffectsOf(m, g) == EffectsOf(l, g) + {e.effectId};
    } else {
      assert EffectsOf(m, g) == EffectsOf(l, g);
    }
  }

  lemma ApplyKeepsConsistent(l: Ledger, q: Request)
    requires Consistent(l)
    ensures Consistent(AfterApply(l, q))
    ensures forall id | id in l.effects ::
        id in AfterApply(l, q).effects && AfterApply(l, q).effects[id] == l.effects[id]
  {
    if Admits(l, q) {
      forall g: string ensures Used(Commit(l, q.effect), g) == |EffectsOf(Commit(l, q.effect), g)| {
        CommitCounts(l, q.effect, g);
      }
    }
  }

  // ---- observations --------------------------------------------------------

  datatype ObservedTime = Missing | Malformed | Naive | At(time: Time)
  datatype ObservedState = Absent | Applied | Partial | Unknown

  datatype Observation = Observation(
    effectId: string, observedAt: ObservedTime, state: ObservedState, destinationState: Option<Effect>)

  function Observe(l: Ledger, effectId: string, clock: Time): Observation {
    if effectId !in l.effects then Observation(effectId, At(clock), Absent, None)
    else
      var e := l.effects[effectId];
      Observation(effectId, At(clock), if e.state.Partial? then ObservedState.Partial else ObservedState.Applied,
          Some(e))
  }

  /** The durable destination behind its lock: each method is one transaction. */
  class LocalRefundDestination {
    var effects: map<string, Effect>
    var grantEffectCounts: map<string, int>

    ghost function Contents(): Ledger
      reads this
    {
      Ledger(effects, grantEffectCounts)
    }

    constructor ()
      ensures Contents() == EMPTY_LEDGER && Consistent(Contents())
    {
      effects, grantEffectCounts := map[], map[];
      new;
      assert forall g: string :: EffectsOf(Contents(), g) == {};
    }

    method Apply(q: Request, loseAck: bool) returns (outcome: Outcome)
      modifies this
      ensures Contents() == AfterApply(old(Contents()), q)
      ensures outcome == OutcomeOf(old(Contents()), q, loseAck)
      ensures old(Consistent(Contents())) ==> Consistent(Contents())
    {
      var id, grantId := q.effect.effectId, q.effect.grantId;
      if id in effects {
        return Duplicate(effects[id]);
      }
      var used := if grantId in grantEffectCounts then grantEffectCounts[grantId] else 0;
      if used >= q.maxEffects {
        return Exhausted;
      }
      ghost var before := Contents();
      if Consistent(before) {
        ApplyKeepsConsistent(before, q);
      }
      effects := effects[id := q.effect];
      grantEffectCounts := grantEffectCounts[grantId := used + 1];
      if loseAck {
        return AckLost;
      }
      return Committed(q.effect);
    }

    method ObserveEffect(effectId: string, clock: Time) returns (o: Observation)
      ensures o == Observe(Contents(), effectId, clock)
    {
      if effectId !in effects {
        return Observation(effectId, At(clock), Absent, None);
      }
      var e := effects[effectId];
      var state := if e.state.Partial? then ObservedState.Partial else ObservedState.Applied;
      return Observation(effectId, At(clock), state, Some(e));
    }
  }
}
