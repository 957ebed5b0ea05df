/** The records one bounded run keeps, and the store that appends to them. */
module RunRecords {
  import opened Text
  import opened Authority
  import opened Destination

  datatype DecisionResult = Authorized | Hold | Deny

  datatype Decision = Decision(
    decisionId: string, effectId: string, result: DecisionResult, reasons: seq<string>, decidedAt: Time,
    binding: Option<Binding>)

  datatype InputType = GrantInput | PolicyInput | ApprovalInput | EvidenceInput | RoleMappingInput

  datatype ChangedInput = ChangedInput(kind: InputType, id: string, expected: string, observed: string)

  datatype Refusal = Refusal(
    refusalId: string, decisionId: string, effectId: string, recordedAt: Time, reasons: seq<string>,
    changed: seq<ChangedInput>)

  datatype AttemptStatus = Attempted | Acknowledged | Unknown | Failed | PartlyDone

  datatype Acknowledgement = NoAcknowledgement | ReconciledExisting | Answered(outcome: Outcome)

  datatype Attempt = Attempt(
    attemptId: string, effectId: string, decisionId: string, startedAt: Time, status: AttemptStatus,
    acknowledgement: Acknowledgement, error: Option<string>)

  datatype ReconciliationResult = Applied | ObservedAbsent | SafeToRetry | OnHold

  datatype Reconciliation = Reconciliation(
    effectId: string, reconciledAt: Time, result: ReconciliationResult, observation: Option<Observation>,
    accepted: bool, retryEligible: bool, reasons: seq<string>, evaluationTime: Option<Time>,
    maxAge: Option<int>, tolerance: Option<int>)

  datatype Records = Records(
    decisions: seq<Decision>, refusals: seq<Refusal>, attempts: seq<Attempt>,
    observations: seq<Observation>, reconciliations: seq<Reconciliation>)
  {
    /** Nothing recorded is changed or lost on the way to later. */
    ghost predicate PrefixOf(later: Records) {
      && decisions <= later.decisions && refusals <= later.refusals && attempts <= later.attempts
      && observations <= later.observations && reconciliations <= later.reconciliations
    }
  }

  const NO_RECORDS := Records([], [], [], [], [])

  function WithId(ds: seq<Decision>, id: string): (r: seq<Decision>)
    ensures forall d :: d in r <==> d in ds && d.decisionId == id
  {
    if ds == [] then [] else
      var n := |ds| - 1;
      assert ds == ds[..n] + [ds[n]];
      if ds[n].decisionId == id then WithId(ds[..n], id) + [ds[n]] else WithId(ds[..n], id)
  }

  /** The decision stored under id, when there is exactly one. */
  function FindDecision(ds: seq<Decision>, id: string): (r: Option<Decision>)
    ensures r.Some? ==> r.value in ds && r.value.decisionId == id
  {
    var matches := WithId(ds, id);
    if |matches| == 1 then assert matches[0] in matches; Some(matches[0]) else None
  }

  /** Exactly one entry of the list has this decision's id, and it is this decision. */
  ghost predicate Sole(ds: seq<Decision>, d: Decision) {
    exists i | 0 <= i < |ds| :: ds[i] == d && forall j | 0 <= j < |ds| && j != i :: ds[j].decisionId != d.decisionId
  }

  lemma {:induction false} FoundExactlyWhenSole(ds: seq<Decision>, d: Decision)
    ensures FindDecision(ds, d.decisionId) == Some(d) <==> Sole(ds, d)
    ensures WithId(ds, d.decisionId) == [] <==> forall e | e in ds :: e.decisionId != d.decisionId
    ensures WithId(ds, d.decisionId) == [d] <==> Sole(ds, d)
  {
    if ds != [] {
      var n := |ds| - 1;
      FoundExactlyWhenSole(ds[..n], d);
      assert ds == ds[..n] + [ds[n]];
      SoleStep(ds, d);
    }
    assert |WithId(ds, d.decisionId)| == 1 ==> WithId(ds, d.decisionId) == [WithId(ds, d.decisionId)[0]];
  }

  lemma FoundForAll(ds: seq<Decision>, id: string)
    ensures forall d: Decision :: FindDecision(ds, id) == Some(d) <==> d.decisionId == id && Sole(ds, d)
  {
    hide Sole, WithId;
    forall d: Decision ensures FindDecision(ds, id) == Some(d) <==> d.decisionId == id && Sole(ds, d) {
      FoundExactlyWhenSole(ds, d);
    }
  }

  lemma SoleStep(ds: seq<Decision>, d: Decision)
    requires ds != []
    ensures var n := |ds| - 1;
      Sole(ds, d) <==>
        if ds[n].decisionId == d.decisionId then ds[n] == d && forall e | e in ds[..n] :: e.decisionId != d.decisionId
        else Sole(ds[..n], d)
  {
    var n := |ds| - 1;
    forall e | e in ds[..n] ensures exists j | 0 <= j < n :: ds[j] == e {
      var j :| 0 <= j < n && ds[..n][j] == e;
    }
    if ds[n].decisionId != d.decisionId && Sole(ds[..n], d) {
      var i :| 0 <= i < n && ds[..n][i] == d
        && forall j | 0 <= j < n && j != i :: ds[..n][j].decisionId != d.decisionId;
      assert forall j | 0 <= j < n :: ds[..n][j] == ds[j];
    }
    if Sole(ds, d) {
      var i :| 0 <= i < |ds| && ds[i] == d && forall j | 0 <= j < |ds| && j != i :: ds[j].decisionId != d.decisionId;
      if ds[n].decisionId == d.decisionId {
        assert i == n;
      } else {
        assert ds[..n][i] == d;
      }
    } else if ds[n] == d && forall e | e in ds[..n] :: e.decisionId != d.decisionId {
      forall j | 0 <= j < |ds| && j != n ensures ds[j].decisionId != d.decisionId { assert ds[j] in ds[..n]; }
    }
  }

  predicate HasAttempt(attempts: seq<Attempt>, effectId: string) {
    exists a | a in attempts :: a.effectId == effectId
  }

  /** One client of the durable store: every append is one completed transaction. */
  class BoundedRecordStore {
    var record: Records

    constructor ()
      ensures record == NO_RECORDS
    {
      record := NO_RECORDS;
    }

    method Decision(id: string) returns (found: Option<Decision>)
      ensures found == FindDecision(record.decisions, id)
      ensures forall d: Decision :: found == Some(d) <==> d.decisionId == id && Sole(record.decisions, d)
    {
      FoundForAll(record.decisions, id);
      hide Sole;
      var matches: seq<Decision> := [];
      var ds := record.decisions;
      for i := 0 to |ds|
        invariant matches == WithId(ds[..i], id)
      {
        assert ds[..i + 1][..i] == ds[..i];
        if ds[i].decisionId == id {
          matches := matches + [ds[i]];
        }
      }
      assert ds[..|ds|] == ds;
      return if |matches| == 1 then Some(matches[0]) else None;
    }

    method AppendDecision(d: Decision)
      modifies this
      ensures record == old(record).(decisions := old(record).decisions + [d])
    {
      record := record.(decisions := record.decisions + [d]);
    }

    method AppendRefusal(f: Refusal)
      modifies this
      ensures record == old(record).(refusals := old(record).refusals + [f])
    {
      record := record.(refusals := record.refusals + [f]);
    }

    method AppendAttempt(a: Attempt)
      modifies this
      ensures record == old(record).(attempts := old(record).attempts + [a])
    {
      record := record.(attempts := record.attempts + [a]);
    }

    method AppendObservation(o: Observation)
      modifies this
      ensures record == old(record).(observations := old(record).observations + [o])
    {
      record := record.(observations := record.observations + [o]);
    }

    method AppendReconciliation(r: Reconciliation)
      modifies this
      ensures record == old(record).(reconciliations := old(record).reconciliations + [r])
    {
      record := record.(reconciliations := record.reconciliations + [r]);
    }
  }
}
