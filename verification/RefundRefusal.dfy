/** A run from the initial state whose refusal blames an approval that had no part in it. */
module RefundRefusal {
  import opened Text
  import opened Commitments
  import opened Authority
  import opened Resolution
  import opened ResolutionLaws
  import opened Destination
  import opened RunRecords
  import opened ChangedInputs
  import opened Workflow
  import opened RefundExample
  import opened RefundRuns

  const REFS := ["second-look"]

  /** The authority of the refund, but for the grant, which is revoked. */
  function Revoked(hash: Hash): Resolver {
    Source(hash, REFS).(grants := map["grant" := GrantStatus(
      "grant", "1", GrantState.Revoked, NOW, "8", "status", "basis", "house", "refunds", None)])
  }

  lemma RevokedRefuses(hash: Hash)
    ensures RefusalReasons(Resolve(hash, CONFIG, Revoked(hash), Refund(hash), NOW), Some(Bound(hash, REFS))) != []
  {
    hide Resolve, Bound, ManifestAdmits, ContextFits, MappingHolds, Reviewed, IdentityHolds, MandateHolds, InScope;
    hide ConflictsClear, PolicyHolds, RequirementApproved, EvidenceHolds, Mapping;
    assert ContextOf(Revoked(hash), Refund(hash)) == Some(ContextWith(REFS));
    assert !GrantHolds(CONFIG, Revoked(hash), ContextWith(REFS), GrantWith(REFS), Refund(hash), NOW);
    ResolveDecides(hash, CONFIG, Revoked(hash), Refund(hash), NOW);
  }

  /** The withdrawn approval is listed, whatever became of the grant. */
  lemma ApprovalIsBlamed(hash: Hash, b: Binding)
    ensures exists e | e in Changed(hash, Revoked(hash), Refund(hash), b) ::
        e.kind == ApprovalInput && e.id == "second-look"
  {
    hide ApprovalUnchanged, ApprovalText, Mapping, PoliciesJson, GrantEntries, PolicyEntries, EvidenceEntries,
        MappingEntries;
    var r := Revoked(hash);
    assert ContextOf(r, Refund(hash)) == Some(ContextWith(REFS));
    WithdrawnIsListed(hash, r, b);
    assert REFS[..0] == [] && REFS[0] == "second-look";
    var listed := ApprovalEntry(hash, r, "second-look", b);
    assert ApprovalEntries(hash, r, REFS, b) == ApprovalEntries(hash, r, [], b) + listed == listed;
    assert listed[0] in Changed(hash, r, Refund(hash), b);
  }

  // ---- the run -------------------------------------------------------------

  function Deciding(hash: Hash): Environment {
    Environment(Source(hash, REFS), NOW, "decision", NoFault)
  }

  function Revalidating(hash: Hash): Environment {
    Environment(Revoked(hash), NOW, "refusal", NoFault)
  }

  function Presenting(hash: Hash): Task {
    Execute(CONFIG, Refund(hash), Decided(hash, REFS), "ledger", NOW, false, false)
  }

  function DecideThenPresent(hash: Hash): seq<Step> {
    [Spawn(Decide(CONFIG, Refund(hash), NOW)), Move(0, Deciding(hash)), Move(0, Deciding(hash))]
    + [Spawn(Presenting(hash)), Move(1, Revalidating(hash))]
  }

  /** Decided while the grant was active, presented, and about to be revalidated. */
  ghost predicate AtRevalidation(hash: Hash, s: System) {
    && Stands(s, 1, Presenting(hash), Stage.Revalidating)
    && s.records == NO_RECORDS.(decisions := [Decided(hash, REFS)])
    && s.issued == {"decision"}
  }

  lemma PresentedIsChecked(hash: Hash)
    ensures AtRevalidation(hash, Run(hash, INITIAL, DecideThenPresent(hash)))
  {
    hide Refund, CONFIG, Source, Resolve, DecisionFor, NOW, Presentable, Decided;
    hide Revalidate, Refuse, ObserveStep, Accept, Conclude, Note, Call, Load;
    var decide, move := Spawn(Decide(CONFIG, Refund(hash), NOW)), Move(0, Deciding(hash));
    var s := Do(hash, Do(hash, Do(hash, INITIAL, decide), move), move);
    DecidedIsPresentable(hash, REFS);
    DecidedNow(hash);
    assert s.records.decisions == [Decided(hash, REFS)];
    RunThree(hash, INITIAL, decide, move, move);
    RunTwo(hash, s, Spawn(Presenting(hash)), Move(1, Revalidating(hash)));
    RunConcat(hash, INITIAL, [decide, move, move], [Spawn(Presenting(hash)), Move(1, Revalidating(hash))]);
  }

  lemma DecidedNow(hash: Hash)
    ensures Decided(hash, REFS)
      == DecisionFor(hash, Refund(hash), NOW, "decision", Resolve(hash, CONFIG, Source(hash, REFS), Refund(hash), NOW))
  {
    hide Resolve, DecisionFor;
  }

  /** The refusal of this decision, carrying an entry for the approval. */
  ghost predicate Blames(hash: Hash, f: Refusal) {
    && f.decisionId == Decided(hash, REFS).decisionId && f.effectId == Decided(hash, REFS).effectId && f.reasons != []
    && exists e | e in f.changed :: e.kind == ApprovalInput && e.id == "second-look"
  }

  lemma RefusalBlames(hash: Hash, s: System)
    requires AtRevalidation(hash, s)
    ensures var u := Do(hash, Do(hash, s, Move(1, Revalidating(hash))), Move(1, Revalidating(hash)));
      |u.records.refusals| == 1 && Blames(hash, u.records.refusals[0])
  {
    hide Refund, CONFIG, Source, Resolve, Decided, Bound, Changed, RefusalReasons, Revoked;
    hide Start, ObserveStep, Accept, Conclude, Note, Call, Load;
    assert "refusal"[0] == 'r' && "decision"[0] == 'd';
    DecidedIsPresentable(hash, REFS);
    RevokedRefuses(hash);
    ApprovalIsBlamed(hash, Bound(hash, REFS));
  }

  /** From the initial state: a refund is decided, its grant is revoked, and the refusal lists the
      approval as changed, although the approval was the same when the decision was made. */
  lemma RefusalBlamesAnApproval(hash: Hash)
    ensures var s := Run(hash, INITIAL,
        DecideThenPresent(hash) + [Move(1, Revalidating(hash)), Move(1, Revalidating(hash))]);
      |s.records.refusals| == 1 && Blames(hash, s.records.refusals[0])
    ensures Resolve(hash, CONFIG, Source(hash, REFS), Refund(hash), NOW).binding == Decided(hash, REFS).binding
    ensures Decided(hash, REFS).binding == Some(Bound(hash, REFS))
    ensures Revoked(hash).approvals == Source(hash, REFS).approvals
  {
    hide Run, Do, AtRevalidation, Blames, Decided, Resolve, Bound, Refund, CONFIG, DecideThenPresent;
    PresentedIsChecked(hash);
    RefusalBlames(hash, Run(hash, INITIAL, DecideThenPresent(hash)));
    RunTwo(hash, Run(hash, INITIAL, DecideThenPresent(hash)), Move(1, Revalidating(hash)), Move(1, Revalidating(hash)));
    RunConcat(hash, INITIAL, DecideThenPresent(hash), [Move(1, Revalidating(hash)), Move(1, Revalidating(hash))]);
    DecidedIsPresentable(hash, REFS);
    CallerIsBound(hash, REFS);
  }
}
