/** A run from authority source to claim store: a claim for the refund is issued, and an effect is
    committed under a name nobody issued. */
module RefundClaim {
  import opened Text
  import opened Authority
  import opened Commitments
  import opened Resolution
  import opened ResolutionLaws
  import opened RunRecords
  import opened Claims
  import opened Issuance
  import opened Handoff
  import opened EffectsAndClaims
  import opened RefundExample
  import RefundRuns
  import Inventory

  function RefundOrder(hash: Hash): Order {
    Order(Refund(hash), RefundRuns.Decided(hash, []), NOW, Some("claim"), "", None, None, None, None)
  }

  function RefundSetting(hash: Hash): Setting {
    Setting(hash, CONFIG, [RefundRuns.Decided(hash, [])])
  }

  lemma RefundIsIssuable(hash: Hash)
    ensures Issuable(hash, CONFIG, Source(hash, []), [RefundRuns.Decided(hash, [])], RefundOrder(hash))
  {
    hide Refund, Resolve, BindingEffectId, Issuable, Bound, FindDecision, RefundRuns.Decided;
    RefundRuns.CallerIsBound(hash, []);
    RefundRuns.DecidedIsPresentable(hash, []);
    RefundParts(hash);
    DecidedIsKept(hash);
    IssuableParts(hash, CONFIG, Source(hash, []), [RefundRuns.Decided(hash, [])], RefundOrder(hash));
  }

  lemma RefundParts(hash: Hash)
    ensures ContextOf(Source(hash, []), Refund(hash)) == Some(ContextWith([]))
    ensures Usable(RefundOrder(hash), GrantWith([]))
  {
    hide RefundRuns.Decided, Mapping, CONFIG, Resolve;
  }

  lemma DecidedIsKept(hash: Hash)
    ensures var d := RefundRuns.Decided(hash, []);
      FindDecision([d], d.decisionId) == Some(d) && d.result == DecisionResult.Authorized
  {
    hide RefundRuns.Decided, Source, Refund, CONFIG, Resolve, BindingEffectId;
    RefundRuns.DecidedIsPresentable(hash, []);
  }

  // ---- the run -------------------------------------------------------------

  function Reading(hash: Hash): seq<Step> {
    [Arrive(RefundOrder(hash)), Move(0), Move(0), Move(0)]
  }

  /** The issuer holds a current resolution and snapshot, and no transaction was made. */
  ghost predicate AboutToProvision(hash: Hash, w: World) {
    && |w.issuers| == 1 && w.issuers[0].order == RefundOrder(hash) && w.issuers[0].phase.Viewing?
    && w.resolver == Source(hash, []) && w.transactions == [] && w.issues == []
  }

  lemma RunFour(g: Setting, r: Resolver, a: Step, b: Step, c: Step, d: Step)
    ensures Run(g, r, [a, b, c, d])
         == Do(g, Do(g, Do(g, Do(g, World(r, None, [], [], []), a), b), c), d)
  {
    hide Do;
    assert [a, b, c, d][..3] == [a, b, c] && [a, b, c][..2] == [a, b] && [a, b][..1] == [a] && [a][..0] == [];
    assert Run(g, r, [a]) == Do(g, World(r, None, [], [], []), a);
    assert Run(g, r, [a, b]) == Do(g, Do(g, World(r, None, [], [], []), a), b);
    assert Run(g, r, [a, b, c]) == Do(g, Do(g, Do(g, World(r, None, [], [], []), a), b), c);
  }

  lemma ReadingsAreTaken(hash: Hash)
    ensures AboutToProvision(hash, Run(RefundSetting(hash), Source(hash, []), Reading(hash)))
  {
    hide Resolve, Source, Refund, RefundRuns.Decided, CONFIG, Run, SnapshotOf, Shown, ProvisionStep, BindingEffectId,
        Bound;
    hide FindDecision;
    var g, r, o := RefundSetting(hash), Source(hash, []), RefundOrder(hash);
    RefundRuns.CallerIsBound(hash, []);
    RefundRuns.DecidedIsPresentable(hash, []);
    DecidedIsKept(hash);
    RefundIsIssuable(hash);
    RunFour(g, r, Arrive(o), Move(0), Move(0), Move(0));
  }

  lemma DeliveredFirst(w: World, i: nat, claim: Claim)
    requires i < |w.issuers| && w.transactions == [] && w.issues == []
    ensures var v := Deliver(w, i, claim);
      && |v.issues| == 1 && v.issues[0].claim == claim
      && v.transactions == [Inventory.Provision(claim.claimId, ClaimText(claim))]
  {
    hide ClaimText;
  }

  /** The issuer delivers the claim that the authority source justifies. */
  lemma ProvisionDelivers(hash: Hash, w: World)
    requires AboutToProvision(hash, w) && Coherent(RefundSetting(hash), w)
    ensures Issuable(hash, CONFIG, Source(hash, []), [RefundRuns.Decided(hash, [])], RefundOrder(hash))
    ensures Do(RefundSetting(hash), w, Move(0))
         == Deliver(w, 0, ClaimFor(hash, CONFIG, Source(hash, []), [RefundRuns.Decided(hash, [])], RefundOrder(hash)))
  {
    hide Resolve, Source, Refund, RefundRuns.Decided, CONFIG, Shown, ProjectionsOf, SnapshotOf, ClaimText;
    hide BareClaim, Sealed, Usable, Deliver, FindDecision, Inventory.Run;
    assert Handoff.Current(RefundSetting(hash), w, 0);
    RefundIsIssuable(hash);
    var o, p := w.issuers[0].order, w.issuers[0].phase;
    ShownHasGrant(hash, CONFIG, o.decision.binding.value, p.snapshot, o.now);
    ReadingsMakeTheClaim(RefundSetting(hash), w, 0);
  }

  lemma ClaimIsNamed(hash: Hash)
    requires Issuable(hash, CONFIG, Source(hash, []), [RefundRuns.Decided(hash, [])], RefundOrder(hash))
    ensures ClaimFor(hash, CONFIG, Source(hash, []), [RefundRuns.Decided(hash, [])], RefundOrder(hash)).claimId
        == "claim"
  {
    hide Resolve, Source, Refund, RefundRuns.Decided, CONFIG, ProjectionsOf, OperationJson, ClaimJson, AuthorityJson;
    hide Usable, Shown, FindDecision;
  }

  /** The claim is delivered to a store that holds nothing yet. */
  lemma ClaimIsIssued(hash: Hash, w: World)
    requires AboutToProvision(hash, w) && Coherent(RefundSetting(hash), w)
    ensures var v := Do(RefundSetting(hash), w, Move(0));
      && |v.issues| == 1 && v.issues[0].claim.claimId == "claim"
      && exists body :: v.transactions == [Inventory.Provision("claim", body)]
  {
    hide Do, Deliver, Issuable, ClaimFor, ClaimText, Source, CONFIG, RefundOrder, Coherent;
    ProvisionDelivers(hash, w);
    ClaimIsNamed(hash);
    DeliveredFirst(w, 0, ClaimFor(hash, CONFIG, Source(hash, []), [RefundRuns.Decided(hash, [])], RefundOrder(hash)));
  }

  /** A row for an effect nobody issued a claim for, naming a claim nobody issued, although one
      claim was issued and its authority still holds. */
  lemma UnissuedPairCommits(hash: Hash)
    ensures var g, r := RefundSetting(hash), Source(hash, []);
      var steps := Reading(hash) + [Move(0), Effect("another effect", "another claim")];
      && |Run(g, r, steps).issues| == 1 && "another effect" in Tables(g, r, steps).effects
      && !IsIssued(Run(g, r, steps), "another effect", Tables(g, r, steps).effects["another effect"])
  {
    hide Do, Run, Source, RefundSetting, Reading, Inventory.Run, CommitsNow, Coherent, AboutToProvision,
        Inventory.AllHold;
    hide Refund, CONFIG, RefundOrder;
    var g, r, last := RefundSetting(hash), Source(hash, []), Effect("another effect", "another claim");
    var read := Run(g, r, Reading(hash));
    var w := Do(g, read, Move(0));
    ReadingsAreTaken(hash);
    RunIsCoherent(g, r, Reading(hash));
    ClaimIsIssued(hash, read);
    var body :| w.transactions == [Inventory.Provision("claim", body)];
    FirstClaimHolds("claim", body);
    assert "claim"[0] != "another claim"[0];
    UnissuedCommits(g, w, "another effect", "another claim");
    RunTwo(g, r, Reading(hash), Move(0), last);
  }

  lemma FirstClaimHolds(claimId: string, body: string)
    ensures Inventory.AllHold(Inventory.Run([Inventory.Provision(claimId, body)]).authority)
    ensures Inventory.Run([Inventory.Provision(claimId, body)]).effects == map[]
  {
    hide Inventory.NAMES, Inventory.Expected, Inventory.AllHold;
    var xs := [Inventory.Provision(claimId, body)];
    assert xs[..0] == [] && Inventory.Run(xs) == Inventory.Apply(Inventory.NO_TABLES, xs[0]);
    Inventory.ProvisionedHolds(map[]);
  }

  lemma RunTwo(g: Setting, r: Resolver, steps: seq<Step>, a: Step, b: Step)
    ensures Run(g, r, steps + [a, b]) == Do(g, Do(g, Run(g, r, steps), a), b)
  {
    hide Do;
    assert (steps + [a, b])[..|steps| + 1] == steps + [a] && (steps + [a])[..|steps|] == steps;
    assert Run(g, r, steps + [a]) == Do(g, Run(g, r, steps), a);
  }
}
