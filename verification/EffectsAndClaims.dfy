/** Effect rows and the claim behind them: one claim at most is ever provisioned, and a row is that
    claim's exactly when whoever commits it presents that claim. */
module EffectsAndClaims {
  import opened Text
  import opened Authority
  import opened Claims
  import opened Issuance
  import opened Resolution
  import opened Handoff
  import Inventory

  // ---- one provisioning ----------------------------------------------------

  lemma {:induction false} RowStays(xs: seq<Inventory.Transaction>, j: nat, k: nat, name: string)
    requires j <= k <= |xs| && name in Inventory.Run(xs[..j]).authority
    ensures name in Inventory.Run(xs[..k]).authority
  {
    hide Inventory.Apply;
    if j < k {
      RowStays(xs, j, k - 1, name);
      Inventory.RunNext(xs, k - 1);
      RowsNeverVanish(Inventory.Run(xs[..k - 1]), xs[k - 1]);
    }
  }

  lemma ProvisioningLeavesRows(xs: seq<Inventory.Transaction>, j: nat)
    requires Inventory.Succeeds(xs, j)
    ensures Inventory.NAMES[0] in Inventory.Run(xs[..j + 1]).authority
  {
    hide Inventory.NAMES, Inventory.Expected, Inventory.Run;
    Inventory.RunNext(xs, j);
    NamesAreSome();
    ProvisionedKeeps(Inventory.Run(xs[..j]).authority, Inventory.NAMES);
  }

  lemma NamesAreSome()
    ensures |Inventory.NAMES| > 0 && Inventory.NAMES[0] in Inventory.NAMES
  {}

  /** No second provisioning ever succeeds: the rows of the first are in its way. */
  lemma OneProvisioning(xs: seq<Inventory.Transaction>, j: nat, k: nat)
    requires Inventory.Succeeds(xs, j) && Inventory.Succeeds(xs, k)
    ensures j == k
  {
    hide Inventory.NAMES, Inventory.Run;
    NamesAreSome();
    var first, second := if j < k then j else k, if j < k then k else j;
    if first < second {
      ProvisioningLeavesRows(xs, first);
      RowStays(xs, first + 1, second, Inventory.NAMES[0]);
    }
  }

  /** However many issuers there are, at most one claim is ever provisioned. */
  lemma {:induction false} AtMostOneClaim(g: Setting, r: Resolver, steps: seq<Step>)
    ensures |Run(g, r, steps).issues| <= 1
  {
    hide Do, Coherent, Issuable, ClaimFor, ClaimText, Inventory.Run, Inventory.Provisionable;
    if steps != [] {
      var n := |steps| - 1;
      var w, v := Run(g, r, steps[..n]), Run(g, r, steps);
      AtMostOneClaim(g, r, steps[..n]);
      RunIsCoherent(g, r, steps[..n]);
      RunIsCoherent(g, r, steps);
      StepIsGenuine(g, w, steps[n]);
      DoExtends(g, w, steps[n]);
      if |v.issues| > 1 {
        IssueSucceeded(g, v, 0);
        IssueSucceeded(g, v, 1);
        IssueSucceeded(g, w, 0);
        OneProvisioning(v.transactions, v.issues[0].at, v.issues[1].at);
        assert false;
      }
    }
  }

  lemma IssueSucceeded(g: Setting, w: World, k: nat)
    requires Coherent(g, w) && k < |w.issues|
    ensures Inventory.Succeeds(w.transactions, w.issues[k].at)
  {
    hide Issuable, ClaimFor, ClaimText, Inventory.Run, Inventory.Provisionable;
    assert Genuine(g, w, k);
  }

  // ---- whose claim a row is ------------------------------------------------

  ghost function Tables(g: Setting, r: Resolver, steps: seq<Step>): Inventory.Tables {
    Inventory.Run(Run(g, r, steps).transactions)
  }

  /** An issued claim carries this pair of effect and claim id. */
  ghost predicate IsIssued(w: World, effectId: string, claimId: string) {
    exists j | 0 <= j < |w.issues| :: w.issues[j].claim.effectId == effectId && w.issues[j].claim.claimId == claimId
  }

  /** Every effect row is under an issued claim's effect id and names that claim. */
  ghost predicate RowsAreTheClaims(g: Setting, r: Resolver, steps: seq<Step>) {
    forall e | e in Tables(g, r, steps).effects :: IsIssued(Run(g, r, steps), e, Tables(g, r, steps).effects[e])
  }

  /** The step commits: the rows hold and the effect is new. */
  ghost predicate CommitsNow(t: Inventory.Tables, step: Step) {
    step.Effect? && Inventory.AllHold(t.authority) && step.effectId !in t.effects
  }

  /** Whoever commits presents the pair of a claim issued before. */
  ghost predicate Presenting(g: Setting, r: Resolver, steps: seq<Step>) {
    forall n | 0 <= n < |steps| && CommitsNow(Tables(g, r, steps[..n]), steps[n]) ::
      IsIssued(Run(g, r, steps[..n]), steps[n].effectId, steps[n].claimId)
  }

  /** Rows that hold, like effect rows, mean that a claim was provisioned. */
  lemma HoldingMeansIssued(g: Setting, r: Resolver, steps: seq<Step>)
    ensures Inventory.AllHold(Tables(g, r, steps).authority) ==> |Run(g, r, steps).issues| > 0
    ensures forall e | e in Tables(g, r, steps).effects :: |Run(g, r, steps).issues| > 0
  {
    hide Run, Inventory.Run;
    var w := Run(g, r, steps);
    assert w.transactions[..|w.transactions|] == w.transactions;
    if Inventory.AllHold(Tables(g, r, steps).authority) {
      RowsMeanIssued(g, r, steps, |w.transactions|);
    }
    forall e | e in Tables(g, r, steps).effects ensures |w.issues| > 0 {
      Inventory.EffectsWereDue(w.transactions, e);
      var k: nat :| Inventory.CommittedAt(w.transactions, k, e, Inventory.Run(w.transactions).effects[e]);
      RowsMeanIssued(g, r, steps, k);
    }
  }

  lemma RowsMeanIssued(g: Setting, r: Resolver, steps: seq<Step>, k: nat)
    requires k <= |Run(g, r, steps).transactions|
    requires Inventory.AllHold(Inventory.Run(Run(g, r, steps).transactions[..k]).authority)
    ensures |Run(g, r, steps).issues| > 0
  {
    hide Run, Handoff.Current, Genuine, Inventory.Run, Inventory.Succeeds;
    var w := Run(g, r, steps);
    RunIsCoherent(g, r, steps);
    assert Inventory.RowHolds(Inventory.Run(w.transactions[..k]).authority, Inventory.NAMES[0]);
    RowsCameWithAClaim(w.transactions, k, Inventory.NAMES[0]);
    var p: nat :| p < k && Inventory.Succeeds(w.transactions, p);
  }

  /** The transaction the step sends to the store, if any. */
  ghost predicate Sends(w: World, v: World, step: Step) {
    match step
    case Change(name, state) => v.transactions == w.transactions + [Inventory.Mutate(name, state)]
    case Effect(e, c) => v.transactions == w.transactions + [Inventory.CommitEffect(e, c)]
    case _ =>
      v.transactions == w.transactions || exists c, b :: v.transactions == w.transactions + [Inventory.Provision(c, b)]
  }

  lemma StepSends(g: Setting, w: World, step: Step)
    ensures Sends(w, Do(g, w, step), step)
  {
    hide Resolve, ClaimText, Shown, Sealed, BareClaim, ProjectionsOf, SnapshotOf, Inventory.Run;
    hide Inventory.Provisionable, Presented;
  }

  lemma OneMoreRows(xs: seq<Inventory.Transaction>, x: Inventory.Transaction)
    ensures var t := Inventory.Run(xs);
      Inventory.Run(xs + [x]).effects ==
        if x.CommitEffect? && Inventory.AllHold(t.authority) && x.effectId !in t.effects
        then t.effects[x.effectId := x.claimId] else t.effects
  {
    hide Inventory.Apply, Inventory.AllHold;
    assert (xs + [x])[..|xs|] == xs;
    TransactionRows(Inventory.Run(xs), x);
  }

  /** What a step does to the effect rows. */
  lemma StepRows(g: Setting, w: World, step: Step)
    ensures var t, n := Inventory.Run(w.transactions), Inventory.Run(Do(g, w, step).transactions);
      n.effects == if CommitsNow(t, step) then t.effects[step.effectId := step.claimId] else t.effects
  {
    hide Do, Inventory.Run, Inventory.AllHold;
    var v := Do(g, w, step);
    StepSends(g, w, step);
    if v.transactions != w.transactions {
      OneMoreRows(w.transactions, v.transactions[|w.transactions|]);
    }
  }

  lemma TransactionRows(t: Inventory.Tables, x: Inventory.Transaction)
    ensures Inventory.Apply(t, x).effects ==
      if x.CommitEffect? && Inventory.AllHold(t.authority) && x.effectId !in t.effects
      then t.effects[x.effectId := x.claimId] else t.effects
  {
    hide Inventory.NAMES, Inventory.Expected, Inventory.AllHold, Inventory.Failing;
    Inventory.NoneFailing(t.authority);
  }

  /** Committing never reads the claims, so a row is under the claim that was issued exactly when
      each commit presented it. */
  lemma {:induction false} RowsAreTheClaimsExactly(g: Setting, r: Resolver, steps: seq<Step>)
    ensures RowsAreTheClaims(g, r, steps) <==> Presenting(g, r, steps)
  {
    hide Run, Do, Inventory.Run, CommitsNow;
    if steps == [] {
      NothingYet(g, r);
    } else {
      var n := |steps| - 1;
      RowsAreTheClaimsExactly(g, r, steps[..n]);
      PresentingNext(g, r, steps);
      RowsNext(g, r, steps);
    }
  }

  lemma NothingYet(g: Setting, r: Resolver)
    ensures Tables(g, r, []).effects == map[]
  {}

  lemma PresentingNext(g: Setting, r: Resolver, steps: seq<Step>)
    requires steps != []
    ensures Presenting(g, r, steps) <==> Presenting(g, r, steps[..|steps| - 1]) && LastPresents(g, r, steps)
  {
    hide Run, Tables, CommitsNow, IsIssued;
    var n := |steps| - 1;
    assert forall m | 0 <= m < n :: steps[..n][..m] == steps[..m];
  }

  ghost predicate LastPresents(g: Setting, r: Resolver, steps: seq<Step>)
    requires steps != []
  {
    var n := |steps| - 1;
    CommitsNow(Tables(g, r, steps[..n]), steps[n]) ==>
      IsIssued(Run(g, r, steps[..n]), steps[n].effectId, steps[n].claimId)
  }

  ghost predicate AllIssued(w: World, rows: map<string, string>) {
    forall e | e in rows :: IsIssued(w, e, rows[e])
  }

  lemma OneRowMore(w: World, v: World, rows: map<string, string>, effectId: string, claimId: string)
    requires v.issues == w.issues && effectId !in rows
    ensures AllIssued(v, rows[effectId := claimId]) <==> AllIssued(w, rows) && IsIssued(w, effectId, claimId)
  {
    var more := rows[effectId := claimId];
    if AllIssued(v, more) {
      assert IsIssued(v, effectId, more[effectId]);
      forall e | e in rows ensures IsIssued(w, e, rows[e]) {
        assert IsIssued(v, e, more[e]);
      }
    }
  }

  lemma SameIssues(w: World, v: World, rows: map<string, string>)
    requires v.issues == w.issues
    ensures AllIssued(v, rows) <==> AllIssued(w, rows)
  {
    assert forall e, c :: IsIssued(v, e, c) <==> IsIssued(w, e, c);
  }

  lemma RowsNext(g: Setting, r: Resolver, steps: seq<Step>)
    requires steps != []
    ensures RowsAreTheClaims(g, r, steps) <==> RowsAreTheClaims(g, r, steps[..|steps| - 1]) && LastPresents(g, r, steps)
  {
    hide Do, Inventory.Run, IsIssued;
    var n := |steps| - 1;
    var w, v := Run(g, r, steps[..n]), Run(g, r, steps);
    var rows, step := Tables(g, r, steps[..n]).effects, steps[n];
    DoExtends(g, w, step);
    AtMostOneClaim(g, r, steps);
    HoldingMeansIssued(g, r, steps[..n]);
    StepRows(g, w, step);
    hide Run;
    assert AllIssued(w, rows) <==> RowsAreTheClaims(g, r, steps[..n]);
    assert AllIssued(v, Tables(g, r, steps).effects) <==> RowsAreTheClaims(g, r, steps);
    if |w.issues| > 0 {
      assert v.issues == w.issues;
      if CommitsNow(Tables(g, r, steps[..n]), step) {
        OneRowMore(w, v, rows, step.effectId, step.claimId);
      } else {
        SameIssues(w, v, rows);
      }
    }
  }

  /** Wherever the rows hold, any pair at all commits, issued or not. */
  lemma UnissuedCommits(g: Setting, w: World, effectId: string, claimId: string)
    requires Inventory.AllHold(Inventory.Run(w.transactions).authority)
    requires effectId !in Inventory.Run(w.transactions).effects
    ensures var v := Do(g, w, Effect(effectId, claimId));
      && v.issues == w.issues
      && Inventory.Run(v.transactions).effects == Inventory.Run(w.transactions).effects[effectId := claimId]
  {
    hide Inventory.Run, Inventory.AllHold;
    StepRows(g, w, Effect(effectId, claimId));
  }

  /** While every commit presents an issued claim, there is at most one effect row. */
  lemma OneClaimOneEffect(g: Setting, r: Resolver, steps: seq<Step>)
    requires Presenting(g, r, steps)
    ensures forall a, b | a in Tables(g, r, steps).effects && b in Tables(g, r, steps).effects :: a == b
  {
    hide Run, Tables;
    RowsAreTheClaimsExactly(g, r, steps);
    AtMostOneClaim(g, r, steps);
    forall a, b | a in Tables(g, r, steps).effects && b in Tables(g, r, steps).effects ensures a == b {
      assert IsIssued(Run(g, r, steps), a, Tables(g, r, steps).effects[a]);
      assert IsIssued(Run(g, r, steps), b, Tables(g, r, steps).effects[b]);
    }
  }
}
