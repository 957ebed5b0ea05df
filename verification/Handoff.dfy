/** From authority source to claim store: issuers that resolve, snapshot and provision under the
    handoff lock, writers of authority that the lock keeps out, and the store's transactions. */
module Handoff {
  import opened Text
  import opened CanonicalJson
  import opened Commitments
  import opened Authority
  import opened Resolution
  import opened RunRecords
  import opened Claims
  import opened Issuance
  import Inventory

  /** What one issuer has read so far under the lock. */
  datatype Phase =
    | Waiting
    | Holding
    | Resolving(found: Resolved)
    | Viewing(resolved: Resolved, snapshot: Snapshot)
    | Over(issued: Option<Claim>)

  datatype Issuer = Issuer(order: Order, phase: Phase)

  /** A claim that was provisioned, the resolver's state when it was, and its place in the order. */
  datatype Issue = Issue(order: Order, view: Resolver, claim: Claim, at: nat)

  datatype World = World(
    resolver: Resolver, lock: Option<nat>, issuers: seq<Issuer>, transactions: seq<Inventory.Transaction>,
    issues: seq<Issue>)

  datatype Step =
    | Write(resolver: Resolver)
    | Arrive(order: Order)
    | Move(issuer: nat)
    | Crash(issuer: nat)
    | Change(name: string, state: string)
    | Effect(effectId: string, claimId: string)

  /** Fixed throughout: the hash, the workflow's configuration and its persisted decisions. */
  datatype Setting = Setting(hash: Hash, config: Config, decisions: seq<Decision>)

  predicate Presented(g: Setting, o: Order) {
    && FindDecision(g.decisions, o.decision.decisionId) == Some(o.decision)
    && o.decision.result == DecisionResult.Authorized && o.decision.binding.Some?
  }

  function Place(w: World, i: nat, p: Phase): World
    requires i < |w.issuers|
  {
    w.(issuers := w.issuers[i := w.issuers[i].(phase := p)])
  }

  function Leave(w: World, i: nat, claim: Option<Claim>): World
    requires i < |w.issuers|
  {
    Place(w, i, Over(claim)).(lock := None)
  }

  function ResolveStep(g: Setting, w: World, i: nat): World
    requires i < |w.issuers|
  {
    var o := w.issuers[i].order;
    var found := Resolve(g.hash, g.config, w.resolver, o.proposal, o.now);
    if found.reasons != [] || found.binding.None? || found.binding != o.decision.binding then Leave(w, i, None)
    else Place(w, i, Resolving(found))
  }

  function SnapshotStep(w: World, i: nat, found: Resolved): World
    requires i < |w.issuers|
  {
    var snapshot := SnapshotOf(w.resolver, w.issuers[i].order.proposal.authorityContextRef.GetOr(""));
    if snapshot.None? then Leave(w, i, None) else Place(w, i, Viewing(found, snapshot.value))
  }

  /** Build the claim from what was read and hand it to the store, still under the lock. */
  function ProvisionStep(g: Setting, w: World, i: nat, found: Resolved, s: Snapshot): World
    requires i < |w.issuers|
  {
    var o := w.issuers[i].order;
    if found.binding.None? || !Shown(g.hash, g.config, found.binding.value, s, o.now) || s.context.grant.None?
       || !Usable(o, s.context.grant.value) then Leave(w, i, None)
    else
      var b := found.binding.value;
      var claim := Sealed(g.hash, BareClaim(g.hash, o, b, s, ProjectionsOf(g.hash, g.config, b, s, o.now)));
      Deliver(w, i, claim)
  }

  function Deliver(w: World, i: nat, claim: Claim): World
    requires i < |w.issuers|
  {
    var more := w.transactions + [Inventory.Provision(claim.claimId, ClaimText(claim))];
    if Inventory.Provisionable(Inventory.Run(w.transactions), claim.claimId) then
      Leave(w, i, Some(claim))
      .(transactions := more, issues := w.issues + [Issue(w.issuers[i].order, w.resolver, claim, |w.transactions|)])
    else Leave(w, i, None).(transactions := more)
  }

  function Advance(g: Setting, w: World, i: nat): World
    requires i < |w.issuers|
  {
    match w.issuers[i].phase
    case Waiting =>
      if !Presented(g, w.issuers[i].order) then Place(w, i, Over(None))
      else if w.lock.None? then Place(w, i, Holding).(lock := Some(i))
      else w
    case Holding => ResolveStep(g, w, i)
    case Resolving(found) => SnapshotStep(w, i, found)
    case Viewing(found, s) => ProvisionStep(g, w, i, found, s)
    case Over(_) => w
  }

  /** A writer of authority takes part in the same exclusion, so it waits while the lock is held. */
  function Do(g: Setting, w: World, step: Step): World {
    match step
    case Write(r) => if w.lock.None? then w.(resolver := r) else w
    case Arrive(o) => w.(issuers := w.issuers + [Issuer(o, Waiting)])
    case Move(i) => if i < |w.issuers| then Advance(g, w, i) else w
    case Crash(i) =>
      if i < |w.issuers| && !w.issuers[i].phase.Over? then
        Place(w, i, Over(None)).(lock := if w.lock == Some(i) then None else w.lock)
      else w
    case Change(name, state) => w.(transactions := w.transactions + [Inventory.Mutate(name, state)])
    case Effect(id, claimId) => w.(transactions := w.transactions + [Inventory.CommitEffect(id, claimId)])
  }

  function Run(g: Setting, r: Resolver, steps: seq<Step>): World {
    if steps == [] then World(r, None, [], [], []) else Do(g, Run(g, r, steps[..|steps| - 1]), steps[|steps| - 1])
  }

  // ---- what the lock keeps -------------------------------------------------

  ghost predicate Inside(p: Phase) {
    p.Holding? || p.Resolving? || p.Viewing?
  }

  ghost predicate ResolvesTo(g: Setting, w: World, o: Order, found: Resolved) {
    && Presented(g, o) && found == Resolve(g.hash, g.config, w.resolver, o.proposal, o.now)
    && found.reasons == [] && found.binding == o.decision.binding
  }

  /** What an issuer has read is what the resolver says now. */
  ghost predicate Current(g: Setting, w: World, i: nat)
    requires i < |w.issuers|
  {
    var o, p := w.issuers[i].order, w.issuers[i].phase;
    && (Inside(p) <==> w.lock == Some(i))
    && (Inside(p) ==> Presented(g, o))
    && (p.Resolving? ==> ResolvesTo(g, w, o, p.found))
    && (p.Viewing? ==>
          && ResolvesTo(g, w, o, p.resolved)
          && SnapshotOf(w.resolver, o.proposal.authorityContextRef.GetOr("")) == Some(p.snapshot))
  }

  /** The claim is what one instant of the resolver's state yields. */
  ghost predicate Genuine(g: Setting, w: World, k: nat)
    requires k < |w.issues|
  {
    var e := w.issues[k];
    && Issuable(g.hash, g.config, e.view, g.decisions, e.order)
    && e.claim == ClaimFor(g.hash, g.config, e.view, g.decisions, e.order)
    && Delivered(w, e.at, e.claim)
  }

  ghost predicate Delivered(w: World, at: nat, claim: Claim) {
    && at < |w.transactions| && w.transactions[at] == Inventory.Provision(claim.claimId, ClaimText(claim))
    && Inventory.Provisionable(Inventory.Run(w.transactions[..at]), claim.claimId)
  }

  ghost predicate Coherent(g: Setting, w: World) {
    && (forall i | 0 <= i < |w.issuers| :: Current(g, w, i))
    && (w.lock.Some? ==> w.lock.value < |w.issuers|)
    && (forall k | 0 <= k < |w.issues| :: Genuine(g, w, k))
    && (forall k: nat | Inventory.Succeeds(w.transactions, k) :: exists j | 0 <= j < |w.issues| :: w.issues[j].at == k)
  }

  ghost predicate Extends(w: World, v: World) {
    && w.transactions <= v.transactions && |v.transactions| <= |w.transactions| + 1
    && w.issues <= v.issues && |v.issues| <= |w.issues| + 1
  }

  lemma DoExtends(g: Setting, w: World, step: Step)
    ensures Extends(w, Do(g, w, step))
  {
    hide Resolve, Shown, Sealed, BareClaim, ProjectionsOf, SnapshotOf, ClaimText, Inventory.Run,
        Inventory.Provisionable;
  }

  lemma IssuesKept(g: Setting, w: World, v: World, k: nat)
    requires Coherent(g, w) && Extends(w, v) && k < |w.issues|
    ensures Genuine(g, v, k)
  {
    hide Issuable, ClaimFor, ClaimText, Inventory.Run, Inventory.Provisionable;
    assert Genuine(g, w, k);
    assert v.transactions[..v.issues[k].at] == w.transactions[..v.issues[k].at];
  }

  /** A claim built from current readings is the claim of one instant. */
  lemma ReadingsMakeTheClaim(g: Setting, w: World, i: nat)
    requires i < |w.issuers| && w.issuers[i].phase.Viewing? && Current(g, w, i)
    ensures var o, p := w.issuers[i].order, w.issuers[i].phase;
      && p.resolved.binding.Some?
      && (Shown(g.hash, g.config, p.resolved.binding.value, p.snapshot, o.now) && p.snapshot.context.grant.Some?
          && Usable(o, p.snapshot.context.grant.value) ==>
            && Issuable(g.hash, g.config, w.resolver, g.decisions, o)
            && ClaimFor(g.hash, g.config, w.resolver, g.decisions, o)
                == Sealed(g.hash, BareClaim(g.hash, o, p.resolved.binding.value, p.snapshot,
                                            ProjectionsOf(g.hash, g.config, p.resolved.binding.value, p.snapshot,
                                                o.now))))
  {
    hide Resolve, Shown, Sealed, BareClaim, ProjectionsOf, SnapshotOf;
  }

  /** Only an issuer delivers, and only what it read. */
  ghost predicate NewIssue(g: Setting, w: World, v: World) {
    |v.issues| > |w.issues| ==> Genuine(g, v, |w.issues|) && v.issues[|w.issues|].at == |w.transactions|
  }

  lemma DeliverIsGenuine(g: Setting, w: World, i: nat, claim: Claim)
    requires i < |w.issuers| && Issuable(g.hash, g.config, w.resolver, g.decisions, w.issuers[i].order)
    requires claim == ClaimFor(g.hash, g.config, w.resolver, g.decisions, w.issuers[i].order)
    ensures NewIssue(g, w, Deliver(w, i, claim))
  {
    hide Issuable, ClaimFor, ClaimText, Inventory.Run, Inventory.Provisionable;
    var v := Deliver(w, i, claim);
    assert v.transactions[..|w.transactions|] == w.transactions;
  }

  lemma MoveIsGenuine(g: Setting, w: World, i: nat)
    requires i < |w.issuers| && Current(g, w, i)
    ensures NewIssue(g, w, Advance(g, w, i))
  {
    hide Resolve, Issuable, ClaimFor, ClaimText, Shown, Sealed, BareClaim, ProjectionsOf, SnapshotOf, Deliver, Genuine;
    if w.issuers[i].phase.Viewing? {
      var o, p := w.issuers[i].order, w.issuers[i].phase;
      ReadingsMakeTheClaim(g, w, i);
      if Issuable(g.hash, g.config, w.resolver, g.decisions, o) {
        DeliverIsGenuine(g, w, i, ClaimFor(g.hash, g.config, w.resolver, g.decisions, o));
      }
    }
  }

  /** What a step of issuer i leaves alone. */
  ghost predicate Aside(w: World, v: World, i: nat) {
    && v.resolver == w.resolver && |v.issuers| >= |w.issuers|
    && (forall j | 0 <= j < |w.issuers| && j != i :: v.issuers[j] == w.issuers[j])
    && (v.lock == w.lock || (w.lock in {None, Some(i)} && v.lock in {None, Some(i)}))
  }

  lemma MoveIsAside(g: Setting, w: World, i: nat)
    requires i < |w.issuers| && Current(g, w, i)
    ensures Aside(w, Advance(g, w, i), i)
  {
    hide Resolve, ClaimText, Shown, Sealed, BareClaim, ProjectionsOf, SnapshotOf, Inventory.Run;
    hide Inventory.Provisionable, Presented, ResolvesTo;
  }

  lemma MoverStaysCurrent(g: Setting, w: World, i: nat)
    requires i < |w.issuers| && Current(g, w, i)
    ensures CurrentAt(g, Advance(g, w, i), i)
  {
    hide Resolve, ClaimText, Shown, Sealed, BareClaim, ProjectionsOf, SnapshotOf, Inventory.Run;
    hide Inventory.Provisionable, Presented;
  }

  lemma OthersStayCurrent(g: Setting, w: World, v: World, i: nat, j: nat)
    requires Aside(w, v, i) && j < |w.issuers| && j != i && Current(g, w, j)
    ensures Current(g, v, j)
  {
    hide Resolve, SnapshotOf, Presented;
  }

  lemma PhasesStayCurrent(g: Setting, w: World, step: Step, i: nat)
    requires Coherent(g, w) && i < |Do(g, w, step).issuers|
    ensures Current(g, Do(g, w, step), i)
  {
    hide Resolve, Genuine, SnapshotOf, Presented, Inventory.Succeeds, Advance;
    if i < |w.issuers| { assert Current(g, w, i); }
    if step.Move? && step.issuer < |w.issuers| {
      assert Current(g, w, step.issuer);
      MoveIsAside(g, w, step.issuer);
      if i == step.issuer {
        MoverStaysCurrent(g, w, i);
      } else {
        SameIssuers(g, w, step.issuer);
        OthersStayCurrent(g, w, Advance(g, w, step.issuer), step.issuer, i);
      }
    }
  }

  lemma SameIssuers(g: Setting, w: World, i: nat)
    requires i < |w.issuers|
    ensures |Advance(g, w, i).issuers| == |w.issuers|
  {
    hide Resolve, ClaimText, Shown, Sealed, BareClaim, ProjectionsOf, SnapshotOf, Inventory.Run;
    hide Inventory.Provisionable, Presented;
  }

  ghost predicate CurrentAt(g: Setting, w: World, i: nat) {
    i < |w.issuers| && Current(g, w, i)
  }

  lemma SuccessIsIssued(g: Setting, w: World, step: Step, k: nat)
    requires Coherent(g, w) && Inventory.Succeeds(Do(g, w, step).transactions, k)
    ensures Has(Do(g, w, step), k)
  {
    hide Resolve, Genuine, ClaimText, Shown, Sealed, BareClaim, ProjectionsOf, SnapshotOf, Inventory.Run;
    hide Inventory.Provisionable, Presented, Current;
    var v := Do(g, w, step);
    DoExtends(g, w, step);
    if k < |w.transactions| {
      assert v.transactions[..k] == w.transactions[..k];
      assert Inventory.Succeeds(w.transactions, k);
      var j :| 0 <= j < |w.issues| && w.issues[j].at == k;
      assert v.issues[j].at == k;
    } else {
      assert v.transactions[..k] == w.transactions;
      assert v.issues[|w.issues|].at == k;
    }
  }

  ghost predicate Has(w: World, k: nat) {
    exists j | 0 <= j < |w.issues| :: w.issues[j].at == k
  }

  lemma StepIsCoherent(g: Setting, w: World, step: Step)
    requires Coherent(g, w)
    ensures Coherent(g, Do(g, w, step))
  {
    hide Do, Current, Genuine, Inventory.Succeeds;
    var v := Do(g, w, step);
    StepIsGenuine(g, w, step);
    DoExtends(g, w, step);
    forall i | 0 <= i < |v.issuers| ensures Current(g, v, i) { PhasesStayCurrent(g, w, step, i); }
    LockedIsThere(g, w, step);
    forall k | 0 <= k < |v.issues| ensures Genuine(g, v, k) {
      if k < |w.issues| { IssuesKept(g, w, v, k); }
    }
    forall k: nat | Inventory.Succeeds(v.transactions, k) ensures exists j | 0 <= j < |v.issues| ::
        v.issues[j].at == k {
      SuccessIsIssued(g, w, step, k);
    }
  }

  lemma StepIsGenuine(g: Setting, w: World, step: Step)
    requires Coherent(g, w)
    ensures NewIssue(g, w, Do(g, w, step))
  {
    hide Advance, Current, Genuine, Inventory.Succeeds;
    if step.Move? && step.issuer < |w.issuers| {
      MoveIsGenuine(g, w, step.issuer);
    }
    IssuesOnlyByMoves(g, w, step);
  }

  lemma LockedIsThere(g: Setting, w: World, step: Step)
    requires Coherent(g, w)
    ensures var v := Do(g, w, step); v.lock.Some? ==> v.lock.value < |v.issuers|
  {
    hide Resolve, Genuine, ClaimText, Shown, Sealed, BareClaim, ProjectionsOf, SnapshotOf, Inventory.Run;
    hide Inventory.Provisionable, Presented, Current, Inventory.Succeeds;
  }

  lemma IssuesOnlyByMoves(g: Setting, w: World, step: Step)
    ensures (step.Move? && step.issuer < |w.issuers|) || Do(g, w, step).issues == w.issues
  {
    hide Advance;
  }

  lemma {:induction false} RunIsCoherent(g: Setting, r: Resolver, steps: seq<Step>)
    ensures Coherent(g, Run(g, r, steps))
  {
    if steps != [] {
      hide Do, Coherent;
      var n := |steps| - 1;
      RunIsCoherent(g, r, steps[..n]);
      StepIsCoherent(g, Run(g, r, steps[..n]), steps[n]);
    }
  }

  // ---- main results --------------------------------------------------------

  lemma RowsNeverVanish(t: Inventory.Tables, x: Inventory.Transaction)
    ensures t.authority.Keys <= Inventory.Apply(t, x).authority.Keys
  {
    ProvisionedKeeps(t.authority, Inventory.NAMES);
    hide Inventory.NAMES, Inventory.Expected;
  }

  lemma {:induction false} ProvisionedKeeps(authority: map<string, string>, names: seq<string>)
    ensures authority.Keys <= Inventory.Provisioned(authority, names).Keys
    ensures forall n | n in names :: n in Inventory.Provisioned(authority, names)
  {
    if names != [] {
      var n := |names| - 1;
      ProvisionedKeeps(authority, names[..n]);
      assert names == names[..n] + [names[n]];
    }
  }

  lemma NewRowIsProvisioned(t: Inventory.Tables, x: Inventory.Transaction, name: string)
    requires name !in t.authority && name in Inventory.Apply(t, x).authority
    ensures x.Provision? && Inventory.Provisionable(t, x.claimId)
  {
    hide Inventory.NAMES, Inventory.Expected, Inventory.Failing;
  }

  /** Rows are in the store only because a provisioning put them there. */
  lemma {:induction false} RowsCameWithAClaim(xs: seq<Inventory.Transaction>, k: nat, name: string)
    requires k <= |xs| && name in Inventory.Run(xs[..k]).authority
    ensures exists j: nat :: j < k && Inventory.Succeeds(xs, j)
  {
    hide Inventory.Apply, Inventory.Provisionable;
    var n := k - 1;
    assert xs[..k][..n] == xs[..n];
    if name in Inventory.Run(xs[..n]).authority {
      RowsCameWithAClaim(xs, n, name);
    } else {
      NewRowIsProvisioned(Inventory.Run(xs[..n]), xs[n], name);
      assert Inventory.Succeeds(xs, n);
    }
  }

  /** In every interleaving of issuers, authority writers and store transactions: an effect row
      stands at a place where every authority row held, after the provisioning of a claim that one
      instant of the authority source justified. The row need not be that claim's own: see
      EffectsAndClaims. */
  lemma EffectsStandOnAnIssuedClaim(g: Setting, r: Resolver, steps: seq<Step>, effectId: string)
    requires effectId in Inventory.Run(Run(g, r, steps).transactions).effects
    ensures var w := Run(g, r, steps);
      exists k: nat, j: nat :: Stands(g, w, effectId, k, j)
  {
    hide Run, Current, Issuable, ClaimFor, Inventory.Run, Inventory.Succeeds;
    var w := Run(g, r, steps);
    RunIsCoherent(g, r, steps);
    Inventory.EffectsWereDue(w.transactions, effectId);
    var k: nat :| Inventory.CommittedAt(w.transactions, k, effectId, Inventory.Run(w.transactions).effects[effectId]);
    assert Inventory.RowHolds(Inventory.Run(w.transactions[..k]).authority, Inventory.NAMES[0]);
    RowsCameWithAClaim(w.transactions, k, Inventory.NAMES[0]);
    var p: nat :| p < k && Inventory.Succeeds(w.transactions, p);
    var j :| 0 <= j < |w.issues| && w.issues[j].at == p;
    assert Genuine(g, w, j);
    assert Stands(g, w, effectId, k, j);
  }

  ghost predicate Stands(g: Setting, w: World, effectId: string, k: nat, j: nat) {
    && j < |w.issues| && w.issues[j].at < k && Genuine(g, w, j)
    && effectId in Inventory.Run(w.transactions).effects
    && Inventory.CommittedAt(w.transactions, k, effectId, Inventory.Run(w.transactions).effects[effectId])
  }

  // ---- what the lock holds still -------------------------------------------

  ghost predicate InsideAt(w: World, i: nat) {
    i < |w.issuers| && Inside(w.issuers[i].phase)
  }

  ghost predicate ArrivedAt(w: World, i: nat) {
    i < |w.issuers| && !w.issuers[i].phase.Waiting?
  }

  lemma CurrentIsInside(g: Setting, w: World, i: nat)
    requires Coherent(g, w)
    ensures InsideAt(w, i) <==> w.lock == Some(i)
  {
    if i < |w.issuers| { assert Current(g, w, i); }
    hide Genuine, Current, Inventory.Succeeds;
    if w.lock == Some(i) { assert i < |w.issuers|; }
  }

  /** An issuer inside after a step, that had arrived before it, was inside before it and has
      the authority source unchanged. */
  lemma StepHoldsStill(g: Setting, w: World, step: Step, i: nat)
    requires Coherent(g, w) && ArrivedAt(w, i) && InsideAt(Do(g, w, step), i)
    ensures InsideAt(w, i) && Do(g, w, step).resolver == w.resolver
  {
    hide Resolve, ClaimText, Shown, Sealed, BareClaim, ProjectionsOf, SnapshotOf, Inventory.Run, Inventory.Succeeds,
        Genuine;
    hide Inventory.Provisionable, Presented, ResolvesTo;
    assert Current(g, w, i);
    if step.Move? && step.issuer < |w.issuers| { assert Current(g, w, step.issuer); }
  }

  lemma StepKeepsArrived(g: Setting, w: World, step: Step, i: nat)
    requires ArrivedAt(w, i)
    ensures ArrivedAt(Do(g, w, step), i)
  {
    hide Resolve, ClaimText, Shown, Sealed, BareClaim, ProjectionsOf, SnapshotOf, Inventory.Run;
    hide Inventory.Provisionable, Presented;
  }

  lemma RunOneMore(g: Setting, r: Resolver, steps: seq<Step>, more: seq<Step>)
    requires more != []
    ensures Run(g, r, steps + more) == Do(g, Run(g, r, steps + more[..|more| - 1]), more[|more| - 1])
  {
    hide Do;
    assert (steps + more)[..|steps + more| - 1] == steps + more[..|more| - 1];
  }

  lemma {:induction false} ArrivedStays(g: Setting, r: Resolver, steps: seq<Step>, more: seq<Step>, i: nat)
    requires ArrivedAt(Run(g, r, steps), i)
    ensures ArrivedAt(Run(g, r, steps + more), i)
  {
    hide Do, Run, ArrivedAt;
    if more == [] {
      assert steps + more == steps;
    } else {
      ArrivedStays(g, r, steps, more[..|more| - 1], i);
      RunOneMore(g, r, steps, more);
      StepKeepsArrived(g, Run(g, r, steps + more[..|more| - 1]), more[|more| - 1], i);
    }
  }

  /** From the moment an issuer holds the lock until it leaves, whatever else is interleaved, the
      authority source it resolves, snapshots and provisions from is one and the same. */
  lemma {:induction false} AuthorityHeldStill(g: Setting, r: Resolver, steps: seq<Step>, more: seq<Step>, i: nat)
    requires Run(g, r, steps).lock == Some(i) && InsideAt(Run(g, r, steps + more), i)
    ensures Run(g, r, steps + more).resolver == Run(g, r, steps).resolver
  {
    hide Do, Run, Coherent, InsideAt, ArrivedAt;
    if more == [] {
      assert steps + more == steps;
    } else {
      var before := Run(g, r, steps + more[..|more| - 1]);
      RunIsCoherent(g, r, steps);
      CurrentIsInside(g, Run(g, r, steps), i);
      InsideHasArrived(Run(g, r, steps), i);
      ArrivedStays(g, r, steps, more[..|more| - 1], i);
      RunOneMore(g, r, steps, more);
      RunIsCoherent(g, r, steps + more[..|more| - 1]);
      StepHoldsStill(g, before, more[|more| - 1], i);
      AuthorityHeldStill(g, r, steps, more[..|more| - 1], i);
    }
  }

  lemma InsideHasArrived(w: World, i: nat)
    requires InsideAt(w, i)
    ensures ArrivedAt(w, i)
  {}

  // ---- an issuer left alone ------------------------------------------------

  function FourMoves(g: Setting, w: World, i: nat): World {
    Do(g, Do(g, Do(g, Do(g, w, Move(i)), Move(i)), Move(i)), Move(i))
  }

  /** Over with this claim or none, the lock free, and nothing else of the world touched but what the
      store was asked and what was issued. */
  ghost predicate Finishes(w: World, n: World, i: nat, issued: Option<Claim>) {
    && i < |w.issuers| && n.issuers == w.issuers[i := w.issuers[i].(phase := Over(issued))]
    && n.lock.None? && n.resolver == w.resolver
  }

  lemma OverStays(g: Setting, w: World, i: nat)
    requires i < |w.issuers| && w.issuers[i].phase.Over?
    ensures Do(g, w, Move(i)) == w
  {
    hide ResolveStep, SnapshotStep, ProvisionStep;
  }

  lemma HoldingResolves(g: Setting, w: World, i: nat)
    requires i < |w.issuers| && w.issuers[i].phase.Holding?
    ensures var o, n := w.issuers[i].order, Do(g, w, Move(i));
      var found := Resolve(g.hash, g.config, w.resolver, o.proposal, o.now);
      if found.reasons == [] && found.binding.Some? && found.binding == o.decision.binding
      then n == Place(w, i, Resolving(found)) else n == Leave(w, i, None)
  {
    hide Resolve;
  }

  lemma ViewingProvisions(g: Setting, w: World, i: nat)
    requires i < |w.issuers| && w.issuers[i].phase.Viewing?
    requires ResolvesTo(g, w, w.issuers[i].order, w.issuers[i].phase.resolved)
    requires var o := w.issuers[i].order;
      SnapshotOf(w.resolver, o.proposal.authorityContextRef.GetOr("")) == Some(w.issuers[i].phase.snapshot)
    ensures var o, n := w.issuers[i].order, Do(g, w, Move(i));
      if Issuable(g.hash, g.config, w.resolver, g.decisions, o)
      then n == Deliver(w, i, ClaimFor(g.hash, g.config, w.resolver, g.decisions, o)) else n == Leave(w, i, None)
  {
    hide Resolve, Shown, ProjectionsOf, SnapshotOf, BareClaim, Sealed, Usable, Deliver, FindDecision;
    var o, p := w.issuers[i].order, w.issuers[i].phase;
    if Shown(g.hash, g.config, p.resolved.binding.value, p.snapshot, o.now) {
      ShownHasGrant(g.hash, g.config, p.resolved.binding.value, p.snapshot, o.now);
    }
  }

  lemma DeliverFinishes(w: World, c: World, i: nat, claim: Claim)
    requires i < |w.issuers| && exists p :: c == Place(w, i, p).(lock := Some(i))
    ensures var taken := Inventory.Provisionable(Inventory.Run(w.transactions), claim.claimId);
      var n := Deliver(c, i, claim);
      && Finishes(w, n, i, if taken then Some(claim) else None)
      && n.transactions == w.transactions + [Inventory.Provision(claim.claimId, ClaimText(claim))]
      && n.issues == w.issues
          + (if taken then [Issue(w.issuers[i].order, w.resolver, claim, |w.transactions|)] else [])
  {
    hide ClaimText, Inventory.Run, Inventory.Provisionable;
  }

  /** An issuer that finds the lock free and is left alone issues exactly when the authority source, as
      it then is, justifies a claim and the store takes it; otherwise nothing is issued. Either way the
      lock is free again. */
  lemma LeftAloneIssuesExactly(g: Setting, w: World, i: nat)
    requires i < |w.issuers| && w.issuers[i].phase.Waiting? && w.lock.None?
    ensures var o, n := w.issuers[i].order, FourMoves(g, w, i);
      if Issuable(g.hash, g.config, w.resolver, g.decisions, o) then
        var claim := ClaimFor(g.hash, g.config, w.resolver, g.decisions, o);
        var taken := Inventory.Provisionable(Inventory.Run(w.transactions), claim.claimId);
        && Finishes(w, n, i, if taken then Some(claim) else None)
        && n.transactions == w.transactions + [Inventory.Provision(claim.claimId, ClaimText(claim))]
        && n.issues == w.issues + (if taken then [Issue(o, w.resolver, claim, |w.transactions|)] else [])
      else Finishes(w, n, i, None) && n.transactions == w.transactions && n.issues == w.issues
  {
    hide Resolve, Shown, Sealed, BareClaim, ProjectionsOf, SnapshotOf, ClaimText, Inventory.Run, Usable, FindDecision;
    hide ResolveStep, ProvisionStep, Inventory.Provisionable, Deliver, ClaimFor;
    var o := w.issuers[i].order;
    var a := Do(g, w, Move(i));
    var b := Do(g, a, Move(i));
    var c := Do(g, b, Move(i));
    if !Presented(g, o) {
      OverStays(g, a, i);
    } else {
      HoldingResolves(g, a, i);
      if b.issuers[i].phase.Over? {
        OverStays(g, b, i);
      } else if c.issuers[i].phase.Over? {
        OverStays(g, c, i);
      } else {
        ViewingProvisions(g, c, i);
        if Issuable(g.hash, g.config, w.resolver, g.decisions, o) {
          assert c == Place(w, i, c.issuers[i].phase).(lock := Some(i));
          DeliverFinishes(w, c, i, ClaimFor(g.hash, g.config, w.resolver, g.decisions, o));
        }
      }
    }
  }

  /** A writer changes the authority source exactly when no issuer holds the lock. An issuer that dies
      is over with nothing issued, its lock is released, and the source and the store stay. */
  lemma WritersWaitAndCrashesRelease(g: Setting, w: World, r: Resolver, i: nat)
    ensures Do(g, w, Write(r)) == if w.lock.Some? then w else w.(resolver := r)
    ensures i < |w.issuers| && !w.issuers[i].phase.Over? ==>
      var n := Do(g, w, Crash(i));
      && n.issuers == w.issuers[i := Issuer(w.issuers[i].order, Over(None))]
      && n.lock == (if w.lock == Some(i) then None else w.lock)
      && n.resolver == w.resolver && n.transactions == w.transactions && n.issues == w.issues
    ensures i < |w.issuers| && w.issuers[i].phase.Over? ==> Do(g, w, Crash(i)) == w
  {
    hide Advance;
    if i < |w.issuers| {
      assert w.issuers[i].(phase := Over(None)) == Issuer(w.issuers[i].order, Over(None));
    }
  }
}
