/** The store that takes over a claim's authority and serializes its changes with the effect. */
module Inventory {
  import opened Text

  // ---- tables --------------------------------------------------------------

  datatype Event = ClaimProvisioned | Mutation(name: string, state: string) | Hold(failed: seq<string>) | EffectCommit

  /** authority: name to state; claims: claim id to body; effects: effect id to claim id. */
  datatype Tables = Tables(
    authority: map<string, string>, claims: map<string, string>, effects: map<string, string>, ordering: seq<Event>)

  const NO_TABLES := Tables(map[], map[], map[], [])

  const NAMES := ["grant", "policy", "approval", "evidence"]

  function Expected(name: string): string {
    if name == "evidence" then "current" else "active"
  }

  predicate RowHolds(authority: map<string, string>, name: string) {
    name in authority && authority[name] == Expected(name)
  }

  /** Every authority row is there and active, or current. */
  predicate AllHold(authority: map<string, string>) {
    forall name | name in NAMES :: RowHolds(authority, name)
  }

  function Failing(authority: map<string, string>, names: seq<string>): (r: seq<string>)
    ensures forall name :: name in r <==> name in names && !RowHolds(authority, name)
  {
    if names == [] then [] else
      var n := |names| - 1;
      assert names == names[..n] + [names[n]];
      Failing(authority, names[..n]) + (if RowHolds(authority, names[n]) then [] else [names[n]])
  }

  ghost predicate Stands(authority: map<string, string>, name: string, state: string) {
    name in authority && authority[name] == state
  }

  /** The four rows and what each must say. */
  ghost predicate FourStand(authority: map<string, string>) {
    && Stands(authority, "grant", "active") && Stands(authority, "policy", "active")
    && Stands(authority, "approval", "active") && Stands(authority, "evidence", "current")
  }

  /** Whether the row of this name is one of the four and does not say what it must. */
  ghost predicate Fails(authority: map<string, string>, name: string) {
    || (name in {"grant", "policy", "approval"} && !Stands(authority, name, "active"))
    || (name == "evidence" && !Stands(authority, name, "current"))
  }

  lemma FourByName(authority: map<string, string>)
    ensures AllHold(authority) <==> FourStand(authority)
    ensures forall name :: name in NAMES && !RowHolds(authority, name) <==> Fails(authority, name)
  {
    NamesListed();
    assert "grant"[0] == 'g' && "policy"[0] == 'p' && "approval"[0] == 'a' && "evidence"[0] == 'e';
    assert AllHold(authority) <==>
      && RowHolds(authority, NAMES[0]) && RowHolds(authority, NAMES[1])
      && RowHolds(authority, NAMES[2]) && RowHolds(authority, NAMES[3]);
  }

  lemma NamesListed()
    ensures |NAMES| == 4
    ensures NAMES[0] == "grant" && NAMES[1] == "policy" && NAMES[2] == "approval" && NAMES[3] == "evidence"
    ensures forall name :: name in NAMES <==> name in {"grant", "policy", "approval", "evidence"}
  {
    forall name ensures name in NAMES <==> name in {"grant", "policy", "approval", "evidence"} {
      if name in NAMES {
        var i :| 0 <= i < |NAMES| && NAMES[i] == name;
        assert i == 0 || i == 1 || i == 2 || i == 3;
      }
      assert NAMES[0] in NAMES && NAMES[1] in NAMES && NAMES[2] in NAMES && NAMES[3] in NAMES;
    }
  }

  // ---- transactions --------------------------------------------------------

  datatype Transaction =
    | Provision(claimId: string, body: string)
    | Mutate(name: string, state: string)
    | CommitEffect(effectId: string, claimId: string)

  function Provisioned(authority: map<string, string>, names: seq<string>): map<string, string> {
    if names == [] then authority else
      var n := |names| - 1;
      Provisioned(authority, names[..n])[names[n] := Expected(names[n])]
  }

  predicate Provisionable(t: Tables, claimId: string) {
    (forall name | name in NAMES :: name !in t.authority) && claimId !in t.claims
  }

  /** A transaction that breaks a primary key is rolled back whole. */
  function Apply(t: Tables, x: Transaction): Tables {
    match x
    case Provision(claimId, body) =>
      if !Provisionable(t, claimId) then t
      else Tables(Provisioned(t.authority, NAMES), t.claims[claimId := body], t.effects,
          t.ordering + [ClaimProvisioned])
    case Mutate(name, state) =>
      t.(authority := if name in t.authority then t.authority[name := state] else t.authority,
         ordering := t.ordering + [Mutation(name, state)])
    case CommitEffect(effectId, claimId) =>
      var failed := Failing(t.authority, NAMES);
      if failed != [] then t.(ordering := t.ordering + [Hold(Sort(failed))])
      else if effectId in t.effects then t
      else t.(effects := t.effects[effectId := claimId], ordering := t.ordering + [EffectCommit])
  }

  function Run(xs: seq<Transaction>): Tables {
    if xs == [] then NO_TABLES else Apply(Run(xs[..|xs| - 1]), xs[|xs| - 1])
  }

  lemma SortedFailing(authority: map<string, string>, failed: seq<string>)
    requires failed == Failing(authority, NAMES)
    ensures Sorted(Sort(failed)) && forall name :: name in Sort(failed) <==> Fails(authority, name)
  {
    hide Fails, RowHolds;
    FourByName(authority);
    assert forall name :: name in Sort(failed) <==> name in multiset(Sort(failed));
    assert forall name :: name in failed <==> name in multiset(failed);
  }

  /** None of the four rows is there. */
  ghost predicate NoRows(authority: map<string, string>) {
    "grant" !in authority && "policy" !in authority && "approval" !in authority && "evidence" !in authority
  }

  ghost function WithFourRows(authority: map<string, string>): map<string, string> {
    authority["grant" := "active"]["policy" := "active"]["approval" := "active"]["evidence" := "current"]
  }

  lemma ProvisionedByName(t: Tables, claimId: string)
    ensures Provisionable(t, claimId) <==> NoRows(t.authority) && claimId !in t.claims
    ensures Provisioned(t.authority, NAMES) == WithFourRows(t.authority)
  {
    NamesListed();
    var authority := t.authority;
    assert "grant"[0] == 'g' && "policy"[0] == 'p' && "approval"[0] == 'a' && "evidence"[0] == 'e';
    assert NAMES[..4] == NAMES && NAMES[..4][..3] == NAMES[..3];
    assert NAMES[..3][..2] == NAMES[..2] && NAMES[..2][..1] == NAMES[..1] && NAMES[..1][..0] == [];
    assert Provisioned(authority, NAMES[..1]) == authority["grant" := "active"];
    assert Provisioned(authority, NAMES[..2]) == authority["grant" := "active"]["policy" := "active"];
  }

  /** The store object; BEGIN IMMEDIATE makes each method one transaction. */
  class SameHostInventory {
    var authority: map<string, string>
    var claims: map<string, string>
    var effects: map<string, string>
    var ordering: seq<Event>

    ghost function Contents(): Tables
      reads this
    {
      Tables(authority, claims, effects, ordering)
    }

    constructor ()
      ensures Contents() == NO_TABLES
    {
      authority, claims, effects, ordering := map[], map[], map[], [];
    }

    /** Insert the four rows, the claim and the event, or nothing. */
    method ProvisionClaim(claimId: string, body: string) returns (ok: bool)
      modifies this
      ensures Contents() == Apply(old(Contents()), Provision(claimId, body))
      ensures ok <==> NoRows(old(authority)) && claimId !in old(claims)
      ensures if !ok then Contents() == old(Contents()) else
        && authority == WithFourRows(old(authority))
        && claims == old(claims)[claimId := body] && effects == old(effects)
        && ordering == old(ordering) + [ClaimProvisioned]
    {
      ProvisionedByName(Contents(), claimId);
      hide NAMES, Expected, NoRows, WithFourRows;
      var rows := authority;
      for i := 0 to |NAMES|
        invariant Contents() == old(Contents())
        invariant rows == Provisioned(authority, NAMES[..i])
        invariant forall k :: k in rows <==> k in authority || k in NAMES[..i]
        invariant forall j | 0 <= j < i :: NAMES[j] !in authority
      {
        assert NAMES[..i + 1] == NAMES[..i] + [NAMES[i]];
        NamesDiffer(i);
        if NAMES[i] in rows {
          Blocked(Contents(), claimId, NAMES[i]);
          return false;
        }
        rows := rows[NAMES[i] := Expected(NAMES[i])];
      }
      assert NAMES[..|NAMES|] == NAMES;
      if claimId in claims { return false; }
      authority, claims, ordering := rows, claims[claimId := body], ordering + [ClaimProvisioned];
      ok := true;
    }

    /** An update of a row that is not there changes no row and is logged all the same. */
    method MutateAuthority(name: string, state: string)
      modifies this
      ensures Contents() == Apply(old(Contents()), Mutate(name, state))
    {
      if name in authority {
        authority := authority[name := state];
      }
      ordering := ordering + [Mutation(name, state)];
    }

    method Commit(effectId: string, claimId: string) returns (done: bool)
      modifies this
      ensures Contents() == Apply(old(Contents()), CommitEffect(effectId, claimId))
      ensures done <==> FourStand(old(authority)) && effectId !in old(effects)
      ensures done <==> effects != old(effects)
      ensures !FourStand(old(authority)) ==>
        exists failed :: ordering == old(ordering) + [Hold(failed)] && Sorted(failed)
          && forall name :: name in failed <==> Fails(old(authority), name)
    {
      FourByName(authority);
      hide NAMES, Expected, FourStand, Fails, RowHolds, Sort, Sorted;
      var failed: seq<string> := [];
      for i := 0 to |NAMES|
        invariant Contents() == old(Contents())
        invariant failed == Failing(authority, NAMES[..i])
      {
        assert NAMES[..i + 1][..i] == NAMES[..i];
        if !RowHolds(authority, NAMES[i]) {
          failed := failed + [NAMES[i]];
        }
      }
      assert NAMES[..|NAMES|] == NAMES;
      if failed != [] {
        assert failed[0] in failed;
        SortedFailing(authority, failed);
        ordering := ordering + [Hold(Sort(failed))];
        return false;
      }
      if effectId in effects { return false; }
      effects, ordering := effects[effectId := claimId], ordering + [EffectCommit];
      done := true;
    }
  }

  lemma Blocked(t: Tables, claimId: string, name: string)
    requires name in NAMES && name in t.authority
    ensures !Provisionable(t, claimId)
  {}

  lemma NamesDiffer(i: nat)
    requires i < |NAMES|
    ensures NAMES[i] !in NAMES[..i]
  {
    assert NAMES[0] == "grant" && NAMES[1] == "policy" && NAMES[2] == "approval" && NAMES[3] == "evidence";
    assert "grant"[0] == 'g' && "policy"[0] == 'p' && "approval"[0] == 'a' && "evidence"[0] == 'e';
  }

  // ---- replaying the order -------------------------------------------------

  function ReplayEvent(authority: map<string, string>, e: Event): map<string, string> {
    match e
    case ClaimProvisioned => Provisioned(authority, NAMES)
    case Mutation(name, state) => if name in authority then authority[name := state] else authority
    case _ => authority
  }

  function Replay(events: seq<Event>): map<string, string> {
    if events == [] then map[] else ReplayEvent(Replay(events[..|events| - 1]), events[|events| - 1])
  }

  function Commits(events: seq<Event>): nat {
    if events == [] then 0 else Commits(events[..|events| - 1]) + (if events[|events| - 1].EffectCommit? then 1 else 0)
  }

  lemma EventReplays(events: seq<Event>, e: Event)
    ensures Replay(events + [e]) == ReplayEvent(Replay(events), e)
    ensures Commits(events + [e]) == Commits(events) + (if e.EffectCommit? then 1 else 0)
  {
    assert (events + [e])[..|events|] == events;
  }

  /** Each effect in the order stands where every authority row held. */
  ghost predicate CommitsWereDue(events: seq<Event>) {
    forall k | 0 <= k < |events| && events[k].EffectCommit? :: AllHold(Replay(events[..k]))
  }

  ghost predicate Faithful(t: Tables) {
    && t.authority == Replay(t.ordering) && |t.effects| == Commits(t.ordering) && CommitsWereDue(t.ordering)
  }

  /** What the next event adds, and to which tables. */
  ghost predicate Adds(t: Tables, n: Tables, e: Event) {
    && n.ordering == t.ordering + [e] && n.authority == ReplayEvent(t.authority, e)
    && |n.effects| == |t.effects| + (if e.EffectCommit? then 1 else 0)
    && (e.EffectCommit? ==> AllHold(t.authority))
  }

  lemma AddingIsFaithful(t: Tables, n: Tables, e: Event)
    requires Faithful(t) && Adds(t, n, e)
    ensures Faithful(n)
  {
    hide AllHold, ReplayEvent;
    EventReplays(t.ordering, e);
    forall k | 0 <= k < |n.ordering| && n.ordering[k].EffectCommit? ensures AllHold(Replay(n.ordering[..k])) {
      if k < |t.ordering| {
        assert n.ordering[..k] == t.ordering[..k];
      } else {
        assert n.ordering[..k] == t.ordering;
      }
    }
  }

  lemma ApplyAdds(t: Tables, x: Transaction)
    ensures Apply(t, x) == t || exists e :: Adds(t, Apply(t, x), e)
  {
    hide NAMES, Expected, Sort, Failing, AllHold;
    NoneFailing(t.authority);
    if Apply(t, x) != t {
      var e := Apply(t, x).ordering[|t.ordering|];
      assert Adds(t, Apply(t, x), e);
    }
  }

  lemma ApplyIsFaithful(t: Tables, x: Transaction)
    requires Faithful(t)
    ensures Faithful(Apply(t, x))
  {
    hide Apply, Faithful, Adds;
    ApplyAdds(t, x);
    if Apply(t, x) != t {
      var e :| Adds(t, Apply(t, x), e);
      AddingIsFaithful(t, Apply(t, x), e);
    }
  }

  lemma NoneFailing(authority: map<string, string>)
    ensures Failing(authority, NAMES) == [] <==> AllHold(authority)
  {
    if Failing(authority, NAMES) != [] {
      assert Failing(authority, NAMES)[0] in Failing(authority, NAMES);
    }
  }

  /** Replaying the recorded order reproduces the authority table and the number of effects, and
      shows every authority row holding at the place of each effect. */
  lemma {:induction false} OrderIsFaithful(xs: seq<Transaction>)
    ensures Faithful(Run(xs))
  {
    if xs != [] {
      OrderIsFaithful(xs[..|xs| - 1]);
      ApplyIsFaithful(Run(xs[..|xs| - 1]), xs[|xs| - 1]);
    }
  }

  // ---- which transactions take effect --------------------------------------

  /** An effect row is the work of one commit that found every row holding. */
  lemma CommitAddsEffect(t: Tables, x: Transaction, effectId: string)
    requires effectId in Apply(t, x).effects && effectId !in t.effects
    ensures x == CommitEffect(effectId, Apply(t, x).effects[effectId]) && AllHold(t.authority)
  {
    hide NAMES, Expected, Sort, AllHold, Failing;
    NoneFailing(t.authority);
  }

  lemma EffectsAreNotLost(t: Tables, x: Transaction, effectId: string)
    requires effectId in t.effects
    ensures effectId in Apply(t, x).effects && Apply(t, x).effects[effectId] == t.effects[effectId]
  {
    hide NAMES, Expected, Sort, Failing;
  }

  ghost predicate CommittedAt(xs: seq<Transaction>, k: nat, effectId: string, claimId: string) {
    && k < |xs| && xs[k] == CommitEffect(effectId, claimId)
    && AllHold(Run(xs[..k]).authority) && effectId !in Run(xs[..k]).effects
  }

  /** An effect row is the work of one commit that found every row holding. */
  lemma {:induction false} EffectsWereDue(xs: seq<Transaction>, effectId: string)
    requires effectId in Run(xs).effects
    ensures exists k: nat :: CommittedAt(xs, k, effectId, Run(xs).effects[effectId])
  {
    hide Apply, AllHold;
    var n := |xs| - 1;
    var before := Run(xs[..n]);
    assert Run(xs) == Apply(before, xs[n]);
    if effectId in before.effects {
      EffectsAreNotLost(before, xs[n], effectId);
      EffectsWereDue(xs[..n], effectId);
      var k: nat :| CommittedAt(xs[..n], k, effectId, before.effects[effectId]);
      assert xs[..n][..k] == xs[..k];
      assert CommittedAt(xs, k, effectId, before.effects[effectId]);
    } else {
      CommitAddsEffect(before, xs[n], effectId);
      assert CommittedAt(xs, n, effectId, Run(xs).effects[effectId]);
    }
  }

  ghost predicate Restores(x: Transaction, name: string) {
    x.Mutate? && x.name == name && x.state == Expected(name)
  }

  ghost predicate BadRow(authority: map<string, string>, name: string) {
    name in authority && authority[name] != Expected(name)
  }

  lemma BadRowStaysOnce(t: Tables, x: Transaction, name: string)
    requires name in NAMES && BadRow(t.authority, name) && !Restores(x, name)
    ensures BadRow(Apply(t, x).authority, name)
  {
    hide NAMES, Expected, Sort, Failing, Provisioned;
  }

  lemma {:induction false} BadRowStays(xs: seq<Transaction>, j: nat, k: nat, name: string)
    requires j <= k <= |xs| && BadRow(Run(xs[..j]).authority, name)
    requires name in NAMES && forall i | j <= i < k :: !Restores(xs[i], name)
    ensures BadRow(Run(xs[..k]).authority, name)
  {
    hide NAMES, Run, Apply, BadRow, Restores;
    if j < k {
      BadRowStays(xs, j, k - 1, name);
      RunNext(xs, k - 1);
      BadRowStaysOnce(Run(xs[..k - 1]), xs[k - 1], name);
    }
  }

  /** An invalidating mutation of a provisioned row, ordered first, holds every later effect
      until that row is set right: no effect row is added and the hold names the row. */
  lemma MutationFirstHolds(xs: seq<Transaction>, j: nat, k: nat)
    requires j < k < |xs| && xs[j].Mutate? && xs[j].name in NAMES && xs[j].state != Expected(xs[j].name)
    requires xs[j].name in Run(xs[..j]).authority
    requires forall i | j < i < k :: !Restores(xs[i], xs[j].name)
    requires xs[k].CommitEffect?
    ensures Run(xs[..k + 1]).effects == Run(xs[..k]).effects
    ensures exists failed :: xs[j].name in failed && Run(xs[..k + 1]).ordering == Run(xs[..k]).ordering + [Hold(failed)]
  {
    hide NAMES, Expected, Apply, Run;
    RunNext(xs, j);
    RunNext(xs, k);
    MutationSetsRow(Run(xs[..j]), xs[j]);
    BadRowStays(xs, j + 1, k, xs[j].name);
    BadRowHolds(Run(xs[..k]), xs[k], xs[j].name);
  }

  lemma RunNext(xs: seq<Transaction>, k: nat)
    requires k < |xs|
    ensures Run(xs[..k + 1]) == Apply(Run(xs[..k]), xs[k])
  {
    hide Apply;
    assert xs[..k + 1][..k] == xs[..k];
  }

  lemma MutationSetsRow(t: Tables, x: Transaction)
    requires x.Mutate? && x.name in t.authority
    ensures x.name in Apply(t, x).authority && Apply(t, x).authority[x.name] == x.state
  {}

  lemma BadRowHolds(t: Tables, x: Transaction, name: string)
    requires name in NAMES && !RowHolds(t.authority, name) && x.CommitEffect?
    ensures Apply(t, x).effects == t.effects
    ensures exists failed :: name in failed && Apply(t, x).ordering == t.ordering + [Hold(failed)]
  {
    hide NAMES, Expected;
    var failing := Failing(t.authority, NAMES);
    assert name in failing;
    assert name in multiset(failing) && name in multiset(Sort(failing));
  }

  predicate Succeeds(xs: seq<Transaction>, k: nat) {
    k < |xs| && xs[k].Provision? && Provisionable(Run(xs[..k]), xs[k].claimId)
  }

  ghost predicate ProvisionedBetween(xs: seq<Transaction>, j: nat, k: nat) {
    exists i: nat | j < i < k :: Succeeds(xs, i)
  }

  /** One transaction, and a row that is absent or holds. */
  lemma RowAfterOne(t: Tables, x: Transaction, name: string)
    requires name in NAMES && !(x.Mutate? && x.name == name)
    requires name in t.authority ==> RowHolds(t.authority, name)
    ensures var n := Apply(t, x);
      && (name in n.authority <==> name in t.authority || (x.Provision? && Provisionable(t, x.claimId)))
      && (name in n.authority ==> RowHolds(n.authority, name))
  {
    ProvisionedRows(t.authority, NAMES);
    hide NAMES, Expected, Sort, Failing;
  }

  /** A row absent after j, and mutated by nobody since, is there exactly when a claim was
      provisioned meanwhile, and then it holds. */
  lemma {:induction false} AbsentRow(xs: seq<Transaction>, j: nat, k: nat, name: string)
    requires j < k <= |xs| && name in NAMES && name !in Run(xs[..j + 1]).authority
    requires forall i | j < i < k :: !(xs[i].Mutate? && xs[i].name == name)
    ensures var rows := Run(xs[..k]).authority;
      && (name in rows <==> ProvisionedBetween(xs, j, k)) && (name in rows ==> RowHolds(rows, name))
  {
    hide NAMES, Apply, Run, RowHolds, Provisionable;
    if k > j + 1 {
      AbsentRow(xs, j, k - 1, name);
      RunNext(xs, k - 1);
      RowAfterOne(Run(xs[..k - 1]), xs[k - 1], name);
      assert Succeeds(xs, k - 1) ==> ProvisionedBetween(xs, j, k);
      if ProvisionedBetween(xs, j, k) && !Succeeds(xs, k - 1) {
        var i: nat :| j < i < k && Succeeds(xs, i);
        assert i < k - 1;
      }
    }
  }

  /** When an invalidating mutation is still in force at k, nobody having mutated that row since:
      exactly when the row was there to be invalidated, or no claim was provisioned meanwhile. */
  lemma InvalidationIsInForce(xs: seq<Transaction>, j: nat, k: nat)
    requires j < k <= |xs| && xs[j].Mutate? && xs[j].name in NAMES && xs[j].state != Expected(xs[j].name)
    requires forall i | j < i < k :: !(xs[i].Mutate? && xs[i].name == xs[j].name)
    ensures !RowHolds(Run(xs[..k]).authority, xs[j].name)
       <==> xs[j].name in Run(xs[..j]).authority || !ProvisionedBetween(xs, j, k)
  {
    hide NAMES, Expected, Apply, Run, Provisionable;
    RunNext(xs, j);
    if xs[j].name in Run(xs[..j]).authority {
      MutationSetsRow(Run(xs[..j]), xs[j]);
      BadRowStays(xs, j + 1, k, xs[j].name);
    } else {
      MutationSetsNoRow(Run(xs[..j]), xs[j]);
      AbsentRow(xs, j, k, xs[j].name);
    }
  }

  lemma MutationSetsNoRow(t: Tables, x: Transaction)
    requires x.Mutate? && x.name !in t.authority
    ensures Apply(t, x).authority == t.authority
  {}

  ghost predicate HeldFor(t: Tables, n: Tables, name: string) {
    exists failed :: name in failed && n.ordering == t.ordering + [Hold(failed)]
  }

  lemma HoldNamesFailing(t: Tables, x: Transaction, name: string)
    requires x.CommitEffect? && name in NAMES
    ensures HeldFor(t, Apply(t, x), name) <==> !RowHolds(t.authority, name)
    ensures HeldFor(t, Apply(t, x), name) ==> Apply(t, x).effects == t.effects
  {
    hide NAMES, Expected, RowHolds;
    var failing, n := Failing(t.authority, NAMES), Apply(t, x);
    assert name in failing <==> name in multiset(failing);
    assert name in Sort(failing) <==> name in multiset(Sort(failing));
    if failing != [] {
      assert n.ordering[|t.ordering|] == Hold(Sort(failing));
      if failed :| n.ordering == t.ordering + [Hold(failed)] {
        assert n.ordering[|t.ordering|] == Hold(failed);
      }
    } else if n.ordering != t.ordering {
      assert n.ordering[|t.ordering|] == EffectCommit;
    }
  }

  /** So an effect at k is held on account of an earlier invalidation exactly in those cases: then
      the hold names the row and no effect row is added. */
  lemma MutationHoldsExactly(xs: seq<Transaction>, j: nat, k: nat)
    requires j < k < |xs| && xs[j].Mutate? && xs[j].name in NAMES && xs[j].state != Expected(xs[j].name)
    requires forall i | j < i < k :: !(xs[i].Mutate? && xs[i].name == xs[j].name)
    requires xs[k].CommitEffect?
    ensures HeldFor(Run(xs[..k]), Run(xs[..k + 1]), xs[j].name)
       <==> xs[j].name in Run(xs[..j]).authority || !ProvisionedBetween(xs, j, k)
    ensures HeldFor(Run(xs[..k]), Run(xs[..k + 1]), xs[j].name) ==> Run(xs[..k + 1]).effects == Run(xs[..k]).effects
  {
    hide NAMES, Expected, Apply, Run, RowHolds, HeldFor, ProvisionedBetween;
    InvalidationIsInForce(xs, j, k);
    RunNext(xs, k);
    HoldNamesFailing(Run(xs[..k]), xs[k], xs[j].name);
  }

  /** The row has to be there: a mutation logged before the claim is provisioned holds nothing. */
  lemma MutationBeforeProvisioningIsLost()
    ensures var xs := [Mutate("grant", "revoked"), Provision("claim", "body"), CommitEffect("effect", "claim")];
      "effect" in Run(xs).effects && Mutation("grant", "revoked") in Run(xs).ordering
  {
    var a, b, c := Mutate("grant", "revoked"), Provision("claim", "body"), CommitEffect("effect", "claim");
    assert [a][..0] == [] && [a, b][..1] == [a] && [a, b, c][..2] == [a, b];
    var t := Run([a, b]);
    assert Run([a]) == Tables(map[], map[], map[], [Mutation("grant", "revoked")]);
    assert t.authority == Provisioned(map[], NAMES);
    ProvisionedHolds(map[]);
    NoneFailing(t.authority);
    assert Run([a, b, c]) == Apply(t, c);
    assert Run([a, b, c]).ordering[0] == Mutation("grant", "revoked");
  }

  lemma {:induction false} ProvisionedRows(authority: map<string, string>, names: seq<string>)
    ensures forall name | name in names :: RowHolds(Provisioned(authority, names), name)
  {
    if names != [] {
      var n := |names| - 1;
      ProvisionedRows(authority, names[..n]);
      assert names == names[..n] + [names[n]];
    }
  }

  lemma ProvisionedHolds(authority: map<string, string>)
    ensures AllHold(Provisioned(authority, NAMES))
  {
    ProvisionedRows(authority, NAMES);
  }

  /** Committed effects stay as they are, whatever changes later. */
  lemma {:induction false} EffectsStay(xs: seq<Transaction>, ys: seq<Transaction>, effectId: string)
    requires effectId in Run(xs).effects
    ensures effectId in Run(xs + ys).effects && Run(xs + ys).effects[effectId] == Run(xs).effects[effectId]
  {
    hide Apply;
    if ys == [] {
      assert xs + ys == xs;
    } else {
      var n := |ys| - 1;
      EffectsStay(xs, ys[..n], effectId);
      EffectsAreNotLost(Run(xs + ys[..n]), ys[n], effectId);
      assert (xs + ys)[..|xs + ys| - 1] == xs + ys[..n];
    }
  }
}
