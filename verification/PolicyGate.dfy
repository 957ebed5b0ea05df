/** The deterministic policy gate: first matching rule, its trace, and the fingerprint of its inputs. */
module PolicyGate {
  import opened Text
  import opened CanonicalJson
  import opened Commitments
  import opened EffectIdentity
  import opened Authority

  // ---- inputs --------------------------------------------------------------

  datatype ActionProposal = ActionProposal(
    actionId: string, runId: string, toolName: string, actionType: string, target: string, payload: seq<Field>)
  datatype Frame = Frame(
    actor: string, allowedTools: seq<string>, blockedTools: seq<string>, policyVersion: string)
  datatype AuthorityRecord = AuthorityRecord(runId: string, actor: string, scope: seq<string>, expiresAt: Option<Time>)

  datatype Result = Allow | Block | Escalate

  /** One rule, already evaluated on the inputs. */
  datatype Rule = Rule(name: string, matched: bool, result: Result, reason: string)

  /** A trace entry; a rule that did not match has no result. */
  datatype RuleEvaluation = RuleEvaluation(name: string, matched: bool, result: Option<Result>, reason: string)

  // ---- active scopes -------------------------------------------------------

  predicate Active(a: ActionProposal, f: Frame, r: AuthorityRecord, now: Time) {
    && r.runId == a.runId && r.actor == f.actor
    && (r.expiresAt.Some? ==> now < r.expiresAt.value)
  }

  /** The scopes of active records. A list stands for the set: it is read by membership, and sorted
      without repetition for the fingerprint. */
  function ActiveScopes(a: ActionProposal, f: Frame, records: seq<AuthorityRecord>, now: Time): (r: seq<string>)
    ensures forall s :: s in r <==> exists k | k in records :: Active(a, f, k, now) && s in k.scope
  {
    if records == [] then [] else
      var n := |records| - 1;
      assert records == records[..n] + [records[n]];
      ActiveScopes(a, f, records[..n], now) + (if Active(a, f, records[n], now) then records[n].scope else [])
  }

  method ActiveAuthorityScopes(a: ActionProposal, f: Frame, records: seq<AuthorityRecord>, now: Time)
    returns (scopes: seq<string>)
    ensures scopes == ActiveScopes(a, f, records, now)
  {
    scopes := [];
    for i := 0 to |records|
      invariant scopes == ActiveScopes(a, f, records[..i], now)
    {
      var r := records[i];
      assert records[..i + 1][..i] == records[..i];
      if r.runId != a.runId { continue; }
      if r.actor != f.actor { continue; }
      if r.expiresAt.Some? && r.expiresAt.value <= now { continue; }
      scopes := scopes + r.scope;
    }
    assert records[..|records|] == records;
  }

  // ---- rules ---------------------------------------------------------------

  function BlockedText(tool: string): string {
    "Tool '" + tool + "' is explicitly blocked in this frame."
  }

  function UnknownText(tool: string): string {
    "Tool '" + tool + "' is not in the allowed-tools list and requires manual review."
  }

  function SendText(granted: bool): string {
    if granted then "Authority for 'external_send' is present; action allowed."
    else "Action type 'external_send' requires an authority record with scope 'external_send', which was not found."
  }

  function ReadText(tool: string): string {
    "Tool '" + tool + "' is allowed and action type is 'read'."
  }

  function WriteText(granted: bool): string {
    if granted then "Authority for 'write' is present; action allowed."
    else
      "Action type 'write' requires an authority record with scope 'write', which was not found; escalating for review."
  }

  function DefaultText(actionType: string): string {
    "Action type '" + actionType + "' does not match any explicit allow or block rule; escalating for review."
  }

  function Rules(a: ActionProposal, f: Frame, scopes: seq<string>): seq<Rule> {
    var mayWrite, maySend := "write" in scopes, "external_send" in scopes;
    [Rule("blocked_tool_policy", a.toolName in f.blockedTools, Block, BlockedText(a.toolName)),
     Rule("unknown_tool_policy", a.toolName !in f.allowedTools, Escalate, UnknownText(a.toolName)),
     Rule("external_send_authority_policy", a.actionType == "external_send", if maySend then Allow else Block,
          SendText(maySend)),
     Rule("read_allowed_tool_policy", a.actionType == "read", Allow, ReadText(a.toolName)),
     Rule("write_authority_policy", a.actionType == "write", if mayWrite then Allow else Escalate, WriteText(mayWrite)),
     Rule("default_escalation_policy", true, Escalate, DefaultText(a.actionType))]
  }

  /** The last rule always matches, so evaluation always decides. */
  lemma LastRuleMatches(a: ActionProposal, f: Frame, scopes: seq<string>)
    ensures |Rules(a, f, scopes)| == 6 && Rules(a, f, scopes)[5].matched
  {
    hide BlockedText, UnknownText, SendText, ReadText, WriteText, DefaultText;
  }

  function Entry(r: Rule): RuleEvaluation {
    if r.matched then RuleEvaluation(r.name, true, Some(r.result), r.reason)
    else RuleEvaluation(r.name, false, None, "Rule '" + r.name + "' did not match this action.")
  }

  /** Rule k is the first that matches. */
  ghost predicate First(rules: seq<Rule>, k: nat) {
    k < |rules| && rules[k].matched && forall j | 0 <= j < k :: !rules[j].matched
  }

  datatype Applied = Applied(result: Result, name: string, reason: string, trace: seq<RuleEvaluation>)

  /** Down the list to the first rule that matches, tracing every rule looked at. */
  function Conclude(rules: seq<Rule>): Applied
    requires exists k: nat :: First(rules, k)
  {
    var r := rules[0];
    if r.matched then Applied(r.result, r.name, r.reason, [Entry(r)])
    else
      TailHasFirst(rules);
      var rest := Conclude(rules[1..]);
      rest.(trace := [Entry(r)] + rest.trace)
  }

  lemma TailHasFirst(rules: seq<Rule>)
    requires (exists k: nat :: First(rules, k)) && !rules[0].matched
    ensures exists k: nat :: First(rules[1..], k)
  {
    var k: nat :| First(rules, k);
    assert First(rules[1..], k - 1);
  }

  /** The trace is the rule list up to and including rule k; only its last entry matched. */
  ghost predicate Traces(trace: seq<RuleEvaluation>, rules: seq<Rule>, k: nat) {
    && k < |rules| && |trace| == k + 1
    && (forall j | 0 <= j <= k :: trace[j] == Entry(rules[j]))
    && (forall j | 0 <= j <= k :: trace[j].matched <==> j == k)
  }

  /** The first matching rule decides, and the trace is the list up to it. */
  lemma {:induction false} FirstMatchDecides(rules: seq<Rule>, k: nat)
    requires First(rules, k)
    ensures var d := Conclude(rules);
      && d.result == rules[k].result && d.name == rules[k].name && d.reason == rules[k].reason
      && Traces(d.trace, rules, k)
  {
    if k > 0 {
      assert First(rules[1..], k - 1);
      FirstMatchDecides(rules[1..], k - 1);
      var d, rest := Conclude(rules), Conclude(rules[1..]);
      assert d.trace == [Entry(rules[0])] + rest.trace;
      forall j | 0 <= j <= k ensures d.trace[j] == Entry(rules[j]) && (d.trace[j].matched <==> j == k) {
        if j > 0 { assert rules[j] == rules[1..][j - 1]; }
      }
    }
  }

  lemma SomeRuleIsFirst(rules: seq<Rule>, n: nat)
    requires n < |rules| && rules[n].matched
    ensures exists k: nat :: First(rules, k)
  {
    if k :| 0 <= k < n && rules[k].matched {
      SomeRuleIsFirst(rules, k);
    } else {
      assert First(rules, n);
    }
  }

  function Decided(a: ActionProposal, f: Frame, scopes: seq<string>): Applied {
    LastRuleMatches(a, f, scopes);
    SomeRuleIsFirst(Rules(a, f, scopes), 5);
    Conclude(Rules(a, f, scopes))
  }

  method ApplyRules(a: ActionProposal, f: Frame, scopes: seq<string>) returns (d: Applied)
    ensures d == Decided(a, f, scopes)
  {
    hide Rules;
    var rules := Rules(a, f, scopes);
    LastRuleMatches(a, f, scopes);
    var trace: seq<RuleEvaluation> := [];
    for i := 0 to |rules|
      invariant |trace| == i
      invariant forall j | 0 <= j < i :: !rules[j].matched && trace[j] == Entry(rules[j])
    {
      if rules[i].matched {
        trace := trace + [RuleEvaluation(rules[i].name, true, Some(rules[i].result), rules[i].reason)];
        assert First(rules, i);
        FirstMatchDecides(rules, i);
        assert trace == Decided(a, f, scopes).trace;
        return Applied(rules[i].result, rules[i].name, rules[i].reason, trace);
      }
      trace := trace + [RuleEvaluation(rules[i].name, false, None,
          "Rule '" + rules[i].name + "' did not match this action.")];
    }
    assert false;
  }

  // ---- what the rules decide -----------------------------------------------

  /** The outcome, stated by itself: what is blocked, what is allowed, and escalation otherwise. */
  function Table(a: ActionProposal, f: Frame, scopes: seq<string>): Result {
    var usable := a.toolName !in f.blockedTools && a.toolName in f.allowedTools;
    if a.toolName in f.blockedTools || (usable && a.actionType == "external_send" && "external_send" !in scopes) then
        Block
    else if usable && (a.actionType == "read" || (a.actionType in ["write", "external_send"] && a.actionType in scopes))
    then Allow
    else Escalate
  }

  lemma FirstIsTable(a: ActionProposal, f: Frame, scopes: seq<string>, k: nat)
    requires First(Rules(a, f, scopes), k)
    ensures Rules(a, f, scopes)[k].result == Table(a, f, scopes)
  {
    hide BlockedText, UnknownText, SendText, ReadText, WriteText, DefaultText;
    assert "read"[0] == 'r' && "write"[0] == 'w' && "external_send"[0] == 'e';
    var rules := Rules(a, f, scopes);
    assert k == 0 || k == 1 || k == 2 || k == 3 || k == 4 || k == 5;
    assert k > 0 ==> !rules[0].matched;
    assert k > 1 ==> !rules[1].matched;
    assert k > 2 ==> !rules[2].matched;
    assert k > 3 ==> !rules[3].matched;
    assert k > 4 ==> !rules[4].matched;
  }

  /** The rule list decides as the table says. */
  lemma DecidedIsTable(a: ActionProposal, f: Frame, scopes: seq<string>)
    ensures Decided(a, f, scopes).result == Table(a, f, scopes)
  {
    hide Rules, Table;
    LastRuleMatches(a, f, scopes);
    SomeRuleIsFirst(Rules(a, f, scopes), 5);
    var k: nat :| First(Rules(a, f, scopes), k);
    FirstMatchDecides(Rules(a, f, scopes), k);
    FirstIsTable(a, f, scopes, k);
  }

  /** Each rule's name, in the order they are tried. */
  ghost function RuleName(k: nat): string {
    if k == 0 then "blocked_tool_policy" else if k == 1 then "unknown_tool_policy"
    else if k == 2 then "external_send_authority_policy" else if k == 3 then "read_allowed_tool_policy"
    else if k == 4 then "write_authority_policy" else "default_escalation_policy"
  }

  /** Which rule is the first to match, stated by itself. */
  ghost function FirstRule(a: ActionProposal, f: Frame): nat {
    if a.toolName in f.blockedTools then 0
    else if a.toolName !in f.allowedTools then 1
    else if a.actionType == "external_send" then 2
    else if a.actionType == "read" then 3
    else if a.actionType == "write" then 4
    else 5
  }

  /** The reason of each rule, of the tool or the action type it is about. */
  ghost predicate Explains(a: ActionProposal, scopes: seq<string>, k: nat, reason: string) {
    && (k == 0 ==> reason == BlockedText(a.toolName)) && (k == 1 ==> reason == UnknownText(a.toolName))
    && (k == 2 ==> reason == SendText("external_send" in scopes)) && (k == 3 ==> reason == ReadText(a.toolName))
    && (k == 4 ==> reason == WriteText("write" in scopes)) && (k == 5 ==> reason == DefaultText(a.actionType))
  }

  lemma FirstRuleIsFirst(a: ActionProposal, f: Frame, scopes: seq<string>)
    ensures First(Rules(a, f, scopes), FirstRule(a, f))
    ensures forall k: nat | k < 6 :: Rules(a, f, scopes)[k].name == RuleName(k)
    ensures forall k: nat | k < 6 :: Explains(a, scopes, k, Rules(a, f, scopes)[k].reason)
  {
    hide BlockedText, UnknownText, SendText, ReadText, WriteText, DefaultText;
    assert "read"[0] == 'r' && "write"[0] == 'w' && "external_send"[0] == 'e';
    var rules := Rules(a, f, scopes);
    assert rules[0].name == RuleName(0) && rules[1].name == RuleName(1) && rules[2].name == RuleName(2);
    assert rules[3].name == RuleName(3) && rules[4].name == RuleName(4) && rules[5].name == RuleName(5);
    forall k: nat | k < 6 ensures Explains(a, scopes, k, rules[k].reason) {
      assert k == 0 || k == 1 || k == 2 || k == 3 || k == 4 || k == 5;
    }
  }

  /** The decision names the rule that made it, and the trace the rules tried on the way, of which
      only the last matched. */
  lemma DecisionNamesItsRule(a: ActionProposal, f: Frame, scopes: seq<string>)
    ensures var d, k := Decided(a, f, scopes), FirstRule(a, f);
      && d.name == RuleName(k) && Explains(a, scopes, k, d.reason) && |d.trace| == k + 1
      && forall j | 0 <= j <= k ::
           d.trace[j].name == RuleName(j) && (d.trace[j].matched <==> j == k)
           && d.trace[j].result == if j == k then Some(d.result) else None
  {
    hide Rules, RuleName, FirstRule, Explains;
    LastRuleMatches(a, f, scopes);
    FirstRuleIsFirst(a, f, scopes);
    FirstMatchDecides(Rules(a, f, scopes), FirstRule(a, f));
  }

  // ---- the fingerprint -----------------------------------------------------

  const FINGERPRINT_KEYS := ["tool_name", "action_type", "target", "payload", "allowed_tools", "blocked_tools",
                             "policy_version", "authority_scopes"]

  function FingerprintValues(a: ActionProposal, f: Frame, scopes: seq<string>): (vs: seq<Json>)
    ensures |vs| == 8
  {
    [Str(a.toolName), Str(a.actionType), Str(a.target), Obj(a.payload), StringsJson(Sort(f.allowedTools)),
     StringsJson(Sort(f.blockedTools)), Str(f.policyVersion), StringsJson(SortedSet(scopes))]
  }

  function Fingerprint(hash: Hash, a: ActionProposal, f: Frame, scopes: seq<string>): string {
    hash(Canonical(SPACED, Record(FINGERPRINT_KEYS, FingerprintValues(a, f, scopes))))
  }

  /** The inputs a fingerprint stands for: equal, but for the order of listed tools and of
      dictionary entries and for repeated scopes. */
  ghost predicate SameInputs(a: ActionProposal, f: Frame, s: seq<string>, b: ActionProposal, g: Frame, t: seq<string>) {
    && a.toolName == b.toolName && a.actionType == b.actionType && a.target == b.target
    && Same(Obj(a.payload), Obj(b.payload)) && f.policyVersion == g.policyVersion
    && multiset(f.allowedTools) == multiset(g.allowedTools) && multiset(f.blockedTools) == multiset(g.blockedTools)
    && forall x :: x in s <==> x in t
  }

  lemma ToolsAreSame(xs: seq<string>, ys: seq<string>)
    ensures Same(StringsJson(Sort(xs)), StringsJson(Sort(ys))) <==> multiset(xs) == multiset(ys)
    ensures WellFormed(StringsJson(Sort(xs)))
  {
    StringsAreSame(Sort(xs), Sort(ys));
    SortIsMultiset(xs, ys);
  }

  lemma ScopesAreSame(xs: seq<string>, ys: seq<string>)
    ensures Same(StringsJson(SortedSet(xs)), StringsJson(SortedSet(ys))) <==> forall x :: x in xs <==> x in ys
    ensures WellFormed(StringsJson(SortedSet(xs)))
  {
    StringsAreSame(SortedSet(xs), SortedSet(ys));
    if forall x :: x in xs <==> x in ys {
      assert forall x :: x in SortedSet(xs) <==> x in SortedSet(ys);
      SortedUnique(SortedSet(xs), SortedSet(ys));
    } else {
      var x :| x in xs <==> x !in ys;
      assert x in SortedSet(xs) <==> x !in SortedSet(ys);
    }
  }

  lemma ValuesAreSame(a: ActionProposal, f: Frame, s: seq<string>, b: ActionProposal, g: Frame, t: seq<string>)
    ensures AllSame(FingerprintValues(a, f, s), FingerprintValues(b, g, t)) <==> SameInputs(a, f, s, b, g, t)
    ensures WellFormed(Obj(a.payload)) ==> AllWellFormed(FingerprintValues(a, f, s))
  {
    hide SortedSet, Sort, StringsJson;
    ToolsAreSame(f.allowedTools, g.allowedTools);
    ToolsAreSame(f.blockedTools, g.blockedTools);
    ScopesAreSame(s, t);
    var v, w := FingerprintValues(a, f, s), FingerprintValues(b, g, t);
    if AllSame(v, w) {
      assert Same(v[0], w[0]) && Same(v[1], w[1]) && Same(v[2], w[2]) && Same(v[3], w[3]);
      assert Same(v[4], w[4]) && Same(v[5], w[5]) && Same(v[6], w[6]) && Same(v[7], w[7]);
    }
  }

  lemma FingerprintKeysApart()
    ensures |FINGERPRINT_KEYS| == 8 && Apart(FINGERPRINT_KEYS)
  {
    assert |"tool_name"| == 9 && |"action_type"| == 11 && |"target"| == 6 && |"payload"| == 7;
    assert |"allowed_tools"| == 13 && |"blocked_tools"| == 13 && |"policy_version"| == 14 && |"authority_scopes"| == 16;
    assert "allowed_tools"[0] == 'a' && "blocked_tools"[0] == 'b';
  }

  /** With an injective hash, two evaluations have one fingerprint exactly when their inputs are the same. */
  lemma FingerprintExactly(hash: Hash, a: ActionProposal, f: Frame, s: seq<string>,
                           b: ActionProposal, g: Frame, t: seq<string>)
    requires Injective(hash) && WellFormed(Obj(a.payload)) && WellFormed(Obj(b.payload))
    ensures Fingerprint(hash, a, f, s) == Fingerprint(hash, b, g, t) <==> SameInputs(a, f, s, b, g, t)
  {
    hide FingerprintValues, FINGERPRINT_KEYS, Canonical, SameInputs, Record, AllSame, AllWellFormed;
    var v, w := FingerprintValues(a, f, s), FingerprintValues(b, g, t);
    FingerprintKeysApart();
    ValuesAreSame(a, f, s, b, g, t);
    ValuesAreSame(b, g, t, a, f, s);
    RecordIsWellFormed(FINGERPRINT_KEYS, v);
    RecordIsWellFormed(FINGERPRINT_KEYS, w);
    RecordIsSame(FINGERPRINT_KEYS, v, w);
    CanonicalIdentifies(SPACED, Record(FINGERPRINT_KEYS, v), Record(FINGERPRINT_KEYS, w));
  }

  lemma SameInputsSameRules(a: ActionProposal, f: Frame, s: seq<string>, b: ActionProposal, g: Frame, t: seq<string>)
    requires SameInputs(a, f, s, b, g, t)
    ensures Rules(a, f, s) == Rules(b, g, t)
  {
    hide BlockedText, UnknownText, SendText, ReadText, WriteText, DefaultText, Same;
    assert a.toolName in f.allowedTools <==> a.toolName in multiset(f.allowedTools);
    assert b.toolName in g.allowedTools <==> b.toolName in multiset(g.allowedTools);
    assert a.toolName in f.blockedTools <==> a.toolName in multiset(f.blockedTools);
    assert b.toolName in g.blockedTools <==> b.toolName in multiset(g.blockedTools);
  }

  /** With an injective hash, evaluations with one fingerprint agree in result, rule name, reason
      and rule trace. */
  lemma OneFingerprintOneDecision(hash: Hash, a: ActionProposal, f: Frame, s: seq<string>,
                                  b: ActionProposal, g: Frame, t: seq<string>)
    requires Injective(hash) && WellFormed(Obj(a.payload)) && WellFormed(Obj(b.payload))
    requires Fingerprint(hash, a, f, s) == Fingerprint(hash, b, g, t)
    ensures Decided(a, f, s) == Decided(b, g, t)
  {
    hide Rules, Fingerprint, SameInputs;
    FingerprintExactly(hash, a, f, s, b, g, t);
    SameInputsSameRules(a, f, s, b, g, t);
  }

  // ---- more authority ------------------------------------------------------

  /** Adding authority records, anywhere, or looking earlier never turns allow into anything
      else, and changes another result only into allow. */
  lemma MoreAuthorityOnlyAllows(a: ActionProposal, f: Frame, records: seq<AuthorityRecord>, more: seq<AuthorityRecord>,
                                now: Time, earlier: Time)
    requires earlier <= now && forall r | r in records :: r in more
    ensures var before, after := Table(a, f, ActiveScopes(a, f, records, now)),
        Table(a, f, ActiveScopes(a, f, more, earlier));
      after == before || after == Allow
  {
    var s, t := ActiveScopes(a, f, records, now), ActiveScopes(a, f, more, earlier);
    forall x | x in s ensures x in t {
      var k :| k in records && Active(a, f, k, now) && x in k.scope;
      assert k in more && Active(a, f, k, earlier);
    }
  }

  // ---- evaluation ----------------------------------------------------------

  datatype PolicyDecision = PolicyDecision(
    decisionId: string, actionId: string, runId: string, result: Result, policyName: string, reason: string,
    decidedAt: Time, fingerprint: string, traceId: Option<string>)
  datatype EvaluationTrace = EvaluationTrace(
    traceId: string, runId: string, actionId: string, evaluatedAt: Time, rules: seq<RuleEvaluation>,
        finalResult: Result,
    fingerprint: string)

  function DecisionOf(hash: Hash, a: ActionProposal, f: Frame, records: seq<AuthorityRecord>, now: Time,
                      decisionId: string, traceId: Option<string>): PolicyDecision {
    var scopes := ActiveScopes(a, f, records, now);
    var d := Decided(a, f, scopes);
    PolicyDecision(decisionId, a.actionId, a.runId, d.result, d.name, d.reason, now, Fingerprint(hash, a, f, scopes),
        traceId)
  }

  function TraceOf(hash: Hash, a: ActionProposal, f: Frame, records: seq<AuthorityRecord>, now: Time,
                   traceId: string): EvaluationTrace {
    var scopes := ActiveScopes(a, f, records, now);
    var d := Decided(a, f, scopes);
    EvaluationTrace(traceId, a.runId, a.actionId, now, d.trace, d.result, Fingerprint(hash, a, f, scopes))
  }

  method Evaluate(hash: Hash, a: ActionProposal, f: Frame, records: seq<AuthorityRecord>, now: Time, decisionId: string)
    returns (d: PolicyDecision)
    ensures d == DecisionOf(hash, a, f, records, now, decisionId, None)
    ensures d.result == Table(a, f, ActiveScopes(a, f, records, now))
  {
    hide Decided, Fingerprint, Table;
    var scopes := ActiveAuthorityScopes(a, f, records, now);
    var applied := ApplyRules(a, f, scopes);
    DecidedIsTable(a, f, scopes);
    d := PolicyDecision(decisionId, a.actionId, a.runId, applied.result, applied.name, applied.reason, now,
                        Fingerprint(hash, a, f, scopes), None);
  }

  method EvaluateWithTrace(hash: Hash, a: ActionProposal, f: Frame, records: seq<AuthorityRecord>, now: Time,
                           decisionId: string, traceId: string)
    returns (d: PolicyDecision, t: EvaluationTrace)
    ensures d == DecisionOf(hash, a, f, records, now, decisionId, Some(traceId))
    ensures t == TraceOf(hash, a, f, records, now, traceId)
    ensures t.finalResult == d.result && t.fingerprint == d.fingerprint
    ensures d.result == Table(a, f, ActiveScopes(a, f, records, now))
  {
    hide Decided, Fingerprint, Table;
    var scopes := ActiveAuthorityScopes(a, f, records, now);
    var applied := ApplyRules(a, f, scopes);
    DecidedIsTable(a, f, scopes);
    var fingerprint := Fingerprint(hash, a, f, scopes);
    d := PolicyDecision(decisionId, a.actionId, a.runId, applied.result, applied.name, applied.reason, now,
                        fingerprint, Some(traceId));
    t := EvaluationTrace(traceId, a.runId, a.actionId, now, applied.trace, applied.result, fingerprint);
  }
}
