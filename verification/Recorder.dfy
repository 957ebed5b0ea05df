/** The run recorder, and the independent validator of what it produces. */
module Recorder {
  import opened Text
  import opened CanonicalJson
  import opened Commitments
  import opened Authority
  import opened PolicyGate

  // ---- records -------------------------------------------------------------

  datatype BlockedAction = BlockedAction(
    blockedId: string, actionId: string, runId: string, reason: string, policyName: string)
  datatype Reliance = Reliance(
    relianceId: string, runId: string, sourceName: string, sourceType: string, scope: string,
    referencedActionId: Option<string>)
  datatype Granted = Granted(authorityId: string, source: string, record: AuthorityRecord)

  /** What a run has recorded; run is None until it is started. */
  datatype RunState = RunState(
    run: Option<string>, task: string, frame: Frame,
    actions: seq<ActionProposal>, decisions: seq<PolicyDecision>, traces: seq<EvaluationTrace>,
    authority: seq<Granted>, reliance: seq<Reliance>, blocked: seq<BlockedAction>,
    completed: bool, finalOutput: Option<string>, bundleId: Option<string>)

  const EMPTY_FRAME := Frame("", [], [], "")
  const NOT_STARTED := RunState(None, "", EMPTY_FRAME, [], [], [], [], [], [], false, None, None)

  // ---- operations ----------------------------------------------------------

  /** Identifiers and instants are what the environment draws. */
  datatype Operation =
    | Start(runId: string, task: string, frame: Frame)
    | AddAuthority(authorityId: string, actor: string, scope: seq<string>, source: string, expiresAt: Option<Time>)
    | Propose(actionId: string, toolName: string, actionType: string, target: string, payload: seq<Field>)
    | Evaluation(action: ActionProposal, includeTrace: bool, now: Time, decisionId: string, traceId: string,
        blockedId: string)
    | Rely(relianceId: string, sourceName: string, sourceType: string, relianceScope: string,
        referencedActionId: Option<string>)
    | Complete(finalOutput: Option<string>)
    | Bundle(bundleId: string)

  predicate Proposed(actions: seq<ActionProposal>, id: string) {
    exists a | a in actions :: a.actionId == id
  }

  function Authorities(gs: seq<Granted>): (r: seq<AuthorityRecord>)
    ensures |r| == |gs| && forall i | 0 <= i < |gs| :: r[i] == gs[i].record
  {
    seq(|gs|, i requires 0 <= i < |gs| => gs[i].record)
  }

  /** Calls the recorder refuses, by raising. */
  predicate Refuses(s: RunState, o: Operation) {
    if o.Start? then false
    else s.run.None? || (o.Evaluation? && (o.action.runId != s.run.value || !Proposed(s.actions, o.action.actionId)))
  }

  function DecisionFor(hash: Hash, s: RunState, o: Operation): PolicyDecision
    requires o.Evaluation?
  {
    DecisionOf(hash, o.action, s.frame, Authorities(s.authority), o.now, o.decisionId,
               if o.includeTrace then Some(o.traceId) else None)
  }

  function Evaluated(hash: Hash, s: RunState, o: Operation): RunState
    requires o.Evaluation? && s.run.Some?
  {
    var d := DecisionFor(hash, s, o);
    s.(traces := if o.includeTrace
                 then s.traces + [TraceOf(hash, o.action, s.frame, Authorities(s.authority), o.now, o.traceId)]
                 else s.traces,
       decisions := s.decisions + [d],
       blocked := if d.result == Block
                  then s.blocked + [BlockedAction(o.blockedId, o.action.actionId, s.run.value, d.reason, d.policyName)]
                  else s.blocked)
  }

  /** A refused call changes nothing. */
  function Apply(hash: Hash, s: RunState, o: Operation): RunState {
    if Refuses(s, o) then s else
      match o
      case Start(runId, task, frame) => s.(run := Some(runId), task := task, frame := frame)
      case AddAuthority(id, actor, scope, source, expiresAt) =>
        s.(authority := s.authority + [Granted(id, source, AuthorityRecord(s.run.value, actor, scope, expiresAt))])
      case Propose(id, tool, kind, target, payload) =>
        s.(actions := s.actions + [ActionProposal(id, s.run.value, tool, kind, target, payload)])
      case Evaluation(_, _, _, _, _, _) => Evaluated(hash, s, o)
      case Rely(id, name, kind, scope, ref) =>
          s.(reliance := s.reliance + [Reliance(id, s.run.value, name, kind, scope, ref)])
      case Complete(output) => s.(completed := true, finalOutput := output)
      case Bundle(id) => s.(bundleId := Some(id))
  }

  function Run(hash: Hash, ops: seq<Operation>): RunState {
    if ops == [] then NOT_STARTED else Apply(hash, Run(hash, ops[..|ops| - 1]), ops[|ops| - 1])
  }

  // ---- the recorder object -------------------------------------------------

  class RunRecorder {
    const hash: Hash
    var run: Option<string>
    var task: string
    var frame: Frame
    var actions: seq<ActionProposal>
    var decisions: seq<PolicyDecision>
    var traces: seq<EvaluationTrace>
    var authority: seq<Granted>
    var reliance: seq<Reliance>
    var blocked: seq<BlockedAction>
    var completed: bool
    var finalOutput: Option<string>
    var bundleId: Option<string>

    ghost function Contents(): RunState
      reads this
    {
      RunState(run, task, frame, actions, decisions, traces, authority, reliance, blocked, completed, finalOutput,
          bundleId)
    }

    constructor (hash: Hash)
      ensures Contents() == NOT_STARTED && this.hash == hash
    {
      this.hash, run, task, frame := hash, None, "", EMPTY_FRAME;
      actions, decisions, traces, authority, reliance, blocked := [], [], [], [], [], [];
      completed, finalOutput, bundleId := false, None, None;
    }

    method StartRun(runId: string, task: string, frame: Frame)
      modifies this
      ensures Contents() == Apply(hash, old(Contents()), Start(runId, task, frame))
    {
      run, this.task, this.frame := Some(runId), task, frame;
    }

    method AddAuthorityRecord(id: string, actor: string, scope: seq<string>, source: string, expiresAt: Option<Time>)
      returns (ok: bool)
      modifies this
      ensures Contents() == Apply(hash, old(Contents()), AddAuthority(id, actor, scope, source, expiresAt))
      ensures ok <==> !Refuses(old(Contents()), AddAuthority(id, actor, scope, source, expiresAt))
    {
      if run.None? { return false; }
      authority := authority + [Granted(id, source, AuthorityRecord(run.value, actor, scope, expiresAt))];
      ok := true;
    }

    method ProposeAction(id: string, tool: string, kind: string, target: string, payload: seq<Field>) returns (ok: bool)
      modifies this
      ensures Contents() == Apply(hash, old(Contents()), Propose(id, tool, kind, target, payload))
      ensures ok <==> !Refuses(old(Contents()), Propose(id, tool, kind, target, payload))
    {
      if run.None? { return false; }
      actions := actions + [ActionProposal(id, run.value, tool, kind, target, payload)];
      ok := true;
    }

    method EvaluateAction(action: ActionProposal, includeTrace: bool, now: Time, decisionId: string, traceId: string,
                          blockedId: string)
      returns (d: Option<PolicyDecision>)
      modifies this
      ensures var o := Evaluation(action, includeTrace, now, decisionId, traceId, blockedId);
        && Contents() == Apply(hash, old(Contents()), o)
        && d == if Refuses(old(Contents()), o) then None else Some(DecisionFor(hash, old(Contents()), o))
    {
      hide DecisionOf, TraceOf;
      if run.None? { return None; }
      if action.runId != run.value { return None; }
      if !Proposed(actions, action.actionId) { return None; }
      var decision;
      if includeTrace {
        var trace;
        decision, trace := EvaluateWithTrace(hash, action, frame, Authorities(authority), now, decisionId, traceId);
        traces := traces + [trace];
      } else {
        decision := Evaluate(hash, action, frame, Authorities(authority), now, decisionId);
      }
      decisions := decisions + [decision];
      if decision.result == Block {
        blocked := blocked
          + [BlockedAction(blockedId, action.actionId, run.value, decision.reason, decision.policyName)];
      }
      d := Some(decision);
    }

    method RecordReliance(id: string, name: string, kind: string, scope: string, ref: Option<string>) returns (ok: bool)
      modifies this
      ensures Contents() == Apply(hash, old(Contents()), Rely(id, name, kind, scope, ref))
      ensures ok <==> !Refuses(old(Contents()), Rely(id, name, kind, scope, ref))
    {
      if run.None? { return false; }
      reliance := reliance + [Reliance(id, run.value, name, kind, scope, ref)];
      ok := true;
    }

    method CompleteRun(output: Option<string>) returns (ok: bool)
      modifies this
      ensures Contents() == Apply(hash, old(Contents()), Complete(output))
      ensures ok <==> !Refuses(old(Contents()), Complete(output))
    {
      if run.None? { return false; }
      completed, finalOutput := true, output;
      ok := true;
    }

    method GenerateReplayBundle(id: string) returns (ok: bool)
      modifies this
      ensures Contents() == Apply(hash, old(Contents()), Bundle(id))
      ensures ok <==> !Refuses(old(Contents()), Bundle(id))
    {
      if run.None? { return false; }
      bundleId := Some(id);
      ok := true;
    }

    method ToRunRecord() returns (r: Option<RunState>)
      ensures r == if run.None? then None else Some(Contents())
    {
      if run.None? { return None; }
      r := Some(RunState(run, task, frame, actions, decisions, traces, authority, reliance, blocked, completed,
                         finalOutput, bundleId));
    }
  }

  // ---- the validator -------------------------------------------------------

  datatype Severity = Error | Warning

  datatype Code =
    | ActionRun | DecisionRun | DecisionAction | DecisionTrace | DecisionFingerprint
    | BlockedRun | BlockedActionMissing | BlockedWithoutDecision | RelianceRun | RelianceAction
    | AuthorityRun | AuthorityActor | TraceRun | TraceAction | MissingFinalOutput

  function SeverityOf(c: Code): Severity {
    if c.AuthorityActor? || c.MissingFinalOutput? then Warning else Error
  }

  /** index is the position of the entry complained of in its list. */
  datatype Issue = Issue(code: Code, index: nat)

  function Complain(bad: bool, code: Code, i: nat): seq<Issue> {
    if bad then [Issue(code, i)] else []
  }

  /** The trace a decision names: the last one recorded under that id. */
  function TraceNamed(traces: seq<EvaluationTrace>, id: string): (r: Option<EvaluationTrace>)
    ensures r.Some? ==> r.value in traces && r.value.traceId == id
    ensures r.None? ==> forall t | t in traces :: t.traceId != id
  {
    if traces == [] then None else
      var n := |traces| - 1;
      assert traces == traces[..n] + [traces[n]];
      if traces[n].traceId == id then Some(traces[n]) else TraceNamed(traces[..n], id)
  }

  datatype Section = Actions | Decisions | BlockedActions | Reliances | Authority | Traces

  function Size(r: RunState, s: Section): nat {
    match s
    case Actions => |r.actions|
    case Decisions => |r.decisions|
    case BlockedActions => |r.blocked|
    case Reliances => |r.reliance|
    case Authority => |r.authority|
    case Traces => |r.traces|
  }

  function DecisionIssues(r: RunState, id: string, i: nat): seq<Issue>
    requires i < |r.decisions|
  {
    var d := r.decisions[i];
    Complain(d.runId != id, DecisionRun, i)
    + Complain(!Proposed(r.actions, d.actionId), DecisionAction, i)
    + (if d.traceId.None? then []
       else match TraceNamed(r.traces, d.traceId.value)
         case None => [Issue(DecisionTrace, i)]
         case Some(t) => Complain(t.fingerprint != d.fingerprint, DecisionFingerprint, i))
  }

  function BlockedIssues(r: RunState, id: string, i: nat): seq<Issue>
    requires i < |r.blocked|
  {
    var b := r.blocked[i];
    Complain(b.runId != id, BlockedRun, i)
    + Complain(!Proposed(r.actions, b.actionId), BlockedActionMissing, i)
    + Complain(!(exists d | d in r.decisions :: d.actionId == b.actionId && d.result == Block), BlockedWithoutDecision,
        i)
  }

  function IssuesAt(r: RunState, id: string, s: Section, i: nat): seq<Issue>
    requires i < Size(r, s)
  {
    match s
    case Actions => Complain(r.actions[i].runId != id, ActionRun, i)
    case Decisions => DecisionIssues(r, id, i)
    case BlockedActions => BlockedIssues(r, id, i)
    case Reliances =>
      var x := r.reliance[i];
      Complain(x.runId != id, RelianceRun, i)
      + Complain(x.referencedActionId.Some? && !Proposed(r.actions, x.referencedActionId.value), RelianceAction, i)
    case Authority =>
      var x := r.authority[i].record;
      Complain(x.runId != id, AuthorityRun, i) + Complain(x.actor != r.frame.actor, AuthorityActor, i)
    case Traces =>
      Complain(r.traces[i].runId != id, TraceRun, i)
      + Complain(!Proposed(r.actions, r.traces[i].actionId), TraceAction, i)
  }

  function IssuesUpTo(r: RunState, id: string, s: Section, n: nat): seq<Issue>
    requires n <= Size(r, s)
  {
    if n == 0 then [] else IssuesUpTo(r, id, s, n - 1) + IssuesAt(r, id, s, n - 1)
  }

  function SectionIssues(r: RunState, id: string, s: Section): seq<Issue> {
    IssuesUpTo(r, id, s, Size(r, s))
  }

  function Issues(r: RunState, id: string): seq<Issue> {
    SectionIssues(r, id, Actions) + SectionIssues(r, id, Decisions) + SectionIssues(r, id, BlockedActions)
    + SectionIssues(r, id, Reliances) + SectionIssues(r, id, Authority) + SectionIssues(r, id, Traces)
    + Complain(r.completed && r.finalOutput.None?, MissingFinalOutput, 0)
  }

  /** No issue of error severity. */
  predicate Passes(issues: seq<Issue>) {
    forall x | x in issues :: SeverityOf(x.code) == Warning
  }

  /** The dictionary of traces by id, in which a later trace replaces an earlier one. */
  ghost predicate IndexesTraces(m: map<string, EvaluationTrace>, traces: seq<EvaluationTrace>) {
    forall id: string :: TraceNamed(traces, id) == (if id in m then Some(m[id]) else None)
  }

  method IndexTraces(traces: seq<EvaluationTrace>) returns (traceById: map<string, EvaluationTrace>)
    ensures IndexesTraces(traceById, traces)
  {
    traceById := map[];
    for i := 0 to |traces|
      invariant IndexesTraces(traceById, traces[..i])
    {
      assert traces[..i + 1][..i] == traces[..i];
      traceById := traceById[traces[i].traceId := traces[i]];
    }
    assert traces[..|traces|] == traces;
  }

  method CheckDecisions(r: RunState, id: string)
      returns (issues: seq<Issue>, byAction: map<string, seq<PolicyDecision>>)
    ensures issues == SectionIssues(r, id, Decisions)
    ensures Groups(byAction, r.decisions)
  {
    hide Proposed, TraceNamed, DecisionIssues, Groups, IndexesTraces;
    issues, byAction := [], map[];
    NoGroups();
    var traceById := IndexTraces(r.traces);
    for i := 0 to |r.decisions|
      invariant issues == IssuesUpTo(r, id, Decisions, i)
      invariant Groups(byAction, r.decisions[..i])
    {
      var d := r.decisions[i];
      assert r.decisions[..i + 1] == r.decisions[..i] + [d];
      var found := CheckDecision(r, id, traceById, i);
      issues := issues + found;
      GroupsGrow(byAction, r.decisions[..i], d);
      byAction := byAction[d.actionId := (if d.actionId in byAction then byAction[d.actionId] else []) + [d]];
    }
    assert r.decisions[..|r.decisions|] == r.decisions;
  }

  method CheckDecision(r: RunState, id: string, traceById: map<string, EvaluationTrace>, i: nat)
      returns (issues: seq<Issue>)
    requires i < |r.decisions| && IndexesTraces(traceById, r.traces)
    ensures issues == DecisionIssues(r, id, i)
  {
    hide Proposed, TraceNamed;
    var d := r.decisions[i];
    issues := [];
    if d.runId != id { issues := issues + [Issue(DecisionRun, i)]; }
    if !Proposed(r.actions, d.actionId) { issues := issues + [Issue(DecisionAction, i)]; }
    if d.traceId.Some? {
      if d.traceId.value !in traceById {
        issues := issues + [Issue(DecisionTrace, i)];
      } else if traceById[d.traceId.value].fingerprint != d.fingerprint {
        issues := issues + [Issue(DecisionFingerprint, i)];
      }
    }
  }

  lemma NoGroups()
    ensures Groups(map[], [])
  {}

  lemma GroupsGrow(m: map<string, seq<PolicyDecision>>, ds: seq<PolicyDecision>, d: PolicyDecision)
    requires Groups(m, ds)
    ensures Groups(m[d.actionId := (if d.actionId in m then m[d.actionId] else []) + [d]], ds + [d])
  {}

  /** Decisions grouped by the action they are about. */
  ghost predicate Groups(byAction: map<string, seq<PolicyDecision>>, ds: seq<PolicyDecision>) {
    && (forall d | d in ds :: d.actionId in byAction && d in byAction[d.actionId])
    && (forall id | id in byAction :: forall d | d in byAction[id] :: d in ds && d.actionId == id)
  }

  method CheckBlocked(r: RunState, id: string, byAction: map<string, seq<PolicyDecision>>) returns (issues: seq<Issue>)
    requires Groups(byAction, r.decisions)
    ensures issues == SectionIssues(r, id, BlockedActions)
  {
    hide Proposed, Groups, BlockedIssues;
    issues := [];
    for i := 0 to |r.blocked|
      invariant issues == IssuesUpTo(r, id, BlockedActions, i)
    {
      var found := CheckBlock(r, id, byAction, i);
      issues := issues + found;
    }
  }

  method CheckBlock(r: RunState, id: string, byAction: map<string, seq<PolicyDecision>>, i: nat)
    returns (issues: seq<Issue>)
    requires i < |r.blocked| && Groups(byAction, r.decisions)
    ensures issues == BlockedIssues(r, id, i)
  {
    hide Proposed, Groups;
    var b := r.blocked[i];
    issues := [];
    if b.runId != id { issues := issues + [Issue(BlockedRun, i)]; }
    if !Proposed(r.actions, b.actionId) { issues := issues + [Issue(BlockedActionMissing, i)]; }
    var matching := if b.actionId in byAction then byAction[b.actionId] else [];
    GroupsFind(byAction, r.decisions, b.actionId);
    if !(exists d | d in matching :: d.result == Block) { issues := issues + [Issue(BlockedWithoutDecision, i)]; }
  }

  lemma GroupsFind(byAction: map<string, seq<PolicyDecision>>, ds: seq<PolicyDecision>, id: string)
    requires Groups(byAction, ds)
    ensures (exists d | d in (if id in byAction then byAction[id] else []) :: d.result == Block)
       <==> (exists d | d in ds :: d.actionId == id && d.result == Block)
  {}

  method CheckSection(r: RunState, id: string, s: Section) returns (issues: seq<Issue>)
    ensures issues == SectionIssues(r, id, s)
  {
    issues := [];
    for i := 0 to Size(r, s)
      invariant issues == IssuesUpTo(r, id, s, i)
    {
      issues := issues + IssuesAt(r, id, s, i);
    }
  }

  // ---- when each issue is raised -------------------------------------------

  ghost predicate NoSuchAction(r: RunState, id: string) {
    forall a | a in r.actions :: a.actionId != id
  }

  /** The last trace recorded under this id. */
  ghost predicate IsLastTrace(traces: seq<EvaluationTrace>, id: string, t: EvaluationTrace) {
    exists k | 0 <= k < |traces| ::
      traces[k] == t && t.traceId == id && forall j | k < j < |traces| :: traces[j].traceId != id
  }

  /** What each code complains of, and in which list the index counts. */
  ghost predicate Complained(r: RunState, id: string, x: Issue) {
    var i := x.index;
    match x.code
    case ActionRun => i < |r.actions| && r.actions[i].runId != id
    case DecisionRun => i < |r.decisions| && r.decisions[i].runId != id
    case DecisionAction => i < |r.decisions| && NoSuchAction(r, r.decisions[i].actionId)
    case DecisionTrace =>
      && i < |r.decisions| && r.decisions[i].traceId.Some?
      && forall t | t in r.traces :: t.traceId != r.decisions[i].traceId.value
    case DecisionFingerprint =>
      && i < |r.decisions| && r.decisions[i].traceId.Some?
      && exists t: EvaluationTrace ::
           IsLastTrace(r.traces, r.decisions[i].traceId.value, t) && t.fingerprint != r.decisions[i].fingerprint
    case BlockedRun => i < |r.blocked| && r.blocked[i].runId != id
    case BlockedActionMissing => i < |r.blocked| && NoSuchAction(r, r.blocked[i].actionId)
    case BlockedWithoutDecision =>
      i < |r.blocked| && forall d | d in r.decisions && d.actionId == r.blocked[i].actionId :: d.result != Block
    case RelianceRun => i < |r.reliance| && r.reliance[i].runId != id
    case RelianceAction =>
      && i < |r.reliance| && r.reliance[i].referencedActionId.Some?
      && NoSuchAction(r, r.reliance[i].referencedActionId.value)
    case AuthorityRun => i < |r.authority| && r.authority[i].record.runId != id
    case AuthorityActor => i < |r.authority| && r.authority[i].record.actor != r.frame.actor
    case TraceRun => i < |r.traces| && r.traces[i].runId != id
    case TraceAction => i < |r.traces| && NoSuchAction(r, r.traces[i].actionId)
    case MissingFinalOutput => i == 0 && r.completed && r.finalOutput.None?
  }

  ghost function SectionOf(c: Code): Option<Section> {
    match c
    case ActionRun => Some(Actions)
    case DecisionRun => Some(Decisions)
    case DecisionAction => Some(Decisions)
    case DecisionTrace => Some(Decisions)
    case DecisionFingerprint => Some(Decisions)
    case BlockedRun => Some(BlockedActions)
    case BlockedActionMissing => Some(BlockedActions)
    case BlockedWithoutDecision => Some(BlockedActions)
    case RelianceRun => Some(Reliances)
    case RelianceAction => Some(Reliances)
    case AuthorityRun => Some(Authority)
    case AuthorityActor => Some(Authority)
    case TraceRun => Some(Traces)
    case TraceAction => Some(Traces)
    case MissingFinalOutput => None
  }

  lemma LastTraceStep(traces: seq<EvaluationTrace>, id: string, t: EvaluationTrace)
    requires traces != []
    ensures var n := |traces| - 1;
      IsLastTrace(traces, id, t) <==>
        if traces[n].traceId == id then t == traces[n] else IsLastTrace(traces[..n], id, t)
  {
    var n := |traces| - 1;
    var earlier := traces[..n];
    assert forall k | 0 <= k < n :: earlier[k] == traces[k];
    if traces[n].traceId == id {
      if t == traces[n] { assert traces[n] == t; }
    } else {
      if IsLastTrace(traces, id, t) {
        var k :| 0 <= k < |traces| && traces[k] == t && t.traceId == id
          && forall j | k < j < |traces| :: traces[j].traceId != id;
        assert earlier[k] == t;
      }
      if IsLastTrace(earlier, id, t) {
        var k :| 0 <= k < n && earlier[k] == t && t.traceId == id && forall j | k < j < n :: earlier[j].traceId != id;
        assert traces[k] == t;
      }
    }
  }

  lemma {:induction false} LastTraceIsNamed(traces: seq<EvaluationTrace>, id: string, t: EvaluationTrace)
    ensures TraceNamed(traces, id) == Some(t) <==> IsLastTrace(traces, id, t)
  {
    if traces != [] {
      hide IsLastTrace;
      LastTraceIsNamed(traces[..|traces| - 1], id, t);
      LastTraceStep(traces, id, t);
    }
  }

  lemma DecisionComplaints(r: RunState, id: string, i: nat, x: Issue)
    requires i < |r.decisions|
    ensures x in DecisionIssues(r, id, i) <==>
      x.index == i && SectionOf(x.code) == Some(Decisions) && Complained(r, id, x)
  {
    hide TraceNamed, IsLastTrace;
    var d := r.decisions[i];
    if d.traceId.Some? {
      var name := d.traceId.value;
      forall t: EvaluationTrace ensures TraceNamed(r.traces, name) == Some(t) <==> IsLastTrace(r.traces, name, t) {
        LastTraceIsNamed(r.traces, name, t);
      }
    }
  }

  lemma ComplaintsAt(r: RunState, id: string, s: Section, i: nat, x: Issue)
    requires i < Size(r, s)
    ensures x in IssuesAt(r, id, s, i) <==> x.index == i && SectionOf(x.code) == Some(s) && Complained(r, id, x)
  {
    hide DecisionIssues, IsLastTrace;
    if s.Decisions? { DecisionComplaints(r, id, i, x); }
  }

  lemma OneMoreAt(r: RunState, id: string, s: Section, n: nat, x: Issue)
    requires 0 < n <= Size(r, s)
    ensures x in IssuesUpTo(r, id, s, n) <==> x in IssuesUpTo(r, id, s, n - 1) || x in IssuesAt(r, id, s, n - 1)
  {
    var before, here := IssuesUpTo(r, id, s, n - 1), IssuesAt(r, id, s, n - 1);
    assert IssuesUpTo(r, id, s, n) == before + here;
    hide IssuesUpTo, IssuesAt;
  }

  lemma {:induction false} ComplaintsUpTo(r: RunState, id: string, s: Section, n: nat, x: Issue)
    requires n <= Size(r, s)
    ensures x in IssuesUpTo(r, id, s, n) <==> x.index < n && SectionOf(x.code) == Some(s) && Complained(r, id, x)
  {
    hide IssuesAt, Complained, SectionOf, Size;
    if n > 0 {
      ComplaintsUpTo(r, id, s, n - 1, x);
      ComplaintsAt(r, id, s, n - 1, x);
      OneMoreAt(r, id, s, n, x);
    }
  }

  lemma SectionComplaints(r: RunState, id: string, s: Section, x: Issue)
    ensures x in SectionIssues(r, id, s) <==> SectionOf(x.code) == Some(s) && Complained(r, id, x)
  {
    ComplaintsUpTo(r, id, s, Size(r, s), x);
    hide IssuesUpTo, IsLastTrace, NoSuchAction;
  }

  /** Of any record, whoever made it: an issue is reported exactly when what its code complains of is so
      at its index. */
  lemma IssuesExactly(r: RunState, id: string, x: Issue)
    ensures x in Issues(r, id) <==> Complained(r, id, x)
  {
    hide SectionIssues, IsLastTrace, NoSuchAction;
    SectionComplaints(r, id, Actions, x);
    SectionComplaints(r, id, Decisions, x);
    SectionComplaints(r, id, BlockedActions, x);
    SectionComplaints(r, id, Reliances, x);
    SectionComplaints(r, id, Authority, x);
    SectionComplaints(r, id, Traces, x);
    SomeSection(x.code);
  }

  lemma SomeSection(c: Code)
    ensures SectionOf(c) == None <==> c == MissingFinalOutput
  {}

  method ValidateRunRecord(r: RunState, id: string) returns (valid: bool, issues: seq<Issue>)
    ensures issues == Issues(r, id)
    ensures forall x :: x in issues <==> Complained(r, id, x)
    ensures valid <==> Passes(issues)
    ensures valid <==> forall x | x in issues :: x.code.AuthorityActor? || x.code.MissingFinalOutput?
  {
    hide SectionIssues, Complained, Passes;
    issues := CheckSection(r, id, Actions);
    var more, byAction := CheckDecisions(r, id);
    issues := issues + more;
    more := CheckBlocked(r, id, byAction);
    issues := issues + more;
    more := CheckSection(r, id, Reliances);
    issues := issues + more;
    more := CheckSection(r, id, Authority);
    issues := issues + more;
    more := CheckSection(r, id, Traces);
    issues := issues + more;
    if r.completed && r.finalOutput.None? { issues := issues + [Issue(MissingFinalOutput, 0)]; }
    forall x: Issue ensures x in Issues(r, id) <==> Complained(r, id, x) { IssuesExactly(r, id, x); }
    assert issues == Issues(r, id);
    hide Issues;
    valid := NoErrors(issues);
  }

  method NoErrors(issues: seq<Issue>) returns (valid: bool)
    ensures valid <==> Passes(issues)
    ensures valid <==> forall x | x in issues :: x.code.AuthorityActor? || x.code.MissingFinalOutput?
  {
    valid := true;
    for i := 0 to |issues|
      invariant valid <==> forall j | 0 <= j < i :: SeverityOf(issues[j].code) == Warning
    {
      if SeverityOf(issues[i].code) == Error { valid := false; }
    }
  }

  // ---- what the recorder keeps ---------------------------------------------

  ghost predicate TracesApart(traces: seq<EvaluationTrace>) {
    forall i, j | 0 <= i < j < |traces| :: traces[i].traceId != traces[j].traceId
  }

  ghost predicate Backed(s: RunState, d: PolicyDecision) {
    d.traceId.Some? ==> exists t | t in s.traces :: t.traceId == d.traceId.value && t.fingerprint == d.fingerprint
  }

  /** Every entry points at what is there. */
  ghost predicate Linked(s: RunState) {
    && (forall d | d in s.decisions :: Proposed(s.actions, d.actionId) && Backed(s, d))
    && (forall t | t in s.traces :: Proposed(s.actions, t.actionId))
    && (forall b | b in s.blocked :: Proposed(s.actions, b.actionId)
          && exists d | d in s.decisions :: d.actionId == b.actionId && d.result == Block)
  }

  /** Every entry carries the given run's id. */
  ghost predicate Carries(s: RunState, id: string) {
    && (forall a | a in s.actions :: a.runId == id)
    && (forall d | d in s.decisions :: d.runId == id)
    && (forall t | t in s.traces :: t.runId == id)
    && (forall b | b in s.blocked :: b.runId == id)
    && (forall x | x in s.reliance :: x.runId == id)
    && (forall g | g in s.authority :: g.record.runId == id)
  }

  ghost predicate Blank(s: RunState) {
    s.actions == [] && s.decisions == [] && s.traces == [] && s.blocked == [] && s.reliance == [] && s.authority == []
  }

  lemma EvaluationLinks(hash: Hash, s: RunState, o: Operation)
    requires o.Evaluation? && s.run.Some? && Linked(s) && !Refuses(s, o)
    ensures Linked(Evaluated(hash, s, o))
  {
    hide Decided, Fingerprint, ActiveScopes;
    var n, d := Evaluated(hash, s, o), DecisionFor(hash, s, o);
    assert d in n.decisions;
    if o.includeTrace {
      var t := n.traces[|s.traces|];
      assert t in n.traces && t.fingerprint == d.fingerprint;
    }
    forall e | e in n.decisions ensures Backed(n, e) {
      if e != d {
        assert Backed(s, e);
        if e.traceId.Some? {
          var t :| t in s.traces && t.traceId == e.traceId.value && t.fingerprint == e.fingerprint;
          assert t in n.traces;
        }
      }
    }
    forall b | b in n.blocked ensures exists e | e in n.decisions :: e.actionId == b.actionId && e.result == Block {
      if b in s.blocked {
        var e :| e in s.decisions && e.actionId == b.actionId && e.result == Block;
        assert e in n.decisions;
      }
    }
  }

  lemma ProposeLinks(hash: Hash, s: RunState, o: Operation)
    requires o.Propose? && s.run.Some? && Linked(s)
    ensures Linked(Apply(hash, s, o))
  {
    var n := Apply(hash, s, o);
    forall id | Proposed(s.actions, id) ensures Proposed(n.actions, id) {
      var a :| a in s.actions && a.actionId == id;
      assert a in n.actions;
    }
    forall d | d in n.decisions ensures Backed(n, d) { assert Backed(s, d); }
  }

  lemma ApplyLinks(hash: Hash, s: RunState, o: Operation)
    requires Linked(s)
    ensures Linked(Apply(hash, s, o))
  {
    if Refuses(s, o) {
    } else if o.Evaluation? {
      hide Evaluated, Linked;
      EvaluationLinks(hash, s, o);
    } else if o.Propose? {
      hide Linked;
      ProposeLinks(hash, s, o);
    } else {
      hide Decided, Fingerprint;
      forall d | d in s.decisions ensures Backed(Apply(hash, s, o), d) { assert Backed(s, d); }
    }
  }

  /** Whatever is called on a recorder, in whatever order and however often it is started, every
      decision, trace and block it records points at what it is about. */
  lemma {:induction false} RunLinks(hash: Hash, ops: seq<Operation>)
    ensures Linked(Run(hash, ops))
  {
    if ops != [] {
      hide Apply, Linked;
      var n := |ops| - 1;
      RunLinks(hash, ops[..n]);
      ApplyLinks(hash, Run(hash, ops[..n]), ops[n]);
    } else {
      assert Linked(NOT_STARTED);
    }
  }

  /** A call that starts nothing keeps whose entries these are. */
  lemma ApplyCarries(hash: Hash, s: RunState, o: Operation)
    requires !o.Start? && s.run.Some?
    ensures Apply(hash, s, o).run == s.run
    ensures Carries(Apply(hash, s, o), s.run.value) <==> Carries(s, s.run.value)
  {
    hide Decided, Fingerprint, ActiveScopes, Proposed;
    var n, id := Apply(hash, s, o), s.run.value;
    assert s.actions <= n.actions && s.decisions <= n.decisions && s.traces <= n.traces && s.blocked <= n.blocked
      && s.reliance <= n.reliance && s.authority <= n.authority;
    if Carries(n, id) { CarriesPart(s, n, id); }
  }

  lemma CarriesPart(s: RunState, n: RunState, id: string)
    requires s.actions <= n.actions && s.decisions <= n.decisions && s.traces <= n.traces && s.blocked <= n.blocked
    requires s.reliance <= n.reliance && s.authority <= n.authority
    requires Carries(n, id)
    ensures Carries(s, id)
  {
    assert forall a | a in s.actions :: a in n.actions;
    assert forall d | d in s.decisions :: d in n.decisions;
    assert forall t | t in s.traces :: t in n.traces;
    assert forall b | b in s.blocked :: b in n.blocked;
    assert forall x | x in s.reliance :: x in n.reliance;
    assert forall g | g in s.authority :: g in n.authority;
  }

  /** k is the last start among the calls. */
  ghost predicate LastStart(ops: seq<Operation>, k: nat) {
    k < |ops| && ops[k].Start? && forall i | k < i < |ops| :: !ops[i].Start?
  }

  /** The record is all of one run exactly when what was there at the last start already was. */
  lemma {:induction false} CarriesSinceStart(hash: Hash, ops: seq<Operation>, k: nat)
    requires LastStart(ops, k)
    ensures Run(hash, ops).run == Some(ops[k].runId)
    ensures Carries(Run(hash, ops), ops[k].runId) <==> Carries(Run(hash, ops[..k]), ops[k].runId)
  {
    hide Apply, Carries;
    var n := |ops| - 1;
    if k == n {
      StartKeepsEntries(hash, Run(hash, ops[..n]), ops[n]);
    } else {
      CarriesSinceStart(hash, ops[..n], k);
      assert ops[..n][..k] == ops[..k];
      ApplyCarries(hash, Run(hash, ops[..n]), ops[n]);
    }
  }

  lemma StartKeepsEntries(hash: Hash, s: RunState, o: Operation)
    requires o.Start?
    ensures Apply(hash, s, o).run == Some(o.runId)
    ensures Carries(Apply(hash, s, o), o.runId) <==> Carries(s, o.runId)
  {}

  // ---- the validator accepts it --------------------------------------------

  lemma TraceNamedIsThat(traces: seq<EvaluationTrace>, t: EvaluationTrace)
    requires TracesApart(traces) && t in traces
    ensures TraceNamed(traces, t.traceId) == Some(t)
  {
    var found := TraceNamed(traces, t.traceId);
    var i :| 0 <= i < |traces| && traces[i] == t;
    var j :| 0 <= j < |traces| && traces[j] == found.value;
    assert i == j;
  }

  /** In a consistent record only a reliance on an unknown action is an error. */
  lemma EntryPasses(s: RunState, id: string, sec: Section, i: nat)
    requires Linked(s) && Carries(s, id) && TracesApart(s.traces) && i < Size(s, sec)
    ensures Passes(IssuesAt(s, id, sec, i)) <==> (sec.Reliances? ==> ReferenceHolds(s, s.reliance[i]))
  {
    match sec
    case Decisions =>
      var d := s.decisions[i];
      assert d in s.decisions && Backed(s, d);
      if d.traceId.Some? {
        var t :| t in s.traces && t.traceId == d.traceId.value && t.fingerprint == d.fingerprint;
        TraceNamedIsThat(s.traces, t);
      }
    case BlockedActions => assert s.blocked[i] in s.blocked;
    case Reliances =>
      assert s.reliance[i] in s.reliance;
      if !ReferenceHolds(s, s.reliance[i]) {
        assert IssuesAt(s, id, sec, i)[0] in IssuesAt(s, id, sec, i);
      }
    case Actions => assert s.actions[i] in s.actions;
    case Authority => assert s.authority[i] in s.authority;
    case Traces => assert s.traces[i] in s.traces;
  }

  predicate ReferenceHolds(s: RunState, x: Reliance) {
    x.referencedActionId.Some? ==> Proposed(s.actions, x.referencedActionId.value)
  }

  lemma {:induction false} SectionPasses(s: RunState, id: string, sec: Section, n: nat)
    requires Linked(s) && Carries(s, id) && TracesApart(s.traces) && n <= Size(s, sec)
    ensures Passes(IssuesUpTo(s, id, sec, n)) <==>
      (sec.Reliances? ==> forall i | 0 <= i < n :: ReferenceHolds(s, s.reliance[i]))
  {
    hide IssuesAt, Linked, Carries, TracesApart, ReferenceHolds;
    if n > 0 {
      SectionPasses(s, id, sec, n - 1);
      EntryPasses(s, id, sec, n - 1);
      PassesBoth(IssuesUpTo(s, id, sec, n - 1), IssuesAt(s, id, sec, n - 1));
    }
  }

  lemma PassesBoth(a: seq<Issue>, b: seq<Issue>)
    ensures Passes(a + b) <==> Passes(a) && Passes(b)
  {
    forall x | x in a || x in b ensures x in a + b {}
  }

  lemma ConsistentPasses(s: RunState, id: string)
    requires Linked(s) && Carries(s, id) && TracesApart(s.traces)
    ensures Passes(Issues(s, id)) <==> forall x | x in s.reliance :: ReferenceHolds(s, x)
  {
    hide Linked, Carries, TracesApart, IssuesUpTo, ReferenceHolds;
    forall sec: Section ensures Passes(SectionIssues(s, id, sec)) <==>
      (sec.Reliances? ==> forall i | 0 <= i < |s.reliance| :: ReferenceHolds(s, s.reliance[i]))
    {
      SectionPasses(s, id, sec, Size(s, sec));
    }
    IssuesPass(s, id);
  }

  lemma IssuesPass(s: RunState, id: string)
    ensures Passes(Issues(s, id)) <==> forall sec: Section :: Passes(SectionIssues(s, id, sec))
  {
    hide SectionIssues;
    AllPass(SectionIssues(s, id, Actions), SectionIssues(s, id, Decisions), SectionIssues(s, id, BlockedActions),
            SectionIssues(s, id, Reliances), SectionIssues(s, id, Authority), SectionIssues(s, id, Traces),
            Complain(s.completed && s.finalOutput.None?, MissingFinalOutput, 0));
    forall sec: Section ensures
      Passes(SectionIssues(s, id, Actions)) && Passes(SectionIssues(s, id, Decisions))
      && Passes(SectionIssues(s, id, BlockedActions)) && Passes(SectionIssues(s, id, Reliances))
      && Passes(SectionIssues(s, id, Authority)) && Passes(SectionIssues(s, id, Traces))
      ==> Passes(SectionIssues(s, id, sec))
    {
      match sec
      case Actions =>
      case Decisions =>
      case BlockedActions =>
      case Reliances =>
      case Authority =>
      case Traces =>
    }
  }

  /** An entry of another run is an error wherever it stands. */
  lemma ForeignEntryFails(s: RunState, id: string, sec: Section, i: nat)
    requires i < Size(s, sec) && !OfRun(s, id, sec, i)
    ensures !Passes(IssuesAt(s, id, sec, i))
  {
    assert IssuesAt(s, id, sec, i)[0] in IssuesAt(s, id, sec, i);
  }

  ghost predicate OfRun(s: RunState, id: string, sec: Section, i: nat)
    requires i < Size(s, sec)
  {
    match sec
    case Actions => s.actions[i].runId == id
    case Decisions => s.decisions[i].runId == id
    case BlockedActions => s.blocked[i].runId == id
    case Reliances => s.reliance[i].runId == id
    case Authority => s.authority[i].record.runId == id
    case Traces => s.traces[i].runId == id
  }

  lemma {:induction false} PassingEntries(s: RunState, id: string, sec: Section, n: nat)
    requires n <= Size(s, sec) && Passes(IssuesUpTo(s, id, sec, n))
    ensures forall i | 0 <= i < n :: OfRun(s, id, sec, i)
  {
    hide IssuesAt, OfRun;
    if n > 0 {
      PassesBoth(IssuesUpTo(s, id, sec, n - 1), IssuesAt(s, id, sec, n - 1));
      PassingEntries(s, id, sec, n - 1);
      if !OfRun(s, id, sec, n - 1) { ForeignEntryFails(s, id, sec, n - 1); }
    }
  }

  lemma PassingCarries(s: RunState, id: string)
    requires Passes(Issues(s, id))
    ensures Carries(s, id)
  {
    hide Issues, IssuesUpTo, Passes;
    IssuesPass(s, id);
    forall sec: Section, i | 0 <= i < Size(s, sec) ensures OfRun(s, id, sec, i) {
      assert Passes(SectionIssues(s, id, sec));
      PassingEntries(s, id, sec, Size(s, sec));
    }
    forall a | a in s.actions ensures a.runId == id {
      var i :| 0 <= i < |s.actions| && s.actions[i] == a;
      assert OfRun(s, id, Actions, i);
    }
    forall d | d in s.decisions ensures d.runId == id {
      var i :| 0 <= i < |s.decisions| && s.decisions[i] == d;
      assert OfRun(s, id, Decisions, i);
    }
    forall t | t in s.traces ensures t.runId == id {
      var i :| 0 <= i < |s.traces| && s.traces[i] == t;
      assert OfRun(s, id, Traces, i);
    }
    forall b | b in s.blocked ensures b.runId == id {
      var i :| 0 <= i < |s.blocked| && s.blocked[i] == b;
      assert OfRun(s, id, BlockedActions, i);
    }
    forall x | x in s.reliance ensures x.runId == id {
      var i :| 0 <= i < |s.reliance| && s.reliance[i] == x;
      assert OfRun(s, id, Reliances, i);
    }
    forall x | x in s.authority ensures x.record.runId == id {
      var i :| 0 <= i < |s.authority| && s.authority[i] == x;
      assert OfRun(s, id, Authority, i);
    }
  }

  lemma AllPass(a: seq<Issue>, b: seq<Issue>, c: seq<Issue>, d: seq<Issue>, e: seq<Issue>, f: seq<Issue>, g: seq<Issue>)
    ensures Passes(a + b + c + d + e + f + g) <==>
      Passes(a) && Passes(b) && Passes(c) && Passes(d) && Passes(e) && Passes(f) && Passes(g)
  {
    hide Passes;
    PassesBoth(a, b);
    PassesBoth(a + b, c);
    PassesBoth(a + b + c, d);
    PassesBoth(a + b + c + d, e);
    PassesBoth(a + b + c + d + e, f);
    PassesBoth(a + b + c + d + e + f, g);
  }

  /** Whatever is called on a recorder, in whatever order and however often it is started, with
      trace ids that differ: the record passes the independent validator exactly when what was
      recorded before the last start, if anything, carries the last start's run id, and every
      reliance refers to no action or to one that was proposed. */
  lemma RecorderSatisfiesValidator(hash: Hash, ops: seq<Operation>, k: nat)
    requires LastStart(ops, k) && TracesApart(Run(hash, ops).traces)
    ensures var s := Run(hash, ops);
      Passes(Issues(s, ops[k].runId)) <==>
        Carries(Run(hash, ops[..k]), ops[k].runId) && forall x | x in s.reliance :: ReferenceHolds(s, x)
  {
    hide Run, Issues, Passes, TracesApart, ReferenceHolds, Carries, Linked;
    var s := Run(hash, ops);
    RunLinks(hash, ops);
    CarriesSinceStart(hash, ops, k);
    if Passes(Issues(s, ops[k].runId)) {
      PassingCarries(s, ops[k].runId);
    }
    if Carries(s, ops[k].runId) {
      ConsistentPasses(s, ops[k].runId);
    }
  }

  /** Each start has a run id of its own. */
  ghost predicate StartsApart(ops: seq<Operation>) {
    forall i, j | 0 <= i < j < |ops| && ops[i].Start? && ops[j].Start? :: ops[i].runId != ops[j].runId
  }

  ghost predicate StartedAs(ops: seq<Operation>, id: string) {
    exists i | 0 <= i < |ops| :: ops[i].Start? && ops[i].runId == id
  }

  /** Every entry carries the id of some start. */
  ghost predicate FromStarts(s: RunState, ops: seq<Operation>) {
    && (s.run.Some? ==> StartedAs(ops, s.run.value))
    && (forall a | a in s.actions :: StartedAs(ops, a.runId))
    && (forall d | d in s.decisions :: StartedAs(ops, d.runId))
    && (forall t | t in s.traces :: StartedAs(ops, t.runId))
    && (forall b | b in s.blocked :: StartedAs(ops, b.runId))
    && (forall x | x in s.reliance :: StartedAs(ops, x.runId))
    && (forall g | g in s.authority :: StartedAs(ops, g.record.runId))
  }

  lemma ApplyFromStarts(hash: Hash, s: RunState, ops: seq<Operation>, o: Operation)
    requires FromStarts(s, ops) && (o.Start? ==> StartedAs(ops, o.runId))
    ensures FromStarts(Apply(hash, s, o), ops)
  {
    hide Decided, Fingerprint, ActiveScopes, Proposed, StartedAs;
  }

  lemma MoreStarts(s: RunState, ops: seq<Operation>, more: seq<Operation>)
    requires FromStarts(s, ops) && ops <= more
    ensures FromStarts(s, more)
  {
    forall id | StartedAs(ops, id) ensures StartedAs(more, id) {
      var i :| 0 <= i < |ops| && ops[i].Start? && ops[i].runId == id;
      assert more[i] == ops[i];
    }
  }

  lemma {:induction false} RunFromStarts(hash: Hash, ops: seq<Operation>)
    ensures FromStarts(Run(hash, ops), ops)
  {
    if ops != [] {
      hide Apply, FromStarts;
      var n := |ops| - 1;
      RunFromStarts(hash, ops[..n]);
      MoreStarts(Run(hash, ops[..n]), ops[..n], ops);
      assert ops[n].Start? ==> StartedAs(ops, ops[n].runId);
      ApplyFromStarts(hash, Run(hash, ops[..n]), ops, ops[n]);
    } else {
      assert FromStarts(NOT_STARTED, []);
    }
  }

  lemma ForeignCarriesNothing(s: RunState, ops: seq<Operation>, id: string)
    requires FromStarts(s, ops) && !StartedAs(ops, id)
    ensures Carries(s, id) <==> Blank(s)
  {
    hide StartedAs;
    SomeOrNone(s.actions);
    SomeOrNone(s.decisions);
    SomeOrNone(s.traces);
    SomeOrNone(s.blocked);
    SomeOrNone(s.reliance);
    SomeOrNone(s.authority);
  }

  lemma SomeOrNone<T>(xs: seq<T>)
    ensures xs == [] || exists x :: x in xs
  {
    if xs != [] { assert xs[0] in xs; }
  }

  /** With a fresh id for each start, that is: nothing at all was recorded before the last one. */
  lemma RestartPassesExactly(hash: Hash, ops: seq<Operation>, k: nat)
    requires LastStart(ops, k) && StartsApart(ops) && TracesApart(Run(hash, ops).traces)
    ensures var s := Run(hash, ops);
      Passes(Issues(s, ops[k].runId)) <==>
        Blank(Run(hash, ops[..k])) && forall x | x in s.reliance :: ReferenceHolds(s, x)
  {
    hide Run, Issues, Passes, TracesApart, ReferenceHolds, Carries, Blank, FromStarts;
    RecorderSatisfiesValidator(hash, ops, k);
    RunFromStarts(hash, ops[..k]);
    forall i | 0 <= i < k ensures !(ops[..k][i].Start? && ops[..k][i].runId == ops[k].runId) {
      assert ops[..k][i] == ops[i];
    }
    ForeignCarriesNothing(Run(hash, ops[..k]), ops[..k], ops[k].runId);
  }

  lemma {:induction false} NothingBeforeAStart(hash: Hash, ops: seq<Operation>)
    requires forall i | 0 <= i < |ops| :: !ops[i].Start?
    ensures Run(hash, ops) == NOT_STARTED
  {
    if ops != [] {
      hide DecisionOf, TraceOf;
      NothingBeforeAStart(hash, ops[..|ops| - 1]);
    }
  }

  /** Started once, the record passes exactly when its reliances refer to what was proposed. */
  lemma OneStartPassesExactly(hash: Hash, ops: seq<Operation>, k: nat)
    requires LastStart(ops, k) && (forall i | 0 <= i < k :: !ops[i].Start?) && TracesApart(Run(hash, ops).traces)
    ensures var s := Run(hash, ops);
      Passes(Issues(s, ops[k].runId)) <==> forall x | x in s.reliance :: ReferenceHolds(s, x)
  {
    hide Run, Issues, Passes, TracesApart, ReferenceHolds;
    NothingBeforeAStart(hash, ops[..k]);
    RecorderSatisfiesValidator(hash, ops, k);
  }

  /** Starting again mid-way leaves entries of the first run behind, and the record fails. */
  lemma SecondStartFails(hash: Hash)
    ensures var ops := [Start("a", "t", EMPTY_FRAME), Propose("p", "tool", "read", "x", []),
        Start("b", "t", EMPTY_FRAME)];
      Run(hash, ops).run == Some("b") && !Passes(Issues(Run(hash, ops), "b"))
  {
    hide Issues, Passes;
    var x, y, z := Start("a", "t", EMPTY_FRAME), Propose("p", "tool", "read", "x", []), Start("b", "t", EMPTY_FRAME);
    var ops := [x, y, z];
    assert [x][..0] == [] && [x, y][..1] == [x] && ops[..2] == [x, y];
    assert Run(hash, [x]) == Apply(hash, NOT_STARTED, x);
    assert Run(hash, [x, y]) == Apply(hash, Run(hash, [x]), y);
    assert Run(hash, ops) == Apply(hash, Run(hash, [x, y]), z);
    assert Run(hash, [x, y]).actions[0].runId == "a" && "a"[0] == 'a' && "b"[0] == 'b';
    RecorderSatisfiesValidator(hash, ops, 2);
  }
}
