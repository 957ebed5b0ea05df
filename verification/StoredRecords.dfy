/** The workflow's records in the record file: a step of the workflow is at most one append, and the
    file and every load of it show, list by list, what some run of the workflow has recorded. */
module StoredRecords {
  import opened Text
  import opened CanonicalJson
  import opened Commitments
  import opened Destination
  import opened RunRecords
  import ChangedInputs
  import Reconciliations
  import Resolution
  import Workflow
  import Store = RecordStore
  import RecordFile

  /** The JSON form of each kind of entry, whatever it is. */
  datatype Encoding = Encoding(
    decision: Decision -> Json, refusal: Refusal -> Json, attempt: Attempt -> Json,
    observation: Observation -> Json, reconciliation: Reconciliation -> Json)

  function Each<T>(f: T -> Json, xs: seq<T>): seq<Json> {
    seq(|xs|, i requires 0 <= i < |xs| => f(xs[i]))
  }

  function Shown(enc: Encoding, rs: Records, l: Store.ListName): seq<Json> {
    match l
    case Decisions => Each(enc.decision, rs.decisions)
    case Refusals => Each(enc.refusal, rs.refusals)
    case Attempts => Each(enc.attempt, rs.attempts)
    case Observations => Each(enc.observation, rs.observations)
    case Reconciliations => Each(enc.reconciliation, rs.reconciliations)
  }

  /** The document's five lists are the records, entry by entry. */
  ghost predicate Shows(enc: Encoding, d: Store.Document, rs: Records) {
    forall l: Store.ListName :: Store.Entries(d, l) == Shown(enc, rs, l) && (Store.Key(l) in d ==> d[Store.Key(l)].Arr?)
  }

  // ---- one step, one append ------------------------------------------------

  datatype Recorded =
    | NothingNew
    | NewDecision(decision: Decision)
    | NewRefusal(refusal: Refusal)
    | NewAttempt(attempt: Attempt)
    | NewObservation(observation: Observation)
    | NewReconciliation(reconciliation: Reconciliation)

  function With(rs: Records, n: Recorded): Records {
    match n
    case NothingNew => rs
    case NewDecision(d) => rs.(decisions := rs.decisions + [d])
    case NewRefusal(f) => rs.(refusals := rs.refusals + [f])
    case NewAttempt(a) => rs.(attempts := rs.attempts + [a])
    case NewObservation(o) => rs.(observations := rs.observations + [o])
    case NewReconciliation(r) => rs.(reconciliations := rs.reconciliations + [r])
  }

  /** What the later records add, read off their ends. */
  function Addition(r: Records, q: Records): Recorded {
    if |q.decisions| > |r.decisions| then NewDecision(q.decisions[|q.decisions| - 1])
    else if |q.refusals| > |r.refusals| then NewRefusal(q.refusals[|q.refusals| - 1])
    else if |q.attempts| > |r.attempts| then NewAttempt(q.attempts[|q.attempts| - 1])
    else if |q.observations| > |r.observations| then NewObservation(q.observations[|q.observations| - 1])
    else if |q.reconciliations| > |r.reconciliations| then NewReconciliation(q.reconciliations[|q.reconciliations| - 1])
    else NothingNew
  }

  ghost predicate RecordsOne(s: Workflow.System, n: Workflow.System) {
    n.records == With(s.records, Addition(s.records, n.records))
  }

  lemma ChecksRecordOne(hash: Hash, s: Workflow.System, i: nat, t: Workflow.Task, env: Workflow.Environment)
    requires i < |s.executions|
    ensures RecordsOne(s, Workflow.Start(hash, s, i, t, env))
    ensures t.Execute? ==>
        RecordsOne(s, Workflow.Revalidate(hash, s, i, t, env)) && RecordsOne(s, Workflow.Load(s, i, t))
  {
    hide Resolution.Resolve, Workflow.DecisionFor, Workflow.Presentable, Workflow.RefusalReasons, HasAttempt;
  }

  lemma NotesRecordOne(hash: Hash, s: Workflow.System, i: nat, t: Workflow.Task, env: Workflow.Environment)
    requires i < |s.executions|
    ensures t.Execute? && t.decision.binding.Some? ==>
      forall reasons :: RecordsOne(s, Workflow.Refuse(hash, s, i, t, reasons, env))
    ensures forall a, next :: RecordsOne(s, Workflow.Note(s, i, a, next))
    ensures t.Execute? && t.decision.binding.Some? ==> forall a :: RecordsOne(s, Workflow.Call(s, i, t, a, env))
  {
    hide ChangedInputs.Changed, Workflow.RequestOf, AfterApply, OutcomeOf;
  }

  lemma ObservationsRecordOne(s: Workflow.System, i: nat, t: Workflow.Task, env: Workflow.Environment)
    requires i < |s.executions|
    ensures forall phase :: RecordsOne(s, Workflow.ObserveStep(s, i, t, phase, env))
    ensures forall phase, o, verdict :: RecordsOne(s, Workflow.Accept(s, i, phase, o, verdict))
    ensures forall phase, verdict :: RecordsOne(s, Workflow.Conclude(s, i, t, phase, verdict, env))
  {
    hide Reconciliations.Judged, Reconciliations.Unavailable, Observe, Workflow.Onward;
  }

  /** A step of the workflow records nothing, or one entry at the end of one list. */
  lemma StepRecordsOne(hash: Hash, s: Workflow.System, step: Workflow.Step)
    ensures RecordsOne(s, Workflow.Do(hash, s, step))
  {
    hide Workflow.Start, Workflow.Revalidate, Workflow.Refuse, Workflow.Load, Workflow.ObserveStep, Workflow.Accept;
    hide Workflow.Conclude, Workflow.Note, Workflow.Call;
    if step.Move? && step.execution < |s.executions| {
      var i, t, env := step.execution, s.executions[step.execution].task, step.environment;
      ChecksRecordOne(hash, s, i, t, env);
      NotesRecordOne(hash, s, i, t, env);
      ObservationsRecordOne(s, i, t, env);
    }
  }

  function OperationOf(enc: Encoding, n: Recorded): seq<Store.Operation> {
    match n
    case NothingNew => []
    case NewDecision(d) => [Store.Append(Store.Decisions, enc.decision(d))]
    case NewRefusal(f) => [Store.Append(Store.Refusals, enc.refusal(f))]
    case NewAttempt(a) => [Store.Append(Store.Attempts, enc.attempt(a))]
    case NewObservation(o) => [Store.Append(Store.Observations, enc.observation(o))]
    case NewReconciliation(r) => [Store.Append(Store.Reconciliations, enc.reconciliation(r))]
  }

  function After(hash: Hash, steps: seq<Workflow.Step>): Records {
    Workflow.Run(hash, Workflow.INITIAL, steps).records
  }

  /** The appends a run of the workflow asks of the store, in order. */
  function Appends(enc: Encoding, hash: Hash, steps: seq<Workflow.Step>): (ops: seq<Store.Operation>)
    ensures forall o | o in ops :: o.Append?
  {
    if steps == [] then [] else
      var before := steps[..|steps| - 1];
      Appends(enc, hash, before) + OperationOf(enc, Addition(After(hash, before), After(hash, steps)))
  }

  function ValuesOf(ops: seq<Store.Operation>, l: Store.ListName): seq<Json> {
    if ops == [] then [] else
      var o := ops[|ops| - 1];
      ValuesOf(ops[..|ops| - 1], l) + (if o.Append? && o.list == l then [o.value] else [])
  }

  lemma ValuesMore(ops: seq<Store.Operation>, more: seq<Store.Operation>, l: Store.ListName)
    requires |more| <= 1
    ensures ValuesOf(ops + more, l) == ValuesOf(ops, l) + ValuesOf(more, l)
  {
    if more == [] {
      assert ops + more == ops;
    } else {
      assert (ops + more)[..|ops|] == ops && more[..0] == [];
    }
  }

  lemma EachMore<T>(f: T -> Json, xs: seq<T>, x: T)
    ensures Each(f, xs + [x]) == Each(f, xs) + [f(x)]
  {}

  lemma AdditionShown(enc: Encoding, rs: Records, n: Recorded, l: Store.ListName)
    ensures Shown(enc, With(rs, n), l) == Shown(enc, rs, l) + ValuesOf(OperationOf(enc, n), l)
  {
    hide Each;
    match n
    case NothingNew =>
    case NewDecision(d) => EachMore(enc.decision, rs.decisions, d);
    case NewRefusal(f) => EachMore(enc.refusal, rs.refusals, f);
    case NewAttempt(a) => EachMore(enc.attempt, rs.attempts, a);
    case NewObservation(o) => EachMore(enc.observation, rs.observations, o);
    case NewReconciliation(r) => EachMore(enc.reconciliation, rs.reconciliations, r);
  }

  lemma StepAppends(enc: Encoding, hash: Hash, steps: seq<Workflow.Step>)
    requires steps != []
    ensures var before := steps[..|steps| - 1];
      After(hash, steps) == With(After(hash, before), Addition(After(hash, before), After(hash, steps)))
  {
    hide Workflow.Do, Addition, With;
    var n := |steps| - 1;
    StepRecordsOne(hash, Workflow.Run(hash, Workflow.INITIAL, steps[..n]), steps[n]);
  }

  lemma NothingRecorded(hash: Hash)
    ensures After(hash, []) == NO_RECORDS
  {}

  /** The appends of a run amount to its records. */
  lemma {:induction false} AppendsAreTheRecords(enc: Encoding, hash: Hash, steps: seq<Workflow.Step>, l: Store.ListName)
    ensures ValuesOf(Appends(enc, hash, steps), l) == Shown(enc, After(hash, steps), l)
  {
    hide After, Addition, With;
    if steps == [] {
      NothingRecorded(hash);
    } else {
      hide Shown, ValuesOf;
      var before := steps[..|steps| - 1];
      var n := Addition(After(hash, before), After(hash, steps));
      AppendsAreTheRecords(enc, hash, before, l);
      StepAppends(enc, hash, steps);
      AdditionShown(enc, After(hash, before), n, l);
      ValuesMore(Appends(enc, hash, before), OperationOf(enc, n), l);
    }
  }

  // ---- what the file shows -------------------------------------------------

  /** The appends in a log, in order. */
  function Operations(log: seq<Store.Entry>): seq<Store.Operation> {
    if log == [] then [] else
      var o := log[|log| - 1].operation;
      Operations(log[..|log| - 1]) + (if o.Append? then [o] else [])
  }

  lemma {:induction false} ValuesOfLog(log: seq<Store.Entry>, l: Store.ListName)
    ensures Store.Values(log, l) == ValuesOf(Operations(log), l)
  {
    if log != [] {
      var n := |log| - 1;
      var o := log[n].operation;
      ValuesOfLog(log[..n], l);
      ValuesMore(Operations(log[..n]), if o.Append? then [o] else [], l);
    }
  }

  lemma {:induction false} OperationsPrefix(log: seq<Store.Entry>, n: nat)
    requires n <= |log|
    ensures Operations(log[..n]) <= Operations(log)
  {
    if n < |log| {
      OperationsPrefix(log[..|log| - 1], n);
      assert log[..|log| - 1][..n] == log[..n];
    } else {
      assert log[..n] == log;
    }
  }

  /** Every beginning of a run's appends is the appends of a beginning of the run. */
  lemma {:induction false} SomeBeginning(enc: Encoding, hash: Hash, steps: seq<Workflow.Step>,
      ops: seq<Store.Operation>)
    returns (n: nat)
    requires ops <= Appends(enc, hash, steps)
    ensures n <= |steps| && Appends(enc, hash, steps[..n]) == ops
  {
    hide After, Addition;
    if ops == Appends(enc, hash, steps) {
      n := |steps|;
      assert steps[..n] == steps;
    } else {
      var m := |steps| - 1;
      assert ops <= Appends(enc, hash, steps[..m]);
      n := SomeBeginning(enc, hash, steps[..m], ops);
      assert steps[..m][..n] == steps[..n];
    }
  }

  /** The store logged the appends of this run of the workflow, in their order. */
  ghost predicate Stores(enc: Encoding, hash: Hash, steps: seq<Workflow.Step>, log: seq<Store.Entry>) {
    Operations(log) == Appends(enc, hash, steps)
  }

  /** Nothing is in the five lists at first. */
  ghost predicate Empty(base: Store.File) {
    forall l: Store.ListName :: Store.Initial(base, l) == []
  }

  lemma ReplayShows(schema: Store.Document -> bool, base: Store.File, store: seq<Store.Step>, k: nat,
                    enc: Encoding, hash: Hash, steps: seq<Workflow.Step>)
    returns (n: nat)
    requires Empty(base) && Stores(enc, hash, steps, Store.Run(schema, Store.Beginning(base), store).log)
    requires k <= |Store.Run(schema, Store.Beginning(base), store).log|
    ensures n <= |steps|
    ensures var f := Store.Replay(schema, base, Store.Run(schema, Store.Beginning(base), store).log[..k]);
      f.Holds? ==> forall l: Store.ListName :: Store.Entries(f.document, l) == Shown(enc, After(hash, steps[..n]), l)
    ensures k == |Store.Run(schema, Store.Beginning(base), store).log| ==> n == |steps|
  {
    hide Store.Run, After, Shown, Store.Replay;
    var s := Store.Run(schema, Store.Beginning(base), store);
    Store.RunIsSound(schema, base, store);
    Store.ReplayReflects(schema, base, s, k);
    OperationsPrefix(s.log, k);
    if k == |s.log| {
      n := |steps|;
      assert steps[..n] == steps && s.log[..k] == s.log;
    } else {
      n := SomeBeginning(enc, hash, steps, Operations(s.log[..k]));
    }
    forall l: Store.ListName ensures Store.Values(s.log[..k], l) == Shown(enc, After(hash, steps[..n]), l) {
      ValuesOfLog(s.log[..k], l);
      AppendsAreTheRecords(enc, hash, steps[..n], l);
    }
  }

  ghost predicate ShowsSome(enc: Encoding, hash: Hash, steps: seq<Workflow.Step>, d: Store.Document, n: nat) {
    n <= |steps| && Shows(enc, d, After(hash, steps[..n]))
  }

  ghost predicate SightShows(enc: Encoding, hash: Hash, steps: seq<Workflow.Step>, s: Store.Store, k: nat) {
    k < |s.sights| && exists n: nat :: ShowsSome(enc, hash, steps, s.sights[k].document, n)
  }

  lemma SightIsABeginning(schema: Store.Document -> bool, base: Store.File, store: seq<Store.Step>, k: nat,
                          enc: Encoding, hash: Hash, steps: seq<Workflow.Step>)
    requires Empty(base) && Stores(enc, hash, steps, Store.Run(schema, Store.Beginning(base), store).log)
    requires k < |Store.Run(schema, Store.Beginning(base), store).sights|
    ensures SightShows(enc, hash, steps, Store.Run(schema, Store.Beginning(base), store), k)
  {
    hide Store.Run, After, Shown, Store.Replay, Stores, Empty;
    var s := Store.Run(schema, Store.Beginning(base), store);
    Store.RunIsSound(schema, base, store);
    assert Store.TrueSight(schema, base, s, k);
    var n := ReplayShows(schema, base, store, s.sights[k].after, enc, hash, steps);
    assert ShowsSome(enc, hash, steps, s.sights[k].document, n);
  }

  /** However clients interleave, fail and die: while the log holds the appends of a run of the
      workflow, the file shows that run's records, and every document anyone loaded shows the
      records at some point of it. */
  lemma FileShowsTheRun(schema: Store.Document -> bool, base: Store.File, store: seq<Store.Step>,
                        enc: Encoding, hash: Hash, steps: seq<Workflow.Step>)
    requires Empty(base) && Stores(enc, hash, steps, Store.Run(schema, Store.Beginning(base), store).log)
    ensures var s := Store.Run(schema, Store.Beginning(base), store);
      && (s.file.Holds? ==> forall l: Store.ListName ::
            Store.Entries(s.file.document, l) == Shown(enc, After(hash, steps), l))
      && (forall k: nat | k < |s.sights| :: SightShows(enc, hash, steps, s, k))
  {
    hide Store.Run, After, Shown, Store.Replay, Stores, Empty, SightShows;
    var s := Store.Run(schema, Store.Beginning(base), store);
    Store.RunIsSound(schema, base, store);
    var all := ReplayShows(schema, base, store, |s.log|, enc, hash, steps);
    assert s.log[..|s.log|] == s.log && steps[..all] == steps;
    forall k: nat | k < |s.sights| ensures SightShows(enc, hash, steps, s, k) {
      SightIsABeginning(schema, base, store, k, enc, hash, steps);
    }
  }

  // ---- every run can be stored ---------------------------------------------

  /** One client after another, each left to itself. */
  function Transactions(ops: seq<Store.Operation>): seq<Store.Step> {
    if ops == [] then [] else
      var n := |ops| - 1;
      Transactions(ops[..n]) + ([Store.Arrive(ops[n])] + RecordFile.Moves(n, 7))
  }

  /** Validation accepts a document whose lists are records of the workflow. */
  ghost predicate AcceptsRecords(schema: Store.Document -> bool, enc: Encoding) {
    forall d, rs | Shows(enc, d, rs) :: schema(d)
  }

  ghost predicate Holding(enc: Encoding, s: Store.Store, ops: seq<Store.Operation>, rs: Records) {
    && |s.clients| == |ops| && s.lock.None? && Operations(s.log) == ops
    && s.file.Holds? && Shows(enc, s.file.document, rs)
  }

  lemma AppendShows(enc: Encoding, d: Store.Document, rs: Records, n: Recorded, o: Store.Operation)
    requires Shows(enc, d, rs) && OperationOf(enc, n) == [o]
    ensures Shows(enc, Store.Appended(d, o.list, o.value), With(rs, n))
  {
    hide Shown, Store.Key, Store.Entries, Store.Appended;
    var e := Store.Appended(d, o.list, o.value);
    forall l: Store.ListName
      ensures Store.Entries(e, l) == Shown(enc, With(rs, n), l) && (Store.Key(l) in e ==> e[Store.Key(l)].Arr?)
    {
      AdditionShown(enc, rs, n, l);
      assert [o][..0] == [];
      Store.AppendedEntries(d, o.list, o.value, l);
      AppendKeepsLists(d, o.list, o.value, l);
    }
  }

  lemma AppendKeepsLists(d: Store.Document, m: Store.ListName, v: Json, l: Store.ListName)
    requires Store.Key(l) in d ==> d[Store.Key(l)].Arr?
    ensures var e := Store.Appended(d, m, v); Store.Key(l) in e ==> e[Store.Key(l)].Arr?
  {
    hide Store.Key;
  }

  lemma ArrivalWaits(schema: Store.Document -> bool, s: Store.Store, o: Store.Operation)
    ensures Store.Run(schema, s, [Store.Arrive(o)]) == s.(clients := s.clients + [Store.Client(o, Store.Waiting)])
  {
    assert [Store.Arrive(o)][..0] == [];
  }

  /** One more undisturbed transaction stores one more entry. */
  lemma TransactionStores(schema: Store.Document -> bool, enc: Encoding, s: Store.Store, ops: seq<Store.Operation>,
                          rs: Records, n: Recorded, o: Store.Operation)
    requires AcceptsRecords(schema, enc) && Holding(enc, s, ops, rs) && OperationOf(enc, n) == [o]
    ensures Holding(enc, Store.Run(schema, s, [Store.Arrive(o)] + RecordFile.Moves(|ops|, 7)), ops + [o], With(rs, n))
  {
    hide Store.Run, Shows, RecordFile.Moves, With;
    var i := |ops|;
    var a := s.(clients := s.clients + [Store.Client(o, Store.Waiting)]);
    var t := Store.Run(schema, a, RecordFile.Moves(i, 7));
    ArrivalWaits(schema, s, o);
    Store.RunConcat(schema, s, [Store.Arrive(o)], RecordFile.Moves(i, 7));
    AppendShows(enc, s.file.document, rs, n, o);
    ShowsValidates(schema, enc, s.file.document, rs);
    ShowsValidates(schema, enc, Store.Appended(s.file.document, o.list, o.value), With(rs, n));
    RecordFile.Undisturbed(schema, a, i);
    assert t.log[..|s.log|] == s.log && t.log[|s.log|] == Store.Entry(i, o);
  }

  lemma ShowsValidates(schema: Store.Document -> bool, enc: Encoding, d: Store.Document, rs: Records)
    requires AcceptsRecords(schema, enc) && Shows(enc, d, rs)
    ensures Store.Validates(schema, d)
  {}

  /** Every run of the workflow, whatever it interleaves, has a run of the store that logs its
      appends and leaves its records in the file. */
  lemma {:induction false} EveryRunCanBeStored(schema: Store.Document -> bool, enc: Encoding, runId: string, hash: Hash,
                                               steps: seq<Workflow.Step>)
    requires AcceptsRecords(schema, enc)
    ensures var ops := Appends(enc, hash, steps);
      Holding(enc, Store.Run(schema, Store.Beginning(Store.Holds(Store.Fresh(runId))), Transactions(ops)), ops,
          After(hash, steps))
  {
    hide Store.Run, Store.Fresh, RecordFile.Moves, After, Addition, With, Holding, AcceptsRecords;
    var start := Store.Beginning(Store.Holds(Store.Fresh(runId)));
    if steps == [] {
      NothingStored(schema, enc, runId, hash);
    } else {
      var before := steps[..|steps| - 1];
      var n := Addition(After(hash, before), After(hash, steps));
      var ops := Appends(enc, hash, before);
      EveryRunCanBeStored(schema, enc, runId, hash, before);
      StepAppends(enc, hash, steps);
      if n == NothingNew {
        NothingAdded(After(hash, before));
        assert ops + [] == ops;
      } else {
        var o := OperationOf(enc, n)[0];
        TransactionStores(schema, enc, Store.Run(schema, start, Transactions(ops)), ops, After(hash, before), n, o);
        assert (ops + [o])[..|ops|] == ops;
        Store.RunConcat(schema, start, Transactions(ops), [Store.Arrive(o)] + RecordFile.Moves(|ops|, 7));
      }
    }
  }

  lemma NothingAdded(rs: Records)
    ensures With(rs, NothingNew) == rs
  {}

  lemma NothingStored(schema: Store.Document -> bool, enc: Encoding, runId: string, hash: Hash)
    ensures Holding(enc, Store.Run(schema, Store.Beginning(Store.Holds(Store.Fresh(runId))), []), [], After(hash, []))
  {
    hide After, Store.Entries;
    NothingRecorded(hash);
    forall l: Store.ListName ensures Store.Entries(Store.Fresh(runId), l) == [] { Store.FreshEntries(runId, l); }
    FreshLists(runId);
  }

  lemma FreshLists(runId: string)
    ensures forall l: Store.ListName :: Store.Key(l) in Store.Fresh(runId) ==> Store.Fresh(runId)[Store.Key(l)].Arr?
  {
    assert |"run_id"| == 6;
    forall l: Store.ListName, m: Store.ListName ensures Store.Key(l) == Store.Key(m) <==>
        l == m { Store.KeysApart(l, m); }
  }
}
