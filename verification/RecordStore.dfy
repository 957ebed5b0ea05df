/** The record file and its clients. Each transaction locks, reads, validates, appends, writes a
    temporary file, renames it over the document and unlocks; a client may fail or die between
    any two of these. */
module RecordStore {
  import opened Text
  import opened CanonicalJson

  // ---- documents -----------------------------------------------------------

  /** The whole JSON dictionary, with whatever historical and extension fields it has. */
  type Document = map<string, Json>

  datatype ListName = Decisions | Refusals | Attempts | Observations | Reconciliations

  function Key(l: ListName): string {
    match l
    case Decisions => "decisions"
    case Refusals => "refusals"
    case Attempts => "attempts"
    case Observations => "observations"
    case Reconciliations => "reconciliations"
  }

  /** The part of validation this protocol leans on: a list that is there is a list. The rest of
      the schema is an arbitrary condition. */
  predicate Validates(schema: Document -> bool, d: Document) {
    && (forall l: ListName :: Key(l) in d ==> d[Key(l)].Arr?)
    && schema(d)
  }

  /** setdefault(field, []).append(value) */
  function Appended(d: Document, l: ListName, v: Json): Document {
    d[Key(l) := Arr((if Key(l) in d && d[Key(l)].Arr? then d[Key(l)].items else []) + [v])]
  }

  function Fresh(runId: string): Document {
    map["run_id" := Str(runId), "decisions" := Arr([]), "refusals" := Arr([]), "attempts" := Arr([]),
        "observations" := Arr([]), "reconciliations" := Arr([])]
  }

  function Entries(d: Document, l: ListName): seq<Json> {
    if Key(l) in d && d[Key(l)].Arr? then d[Key(l)].items else []
  }

  datatype File = Missing | Garbled(text: string) | Holds(document: Document)

  predicate Readable(schema: Document -> bool, f: File) {
    f.Holds? && Validates(schema, f.document)
  }

  // ---- the machine ---------------------------------------------------------

  datatype Operation = Open(runId: string) | Load | Append(list: ListName, value: Json)

  datatype Outcome = Returned(loaded: Option<Document>) | Failed | Died

  datatype Phase =
    | Waiting
    | Locked
    | Read(document: Document)
    | Composed(document: Document)
    | Writing(document: Document)
    | Written(document: Document)
    | Renamed
    | Over(outcome: Outcome)

  datatype Client = Client(operation: Operation, phase: Phase)

  datatype Temporary = Partial | Complete(document: Document)

  /** A rename that happened, and a document that was read, with the number of renames before it. */
  datatype Entry = Entry(client: nat, operation: Operation)
  datatype Sight = Sight(client: nat, after: nat, document: Document)

  datatype Store = Store(
    file: File, lock: Option<nat>, temporaries: map<nat, Temporary>, clients: seq<Client>,
    log: seq<Entry>, sights: seq<Sight>)

  datatype Step = Arrive(operation: Operation) | Move(client: nat, fails: bool) | Crash(client: nat)

  function Beginning(file: File): Store {
    Store(file, None, map[], [], [], [])
  }

  function Place(s: Store, i: nat, p: Phase): Store
    requires i < |s.clients|
  {
    s.(clients := s.clients[i := s.clients[i].(phase := p)])
  }

  /** Close the descriptor, which releases the lock, and drop the client's temporary file. */
  function Leave(s: Store, i: nat, o: Outcome): Store
    requires i < |s.clients|
  {
    Place(s, i, Over(o)).(lock := None, temporaries := s.temporaries - {i})
  }

  function ReadStep(schema: Document -> bool, s: Store, i: nat): Store
    requires i < |s.clients|
  {
    if s.clients[i].operation.Open? && s.file.Missing? then
      Place(s, i, Composed(Fresh(s.clients[i].operation.runId)))
    else if Readable(schema, s.file) then
      Place(s, i, Read(s.file.document)).(sights := s.sights + [Sight(i, |s.log|, s.file.document)])
    else Leave(s, i, Failed)
  }

  function UseStep(schema: Document -> bool, s: Store, i: nat, d: Document): Store
    requires i < |s.clients|
  {
    match s.clients[i].operation
    case Open(_) => Leave(s, i, Returned(None))
    case Load => Leave(s, i, Returned(Some(d)))
    case Append(l, v) =>
      if Validates(schema, Appended(d, l, v)) then Place(s, i, Composed(Appended(d, l, v))) else Leave(s, i, Failed)
  }

  function RenameStep(s: Store, i: nat): Store
    requires i < |s.clients|
  {
    if i in s.temporaries && s.temporaries[i].Complete? then
      Place(s, i, Renamed)
      .(file := Holds(s.temporaries[i].document), temporaries := s.temporaries - {i},
        log := s.log + [Entry(i, s.clients[i].operation)])
    else Leave(s, i, Failed)
  }

  function Advance(schema: Document -> bool, s: Store, i: nat, fails: bool): Store
    requires i < |s.clients|
  {
    match s.clients[i].phase
    case Waiting => if s.lock.None? then Place(s, i, Locked).(lock := Some(i)) else s
    case Over(_) => s
    case Renamed => Leave(s, i, if fails then Failed else Returned(None))
    case phase =>
      if fails then Leave(s, i, Failed) else
        match phase
        case Locked => ReadStep(schema, s, i)
        case Read(d) => UseStep(schema, s, i, d)
        case Composed(d) => Place(s, i, Writing(d)).(temporaries := s.temporaries[i := Partial])
        case Writing(d) => Place(s, i, Written(d)).(temporaries := s.temporaries[i := Complete(d)])
        case _ => RenameStep(s, i)
  }

  /** A process that dies loses its lock and leaves its temporary file behind. */
  function Die(s: Store, i: nat): Store
    requires i < |s.clients|
  {
    if s.clients[i].phase.Over? then s
    else Place(s, i, Over(Died)).(lock := if s.lock == Some(i) then None else s.lock)
  }

  function Do(schema: Document -> bool, s: Store, step: Step): Store {
    match step
    case Arrive(o) => s.(clients := s.clients + [Client(o, Waiting)])
    case Move(i, fails) => if i < |s.clients| then Advance(schema, s, i, fails) else s
    case Crash(i) => if i < |s.clients| then Die(s, i) else s
  }

  function Run(schema: Document -> bool, s: Store, steps: seq<Step>): Store {
    if steps == [] then s else Do(schema, Run(schema, s, steps[..|steps| - 1]), steps[|steps| - 1])
  }

  lemma {:induction false} RunConcat(schema: Document -> bool, s: Store, a: seq<Step>, b: seq<Step>)
    ensures Run(schema, s, a + b) == Run(schema, Run(schema, s, a), b)
  {
    if b == [] {
      assert a + b == a;
    } else {
      var n := |b| - 1;
      RunConcat(schema, s, a, b[..n]);
      assert (a + b)[..|a + b| - 1] == a + b[..n];
    }
  }

  // ---- the atomic log it refines -------------------------------------------

  /** The simple store: one entry takes effect at once, where it can. */
  function Apply(schema: Document -> bool, f: File, o: Operation): File {
    match o
    case Open(runId) => if f.Missing? then Holds(Fresh(runId)) else f
    case Load => f
    case Append(l, v) =>
      if Readable(schema, f) && Validates(schema, Appended(f.document, l, v))
      then Holds(Appended(f.document, l, v)) else f
  }

  function Replay(schema: Document -> bool, base: File, log: seq<Entry>): File {
    if log == [] then base
    else Apply(schema, Replay(schema, base, log[..|log| - 1]), log[|log| - 1].operation)
  }

  predicate Inside(p: Phase) {
    !p.Waiting? && !p.Over?
  }

  /** The document a client is about to put in place is the atomic result of its operation. */
  predicate Composes(schema: Document -> bool, f: File, o: Operation, d: Document) {
    || (o.Open? && f.Missing? && d == Fresh(o.runId))
    || (o.Append? && Readable(schema, f) && d == Appended(f.document, o.list, o.value) && Validates(schema, d))
  }

  ghost predicate InOrder(schema: Document -> bool, s: Store, i: nat)
    requires i < |s.clients|
  {
    var c := s.clients[i];
    && (Inside(c.phase) <==> s.lock == Some(i))
    && (c.phase.Read? ==> s.file == Holds(c.phase.document) && Readable(schema, s.file))
    && (c.phase.Composed? || c.phase.Writing? || c.phase.Written? ==>
          Composes(schema, s.file, c.operation, c.phase.document))
    && (c.phase.Written? ==> i in s.temporaries && s.temporaries[i] == Complete(c.phase.document))
  }

  /** How often client i's operation was renamed into place. */
  ghost function Count(log: seq<Entry>, i: nat): nat {
    if log == [] then 0 else Count(log[..|log| - 1], i) + (if log[|log| - 1].client == i then 1 else 0)
  }

  ghost predicate Counted(s: Store, i: nat)
    requires i < |s.clients|
  {
    var c := s.clients[i];
    match c.phase
    case Renamed => Count(s.log, i) == 1 && !c.operation.Load?
    case Over(Returned(_)) =>
      && (c.operation.Append? ==> Count(s.log, i) == 1) && (c.operation.Load? ==> Count(s.log, i) == 0)
      && Count(s.log, i) <= 1
    case Over(_) => Count(s.log, i) <= 1 && (c.operation.Load? ==> Count(s.log, i) == 0)
    case _ => Count(s.log, i) == 0
  }

  /** Entry k took effect on the document it was composed from. */
  ghost predicate Effective(schema: Document -> bool, base: File, s: Store, k: nat)
    requires k < |s.log|
  {
    var e, f := s.log[k], Replay(schema, base, s.log[..k]);
    && e.client < |s.clients| && s.clients[e.client].operation == e.operation
    && (exists d :: Composes(schema, f, e.operation, d))
  }

  ghost predicate TrueSight(schema: Document -> bool, base: File, s: Store, k: nat)
    requires k < |s.sights|
  {
    && s.sights[k].after <= |s.log|
    && Replay(schema, base, s.log[..s.sights[k].after]) == Holds(s.sights[k].document)
    && Validates(schema, s.sights[k].document)
  }

  ghost predicate Sound(schema: Document -> bool, base: File, s: Store) {
    && s.file == Replay(schema, base, s.log)
    && (forall i | 0 <= i < |s.clients| :: InOrder(schema, s, i) && Counted(s, i))
    && (s.lock.Some? ==> s.lock.value < |s.clients|)
    && (forall k | 0 <= k < |s.log| :: Effective(schema, base, s, k))
    && (forall k | 0 <= k < |s.sights| :: TrueSight(schema, base, s, k))
    && (forall j, k | 0 <= j < k < |s.sights| :: s.sights[j].after <= s.sights[k].after)
  }

  // ---- one step ------------------------------------------------------------

  /** A step that renames nothing: the lock, phases, temporaries and sights may change. */
  ghost predicate Quiet(s: Store, n: Store) {
    && n.file == s.file && n.log == s.log
    && |s.clients| <= |n.clients|
    && (forall i | 0 <= i < |s.clients| :: n.clients[i].operation == s.clients[i].operation)
  }

  lemma QuietKeepsLog(schema: Document -> bool, base: File, s: Store, n: Store)
    requires Sound(schema, base, s) && Quiet(s, n)
    ensures forall k | 0 <= k < |n.log| :: Effective(schema, base, n, k)
  {
    forall k | 0 <= k < |n.log| ensures Effective(schema, base, n, k) {
      assert Effective(schema, base, s, k);
    }
  }

  lemma QuietKeepsSights(schema: Document -> bool, base: File, s: Store, n: Store)
    requires Sound(schema, base, s) && Quiet(s, n)
    requires s.sights <= n.sights && |n.sights| <= |s.sights| + 1
    requires |n.sights| > |s.sights| ==>
      && n.sights[|s.sights|].after == |n.log|
      && Readable(schema, n.file) && n.sights[|s.sights|].document == n.file.document
    ensures forall k | 0 <= k < |n.sights| :: TrueSight(schema, base, n, k)
    ensures forall j, k | 0 <= j < k < |n.sights| :: n.sights[j].after <= n.sights[k].after
  {
    forall k | 0 <= k < |n.sights| ensures TrueSight(schema, base, n, k) {
      if k < |s.sights| {
        assert TrueSight(schema, base, s, k);
      } else {
        assert n.log[..|n.log|] == n.log;
      }
    }
    forall j, k | 0 <= j < k < |n.sights| ensures n.sights[j].after <= n.sights[k].after {
      assert TrueSight(schema, base, n, j);
    }
  }

  ghost predicate Renames(schema: Document -> bool, s: Store, n: Store, i: nat) {
    && i < |s.clients| && s.lock == Some(i) && n.lock == Some(i)
    && n.clients == s.clients[i := s.clients[i].(phase := Renamed)] && s.clients[i].phase.Written?
    && n.log == s.log + [Entry(i, s.clients[i].operation)]
    && n.sights == s.sights
    && Composes(schema, s.file, s.clients[i].operation, s.clients[i].phase.document)
    && n.file == Holds(s.clients[i].phase.document)
    && (forall j | j in s.temporaries && j != i :: j in n.temporaries && n.temporaries[j] == s.temporaries[j])
  }

  lemma RenameIsSound(schema: Document -> bool, base: File, s: Store, n: Store, i: nat)
    requires Sound(schema, base, s) && Renames(schema, s, n, i)
    ensures Sound(schema, base, n)
  {
    assert n.log[..|s.log|] == s.log;
    assert InOrder(schema, s, i) && Counted(s, i);
    forall k | 0 <= k < |n.log| ensures Effective(schema, base, n, k) {
      if k < |s.log| {
        assert Effective(schema, base, s, k);
        assert n.log[..k] == s.log[..k];
      }
    }
    forall k | 0 <= k < |n.sights| ensures TrueSight(schema, base, n, k) {
      assert TrueSight(schema, base, s, k);
      assert n.log[..n.sights[k].after] == s.log[..n.sights[k].after];
    }
    forall j | 0 <= j < |n.clients| ensures InOrder(schema, n, j) && Counted(n, j) {
      assert InOrder(schema, s, j) && Counted(s, j);
    }
  }

  lemma AdvanceShape(schema: Document -> bool, s: Store, i: nat, fails: bool)
    requires i < |s.clients| && InOrder(schema, s, i)
    ensures Quiet(s, Advance(schema, s, i, fails)) || Renames(schema, s, Advance(schema, s, i, fails), i)
  {}

  /** What client i's own steps leave alone. */
  ghost predicate Aside(s: Store, n: Store, i: nat) {
    && |n.clients| >= |s.clients|
    && (forall j | 0 <= j < |s.clients| && j != i :: n.clients[j] == s.clients[j])
    && (n.lock == s.lock || (s.lock in {None, Some(i)} && n.lock in {None, Some(i)}))
    && (forall j | j in s.temporaries && j != i :: j in n.temporaries && n.temporaries[j] == s.temporaries[j])
  }

  lemma ReadIsAside(schema: Document -> bool, s: Store, i: nat, d: Document)
    requires i < |s.clients| && s.lock == Some(i)
    ensures Aside(s, ReadStep(schema, s, i), i) && Aside(s, UseStep(schema, s, i, d), i)
        && Aside(s, RenameStep(s, i), i)
  {
    hide Readable, Validates, Fresh, Appended;
  }

  lemma MoveIsAside(schema: Document -> bool, s: Store, i: nat, fails: bool)
    requires i < |s.clients| && InOrder(schema, s, i)
    ensures Aside(s, Advance(schema, s, i, fails), i)
  {
    hide Composes, Readable, ReadStep, UseStep, RenameStep;
    if Inside(s.clients[i].phase) {
      ReadIsAside(schema, s, i, if s.clients[i].phase.Read? then s.clients[i].phase.document else map[]);
    }
  }

  lemma StepIsAside(schema: Document -> bool, s: Store, step: Step, i: nat)
    requires match step
      case Arrive(_) => i == |s.clients|
      case Move(k, _) => i == k && (i < |s.clients| ==> InOrder(schema, s, i))
      case Crash(k) => i == k && (i < |s.clients| ==> InOrder(schema, s, i))
    ensures Aside(s, Do(schema, s, step), i)
  {
    hide Composes, Readable, Advance;
    if step.Move? && i < |s.clients| { MoveIsAside(schema, s, i, step.fails); }
  }

  lemma OthersInOrder(schema: Document -> bool, s: Store, n: Store, i: nat, j: nat)
    requires Quiet(s, n) && Aside(s, n, i) && j < |s.clients| && j != i && InOrder(schema, s, j) && Counted(s, j)
    ensures InOrder(schema, n, j) && Counted(n, j)
  {
    hide Composes, Readable;
  }

  lemma MoverInOrder(schema: Document -> bool, s: Store, i: nat, fails: bool)
    requires i < |s.clients| && InOrder(schema, s, i) && Counted(s, i)
    requires Quiet(s, Advance(schema, s, i, fails))
    ensures InOrder(schema, Advance(schema, s, i, fails), i) && Counted(Advance(schema, s, i, fails), i)
  {
    hide Validates, Fresh, Appended, Count;
  }

  lemma CrashedInOrder(schema: Document -> bool, s: Store, i: nat)
    requires i < |s.clients| && InOrder(schema, s, i) && Counted(s, i)
    ensures InOrder(schema, Die(s, i), i) && Counted(Die(s, i), i)
  {
    hide Composes, Readable, Count;
  }

  lemma ArrivedInOrder(schema: Document -> bool, base: File, s: Store, o: Operation)
    requires Sound(schema, base, s)
    ensures var n := Do(schema, s, Arrive(o)); InOrder(schema, n, |s.clients|) && Counted(n, |s.clients|)
  {
    hide Composes, Readable, Count, Replay;
    NobodysCount(schema, base, s, |s.clients|);
    assert s.lock != Some(|s.clients|);
  }

  lemma QuietIsSound(schema: Document -> bool, base: File, s: Store, n: Store, step: Step)
    requires Sound(schema, base, s) && n == Do(schema, s, step) && Quiet(s, n)
    ensures Sound(schema, base, n)
  {
    hide Replay, Advance, Die, InOrder, Counted, Effective, TrueSight;
    var i := match step case Arrive(_) => |s.clients| case Move(k, _) => k case Crash(k) => k;
    if i < |s.clients| { assert InOrder(schema, s, i) && Counted(s, i); }
    StepIsAside(schema, s, step, i);
    NewSights(schema, s, step);
    QuietKeepsLog(schema, base, s, n);
    QuietKeepsSights(schema, base, s, n);
    ClientsStay(schema, s, step);
    forall j | 0 <= j < |n.clients| ensures InOrder(schema, n, j) && Counted(n, j) {
      if j < |s.clients| { assert InOrder(schema, s, j) && Counted(s, j); }
      if step.Arrive? && j == |s.clients| { ArrivedInOrder(schema, base, s, step.operation); }
      else if j != i { OthersInOrder(schema, s, n, i, j); }
      else if step.Crash? { CrashedInOrder(schema, s, i); }
      else { MoverInOrder(schema, s, i, step.fails); }
    }
  }

  lemma ClientsStay(schema: Document -> bool, s: Store, step: Step)
    ensures |Do(schema, s, step).clients| == |s.clients| + (if step.Arrive? then 1 else 0)
    ensures var n := Do(schema, s, step); n.lock.Some? ==> n.lock == s.lock || n.lock.value < |n.clients|
  {
    hide Readable, Validates, Fresh, Appended;
  }

  lemma NewSights(schema: Document -> bool, s: Store, step: Step)
    ensures var n := Do(schema, s, step);
      && s.sights <= n.sights && |n.sights| <= |s.sights| + 1
      && (|n.sights| > |s.sights| ==>
            && n.sights[|s.sights|].after == |n.log|
            && Readable(schema, n.file) && n.sights[|s.sights|].document == n.file.document)
  {
    hide Validates, Fresh, Appended;
  }

  lemma {:induction false} UnknownCount(log: seq<Entry>, i: nat)
    requires forall k | 0 <= k < |log| :: log[k].client != i
    ensures Count(log, i) == 0
  {
    if log != [] { UnknownCount(log[..|log| - 1], i); }
  }

  lemma NobodysCount(schema: Document -> bool, base: File, s: Store, i: nat)
    requires Sound(schema, base, s) && i >= |s.clients|
    ensures Count(s.log, i) == 0
  {
    forall k | 0 <= k < |s.log| ensures s.log[k].client != i { assert Effective(schema, base, s, k); }
    UnknownCount(s.log, i);
  }

  lemma StepIsSound(schema: Document -> bool, base: File, s: Store, step: Step)
    requires Sound(schema, base, s)
    ensures Sound(schema, base, Do(schema, s, step))
  {
    var n := Do(schema, s, step);
    if step.Move? && step.client < |s.clients| {
      assert InOrder(schema, s, step.client);
      AdvanceShape(schema, s, step.client, step.fails);
    }
    hide Do, Sound, Renames;
    if step.Move? && Renames(schema, s, n, step.client) {
      RenameIsSound(schema, base, s, n, step.client);
    } else {
      QuietIsSound(schema, base, s, n, step);
    }
  }

  lemma {:induction false} RunIsSound(schema: Document -> bool, base: File, steps: seq<Step>)
    ensures Sound(schema, base, Run(schema, Beginning(base), steps))
  {
    if steps != [] {
      hide Do, Sound;
      var n := |steps| - 1;
      RunIsSound(schema, base, steps[..n]);
      StepIsSound(schema, base, Run(schema, Beginning(base), steps[..n]), steps[n]);
    } else {
      assert Sound(schema, base, Beginning(base));
    }
  }

  // ---- what the log says about the document --------------------------------

  lemma KeysApart(l: ListName, m: ListName)
    ensures Key(l) == Key(m) <==> l == m
  {
    assert |"decisions"| == 9 && |"observations"| == 12 && |"reconciliations"| == 15;
    assert "refusals"[0] == 'r' && "attempts"[0] == 'a';
  }

  /** What the log appended to one list, in order. */
  function Values(log: seq<Entry>, l: ListName): seq<Json> {
    if log == [] then [] else
      var o := log[|log| - 1].operation;
      Values(log[..|log| - 1], l) + (if o.Append? && o.list == l then [o.value] else [])
  }

  function Initial(base: File, l: ListName): seq<Json> {
    if base.Holds? then Entries(base.document, l) else []
  }

  ghost predicate IsListKey(k: string) {
    exists l: ListName :: k == Key(l)
  }

  /** The document is the initial one with the log's values added to its lists; every other
      field is as the initial document, or a fresh one, has it. */
  ghost predicate Reflects(base: File, log: seq<Entry>, f: File) {
    if f.Holds? then
      && (forall l: ListName :: Entries(f.document, l) == Initial(base, l) + Values(log, l))
      && (base.Holds? ==> forall k: string | !IsListKey(k) ::
            (k in f.document <==> k in base.document) && (k in f.document ==> f.document[k] == base.document[k]))
    else f == base && log == []
  }

  lemma AppendedEntries(d: Document, l: ListName, v: Json, m: ListName)
    requires Key(l) in d ==> d[Key(l)].Arr?
    ensures Entries(Appended(d, l, v), m) == Entries(d, m) + (if l == m then [v] else [])
  {
    KeysApart(l, m);
  }

  lemma FreshEntries(runId: string, l: ListName)
    ensures Entries(Fresh(runId), l) == []
  {
    assert |"run_id"| == 6;
    forall m: ListName ensures Key(l) == Key(m) <==> l == m { KeysApart(l, m); }
  }

  lemma EntryReflects(schema: Document -> bool, base: File, log: seq<Entry>, e: Entry, f: File, d: Document)
    requires Reflects(base, log, f) && Composes(schema, f, e.operation, d)
    ensures Reflects(base, log + [e], Holds(d)) && Holds(d) == Apply(schema, f, e.operation)
  {
    assert (log + [e])[..|log|] == log;
    forall m: ListName ensures Entries(d, m) == Initial(base, m) + Values(log + [e], m) {
      if e.operation.Append? {
        AppendedEntries(f.document, e.operation.list, e.operation.value, m);
      } else {
        FreshEntries(e.operation.runId, m);
      }
    }
    if e.operation.Append? {
      assert IsListKey(Key(e.operation.list));
    }
  }

  lemma {:induction false} ReplayReflects(schema: Document -> bool, base: File, s: Store, n: nat)
    requires Sound(schema, base, s) && n <= |s.log|
    ensures Reflects(base, s.log[..n], Replay(schema, base, s.log[..n]))
  {
    if n > 0 {
      ReplayReflects(schema, base, s, n - 1);
      assert Effective(schema, base, s, n - 1);
      var before, e := s.log[..n - 1], s.log[n - 1];
      assert s.log[..n] == before + [e];
      assert (before + [e])[..n - 1] == before;
      var d :| Composes(schema, Replay(schema, base, before), e.operation, d);
      hide Composes, Reflects;
      EntryReflects(schema, base, before, e, Replay(schema, base, before), d);
    } else {
      assert s.log[..0] == [];
    }
  }

  /** In every reachable state the file is the atomic replay of the renames so far: whole, with
      each logged value once, in order, and with every field no append touches as it was. */
  lemma StoreIsALog(schema: Document -> bool, base: File, steps: seq<Step>)
    ensures var s := Run(schema, Beginning(base), steps);
      && s.file == Replay(schema, base, s.log)
      && Reflects(base, s.log, s.file)
  {
    hide Run;
    var s := Run(schema, Beginning(base), steps);
    RunIsSound(schema, base, steps);
    ReplayReflects(schema, base, s, |s.log|);
    assert s.log[..|s.log|] == s.log;
  }

  // ---- the fields by name --------------------------------------------------

  /** The five lists under their names, and nothing else but the run they belong to. */
  ghost predicate SixFields(d: Document, runId: string, log: seq<Entry>) {
    && d.Keys == {"run_id", "decisions", "refusals", "attempts", "observations", "reconciliations"}
    && d["run_id"] == Str(runId)
    && d["decisions"] == Arr(Values(log, Decisions)) && d["refusals"] == Arr(Values(log, Refusals))
    && d["attempts"] == Arr(Values(log, Attempts)) && d["observations"] == Arr(Values(log, Observations))
    && d["reconciliations"] == Arr(Values(log, Reconciliations))
  }

  ghost predicate Kept(d: Document, runId: string, log: seq<Entry>) {
    && (forall k :: k in d <==> k == "run_id" || IsListKey(k))
    && d["run_id"] == Str(runId)
    && (forall l: ListName :: Key(l) in d && d[Key(l)] == Arr(Values(log, l)))
  }

  lemma ListNames(k: string)
    ensures IsListKey(k) <==> k in {"decisions", "refusals", "attempts", "observations", "reconciliations"}
  {
    assert IsListKey(Key(Decisions)) && IsListKey(Key(Refusals)) && IsListKey(Key(Attempts));
    assert IsListKey(Key(Observations)) && IsListKey(Key(Reconciliations));
  }

  lemma KeptIsSixFields(d: Document, runId: string, log: seq<Entry>)
    ensures Kept(d, runId, log) <==> SixFields(d, runId, log)
  {
    hide Values, IsListKey;
    forall k ensures IsListKey(k) <==> k in {"decisions", "refusals", "attempts", "observations", "reconciliations"} {
      ListNames(k);
    }
    assert forall l: ListName :: Key(l) in d && d[Key(l)] == Arr(Values(log, l)) <==>
      match l
      case Decisions => "decisions" in d && d["decisions"] == Arr(Values(log, Decisions))
      case Refusals => "refusals" in d && d["refusals"] == Arr(Values(log, Refusals))
      case Attempts => "attempts" in d && d["attempts"] == Arr(Values(log, Attempts))
      case Observations => "observations" in d && d["observations"] == Arr(Values(log, Observations))
      case Reconciliations => "reconciliations" in d && d["reconciliations"] == Arr(Values(log, Reconciliations));
  }

  lemma RunIsNoList()
    ensures !IsListKey("run_id")
    ensures forall l: ListName, m: ListName :: Key(l) == Key(m) <==> l == m
  {
    ListNames("run_id");
    assert |"run_id"| == 6 && |"decisions"| == 9 && |"refusals"| == 8 && |"attempts"| == 8;
    assert |"observations"| == 12 && |"reconciliations"| == 15;
    forall l: ListName, m: ListName ensures Key(l) == Key(m) <==> l == m { KeysApart(l, m); }
  }

  lemma FreshIsKept(runId: string)
    ensures SixFields(Fresh(runId), runId, []) && Kept(Fresh(runId), runId, [])
  {
    RunIsNoList();
    KeptIsSixFields(Fresh(runId), runId, []);
  }

  lemma PutKeeps(d: Document, l: ListName, x: Json)
    requires (forall k :: k in d <==> k == "run_id" || IsListKey(k))
    ensures var e := d[Key(l) := x];
      && (forall k :: k in e <==> k == "run_id" || IsListKey(k)) && e["run_id"] == d["run_id"]
      && forall m: ListName :: Key(m) in d && Key(m) in e && e[Key(m)] == if m == l then x else d[Key(m)]
  {
    RunIsNoList();
    assert IsListKey(Key(l));
    hide Key;
  }

  lemma ValuesAfter(log: seq<Entry>, e: Entry, m: ListName)
    ensures var o := e.operation;
      Values(log + [e], m) == Values(log, m) + (if o.Append? && o.list == m then [o.value] else [])
  {
    assert (log + [e])[..|log|] == log;
  }

  lemma AppendedIsKept(d: Document, runId: string, log: seq<Entry>, e: Entry)
    requires Kept(d, runId, log) && e.operation.Append?
    ensures Kept(Appended(d, e.operation.list, e.operation.value), runId, log + [e])
  {
    hide Key, Values, IsListKey;
    var l, v := e.operation.list, e.operation.value;
    assert Appended(d, l, v) == d[Key(l) := Arr(Values(log, l) + [v])];
    hide Appended;
    PutKeeps(d, l, Arr(Values(log, l) + [v]));
    forall m: ListName ensures Values(log + [e], m) == Values(log, m) + (if m == l then [v] else []) {
      ValuesAfter(log, e, m);
    }
  }

  /** What a store that was not there holds: nothing yet, or the run of the client whose opening
      created it and the values appended since. */
  ghost predicate Created(log: seq<Entry>, f: File) {
    if log == [] then f == Missing
    else
      && log[0].operation.Open? && (forall k | 1 <= k < |log| :: log[k].operation.Append?)
      && f.Holds? && Kept(f.document, log[0].operation.runId, log)
  }

  lemma EntryCreates(schema: Document -> bool, log: seq<Entry>, e: Entry, f: File, d: Document)
    requires Created(log, f) && Composes(schema, f, e.operation, d)
    ensures Created(log + [e], Apply(schema, f, e.operation))
  {
    hide Kept, Fresh, Appended, Validates;
    if log == [] {
      assert log + [e] == [e];
      FreshIsKept(e.operation.runId);
      FirstIsNoAppend(e.operation.runId, e);
    } else {
      AppendedIsKept(f.document, log[0].operation.runId, log, e);
    }
  }

  lemma FirstIsNoAppend(runId: string, e: Entry)
    requires e.operation.Open? && Kept(Fresh(runId), runId, [])
    ensures Kept(Fresh(runId), runId, [e])
  {
    hide Fresh;
    assert [e][..0] == [];
  }

  lemma {:induction false} ReplayCreates(schema: Document -> bool, s: Store, n: nat)
    requires Sound(schema, Missing, s) && n <= |s.log|
    ensures Created(s.log[..n], Replay(schema, Missing, s.log[..n]))
  {
    if n > 0 {
      ReplayCreates(schema, s, n - 1);
      assert Effective(schema, Missing, s, n - 1);
      var before, e := s.log[..n - 1], s.log[n - 1];
      assert s.log[..n] == before + [e];
      assert (before + [e])[..n - 1] == before;
      var d :| Composes(schema, Replay(schema, Missing, before), e.operation, d);
      hide Composes, Created, Apply;
      EntryCreates(schema, before, e, Replay(schema, Missing, before), d);
    } else {
      assert s.log[..0] == [];
    }
  }

  /** A store that was not there has no file until a client's opening creates it. From then on the
      document has exactly six fields: the run that client named, for ever, and under each of the
      five names the values appended to that list so far, in order. */
  lemma CreatedStoreKeepsItsRun(schema: Document -> bool, steps: seq<Step>)
    ensures var s := Run(schema, Beginning(Missing), steps);
      if s.log == [] then s.file == Missing
      else s.log[0].operation.Open? && s.file.Holds? && SixFields(s.file.document, s.log[0].operation.runId, s.log)
  {
    hide Run, SixFields, Kept;
    var s := Run(schema, Beginning(Missing), steps);
    RunIsSound(schema, Missing, steps);
    ReplayCreates(schema, s, |s.log|);
    assert s.log[..|s.log|] == s.log;
    if s.log != [] { KeptIsSixFields(s.file.document, s.log[0].operation.runId, s.log); }
  }

  ghost predicate AList(d: Document, name: string) {
    name in d ==> d[name].Arr?
  }

  /** What a document must be to be read or written by an append. */
  ghost predicate Acceptable(schema: Document -> bool, d: Document) {
    && schema(d) && AList(d, "decisions") && AList(d, "refusals") && AList(d, "attempts")
    && AList(d, "observations") && AList(d, "reconciliations")
  }

  lemma ValidatesByName(schema: Document -> bool, d: Document)
    ensures Validates(schema, d) <==> Acceptable(schema, d)
  {
    assert Key(Decisions) == "decisions" && Key(Refusals) == "refusals" && Key(Attempts) == "attempts";
    assert Key(Observations) == "observations" && Key(Reconciliations) == "reconciliations";
  }

  // ---- each step -----------------------------------------------------------

  /** Each step either leaves the file alone or is one client's rename: its own operation takes
      effect at once, on the file as it then is, for the first and only time. */
  ghost predicate Atomic(schema: Document -> bool, s: Store, n: Store, step: Step) {
    || (n.file == s.file && n.log == s.log)
    || (&& step.Move? && step.client < |s.clients| && s.lock == Some(step.client)
        && var o := s.clients[step.client].operation;
        && !o.Load? && n.log == s.log + [Entry(step.client, o)]
        && Count(s.log, step.client) == 0
        && n.file == Apply(schema, s.file, o) != s.file)
  }

  lemma AppendedDiffers(d: Document, l: ListName, v: Json)
    requires Key(l) in d ==> d[Key(l)].Arr?
    ensures Appended(d, l, v) != d
  {
    AppendedEntries(d, l, v, l);
    assert |Entries(Appended(d, l, v), l)| == |Entries(d, l)| + 1;
  }

  lemma StepsAreAtomic(schema: Document -> bool, base: File, steps: seq<Step>, step: Step)
    ensures var s := Run(schema, Beginning(base), steps);
      Atomic(schema, s, Do(schema, s, step), step)
  {
    hide Run, Replay;
    var s := Run(schema, Beginning(base), steps);
    RunIsSound(schema, base, steps);
    if step.Move? && step.client < |s.clients| {
      var i := step.client;
      assert InOrder(schema, s, i) && Counted(s, i);
      AdvanceShape(schema, s, i, step.fails);
      hide Advance;
      if !Quiet(s, Advance(schema, s, i, step.fails)) && s.clients[i].operation.Append? {
        AppendedDiffers(s.file.document, s.clients[i].operation.list, s.clients[i].operation.value);
      }
    }
  }

  // ---- reads ---------------------------------------------------------------

  ghost predicate Extends(d: Document, e: Document) {
    && (forall l: ListName :: Entries(d, l) <= Entries(e, l))
    && (forall k: string | !IsListKey(k) :: (k in d <==> k in e) && (k in d ==> e[k] == d[k]))
  }

  lemma ApplyExtends(schema: Document -> bool, d: Document, o: Operation)
    ensures var f := Apply(schema, Holds(d), o); f.Holds? && Extends(d, f.document)
  {
    var f := Apply(schema, Holds(d), o);
    if o.Append? && f != Holds(d) {
      assert IsListKey(Key(o.list));
      forall l: ListName ensures Entries(d, l) <= Entries(f.document, l) {
        AppendedEntries(d, o.list, o.value, l);
      }
    }
  }

  lemma {:induction false} ReplayExtends(schema: Document -> bool, base: File, log: seq<Entry>, j: nat, k: nat)
    requires j <= k <= |log| && Replay(schema, base, log[..j]).Holds?
    ensures Replay(schema, base, log[..k]).Holds?
    ensures Extends(Replay(schema, base, log[..j]).document, Replay(schema, base, log[..k]).document)
    decreases k
  {
    if j < k {
      ReplayExtends(schema, base, log, j, k - 1);
      assert log[..k][..k - 1] == log[..k - 1];
      ApplyExtends(schema, Replay(schema, base, log[..k - 1]).document, log[k - 1].operation);
      assert Replay(schema, base, log[..k]) == Apply(schema, Replay(schema, base, log[..k - 1]), log[k - 1].operation);
      ExtendsTransitive(Replay(schema, base, log[..j]).document, Replay(schema, base, log[..k - 1]).document,
                        Replay(schema, base, log[..k]).document);
    }
  }

  lemma ExtendsTransitive(d: Document, e: Document, f: Document)
    requires Extends(d, e) && Extends(e, f)
    ensures Extends(d, f)
  {
    forall l: ListName ensures Entries(d, l) <= Entries(f, l) {
      assert Entries(d, l) <= Entries(e, l) <= Entries(f, l);
    }
  }

  /** What a client reads is valid and is extended, in all five lists, by whatever is read later
      and by the file as it stands; no other field differs. */
  lemma ReadsOnlyGrow(schema: Document -> bool, base: File, steps: seq<Step>, j: nat, k: nat)
    requires j <= k < |Run(schema, Beginning(base), steps).sights|
    ensures var s := Run(schema, Beginning(base), steps);
      && Acceptable(schema, s.sights[j].document)
      && Extends(s.sights[j].document, s.sights[k].document)
      && s.file.Holds? && Extends(s.sights[k].document, s.file.document)
  {
    hide Run, Replay, Validates, Extends, Acceptable;
    var s := Run(schema, Beginning(base), steps);
    RunIsSound(schema, base, steps);
    assert TrueSight(schema, base, s, j) && TrueSight(schema, base, s, k);
    ValidatesByName(schema, s.sights[j].document);
    ReplayExtends(schema, base, s.log, s.sights[j].after, s.sights[k].after);
    ReplayExtends(schema, base, s.log, s.sights[k].after, |s.log|);
    assert s.log[..|s.log|] == s.log;
  }

  // ---- appends -------------------------------------------------------------

  ghost predicate Grows(s: Store, n: Store) {
    && s.log <= n.log && s.sights <= n.sights && |s.clients| <= |n.clients|
    && (forall k | |s.sights| <= k < |n.sights| :: n.sights[k].after >= |s.log|)
    && (forall i | 0 <= i < |s.clients| :: n.clients[i].operation == s.clients[i].operation)
    && (forall i | 0 <= i < |s.clients| && s.clients[i].phase.Over? :: n.clients[i] == s.clients[i])
  }

  lemma ReadGrows(schema: Document -> bool, s: Store, i: nat)
    requires i < |s.clients| && !s.clients[i].phase.Over?
    ensures Grows(s, ReadStep(schema, s, i))
  {
    hide Validates, Fresh;
  }

  lemma UseGrows(schema: Document -> bool, s: Store, i: nat, d: Document)
    requires i < |s.clients| && !s.clients[i].phase.Over?
    ensures Grows(s, UseStep(schema, s, i, d)) && Grows(s, RenameStep(s, i))
  {
    hide Validates, Appended;
  }

  lemma StepGrows(schema: Document -> bool, s: Store, step: Step)
    ensures Grows(s, Do(schema, s, step))
  {
    hide ReadStep, UseStep, RenameStep;
    if step.Move? && step.client < |s.clients| && !s.clients[step.client].phase.Over? {
      var i := step.client;
      ReadGrows(schema, s, i);
      UseGrows(schema, s, i, if s.clients[i].phase.Read? then s.clients[i].phase.document else map[]);
    }
  }

  lemma {:induction false} RunGrows(schema: Document -> bool, s: Store, steps: seq<Step>)
    ensures Grows(s, Run(schema, s, steps))
  {
    if steps != [] {
      hide Do;
      var n := |steps| - 1;
      RunGrows(schema, s, steps[..n]);
      StepGrows(schema, Run(schema, s, steps[..n]), steps[n]);
    }
  }

  lemma {:induction false} CountedOnce(log: seq<Entry>, i: nat)
    requires Count(log, i) == 1
    ensures exists k | 0 <= k < |log| :: log[k].client == i
  {
    if log[|log| - 1].client != i { CountedOnce(log[..|log| - 1], i); }
  }

  /** The value of entry k stands at the place its append gave it. */
  ghost predicate StandsAt(base: File, log: seq<Entry>, k: nat, d: Document) {
    && k < |log| && log[k].operation.Append?
    && var l, at := log[k].operation.list,
        |Initial(base, log[k].operation.list)| + |Values(log[..k], log[k].operation.list)|;
    && at < |Entries(d, l)| && Entries(d, l)[at] == log[k].operation.value
  }

  lemma {:induction false} ValuesPrefix(log: seq<Entry>, k: nat, n: nat, l: ListName)
    requires k <= n <= |log|
    ensures Values(log[..k], l) <= Values(log[..n], l)
  {
    if k < n {
      ValuesPrefix(log, k, n - 1, l);
      assert log[..n][..n - 1] == log[..n - 1];
    }
  }

  lemma EntryStands(base: File, log: seq<Entry>, k: nat, n: nat, d: Document)
    requires k < n <= |log| && log[k].operation.Append? && Reflects(base, log[..n], Holds(d))
    ensures StandsAt(base, log, k, d)
  {
    var l := log[k].operation.list;
    assert log[..k + 1][..k] == log[..k];
    assert Values(log[..k + 1], l) == Values(log[..k], l) + [log[k].operation.value];
    ValuesPrefix(log, k + 1, n, l);
  }

  /** An append that returned is in the log exactly once, and every document read from then on,
      by any client, has its value at its own place. One that failed or died is there at most once. */
  lemma AppendsAppearOnce(schema: Document -> bool, base: File, earlier: seq<Step>, later: seq<Step>, i: nat)
    requires var s := Run(schema, Beginning(base), earlier);
      i < |s.clients| && s.clients[i].phase.Over? && s.clients[i].operation.Append?
    ensures var s, n := Run(schema, Beginning(base), earlier), Run(schema, Beginning(base), earlier + later);
      && Count(n.log, i) == Count(s.log, i) <= 1
      && (s.clients[i].phase.outcome.Returned? ==>
            exists k: nat :: k < |s.log| && s.log[k] == Entry(i, s.clients[i].operation)
              && forall j | |s.sights| <= j < |n.sights| :: StandsAt(base, n.log, k, n.sights[j].document))
  {
    hide Run, Do, Replay, Reflects;
    var s, n := Run(schema, Beginning(base), earlier), Run(schema, Beginning(base), earlier + later);
    RunIsSound(schema, base, earlier);
    RunIsSound(schema, base, earlier + later);
    RunConcat(schema, Beginning(base), earlier, later);
    RunGrows(schema, s, later);
    assert Counted(s, i) && Counted(n, i);
    CountGrows(s.log, n.log, i);
    OverKeepsCount(schema, s, later, i);
    if s.clients[i].phase.outcome.Returned? {
      CountedOnce(s.log, i);
      var k :| 0 <= k < |s.log| && s.log[k].client == i;
      assert Effective(schema, base, s, k);
      forall j | |s.sights| <= j < |n.sights| ensures StandsAt(base, n.log, k, n.sights[j].document) {
        assert TrueSight(schema, base, n, j);
        ReplayReflects(schema, base, n, n.sights[j].after);
        EntryStands(base, n.log, k, n.sights[j].after, n.sights[j].document);
      }
    }
  }

  lemma {:induction false} CountGrows(a: seq<Entry>, b: seq<Entry>, i: nat)
    requires a <= b
    ensures Count(a, i) <= Count(b, i)
  {
    if |a| < |b| {
      CountGrows(a, b[..|b| - 1], i);
    } else {
      assert a == b;
    }
  }

  lemma {:induction false} OverKeepsCount(schema: Document -> bool, s: Store, steps: seq<Step>, i: nat)
    requires i < |s.clients| && s.clients[i].phase.Over?
    ensures Count(Run(schema, s, steps).log, i) == Count(s.log, i)
  {
    if steps != [] {
      var n := |steps| - 1;
      var m := Run(schema, s, steps[..n]);
      OverKeepsCount(schema, s, steps[..n], i);
      RunGrows(schema, s, steps[..n]);
      OthersLog(schema, m, steps[n], i);
    }
  }

  lemma OthersLog(schema: Document -> bool, m: Store, step: Step, i: nat)
    requires i < |m.clients| && m.clients[i].phase.Over?
    ensures Count(Do(schema, m, step).log, i) == Count(m.log, i)
  {
    hide Validates, Fresh, Appended;
    var n := Do(schema, m, step);
    assert n.log == m.log || n.log[..|m.log|] == m.log;
  }

  // ---- failing and dying ---------------------------------------------------

  /** A temporary file is that of a client still writing, or of one that died. */
  ghost predicate Owned(s: Store, k: nat) {
    k in s.temporaries ==>
      && k < |s.clients|
      && (s.clients[k].phase.Writing? || s.clients[k].phase.Written? || s.clients[k].phase == Over(Died))
  }

  lemma StepKeepsOwned(schema: Document -> bool, s: Store, step: Step)
    requires forall k: nat :: Owned(s, k)
    requires forall i | 0 <= i < |s.clients| :: InOrder(schema, s, i)
    ensures forall k: nat :: Owned(Do(schema, s, step), k)
  {
    hide Readable, Validates, Fresh, Appended, Composes;
    var n := Do(schema, s, step);
    if step.Move? && step.client < |s.clients| { assert InOrder(schema, s, step.client); }
    forall k: nat ensures Owned(n, k) { assert Owned(s, k); }
  }

  lemma {:induction false} RunKeepsOwned(schema: Document -> bool, base: File, steps: seq<Step>)
    ensures forall k: nat :: Owned(Run(schema, Beginning(base), steps), k)
  {
    if steps != [] {
      hide Do, Owned, InOrder, Counted;
      var n := |steps| - 1;
      RunKeepsOwned(schema, base, steps[..n]);
      RunIsSound(schema, base, steps[..n]);
      StepKeepsOwned(schema, Run(schema, Beginning(base), steps[..n]), steps[n]);
    }
  }

  /** What is left when client i stops: no file touched, nothing logged, and no lock held. */
  ghost predicate Stopped(s: Store, n: Store, i: nat, o: Outcome) {
    && i < |s.clients| && n.clients == s.clients[i := s.clients[i].(phase := Over(o))]
    && n.file == s.file && n.log == s.log && n.sights == s.sights
    && n.lock == if s.lock == Some(i) then None else s.lock
  }

  /** Between any two of its moves a client may fail, which also removes its temporary file, or die,
      which leaves it; either way others can go on, on the file as it was. */
  lemma StoppingReleases(schema: Document -> bool, base: File, steps: seq<Step>, i: nat)
    requires i < |Run(schema, Beginning(base), steps).clients|
    ensures var s := Run(schema, Beginning(base), steps);
      && (Inside(s.clients[i].phase) ==>
            && Stopped(s, Do(schema, s, Move(i, true)), i, Failed)
            && Do(schema, s, Move(i, true)).temporaries == s.temporaries - {i})
      && (!s.clients[i].phase.Over? ==>
            && Stopped(s, Do(schema, s, Crash(i)), i, Died)
            && Do(schema, s, Crash(i)).temporaries == s.temporaries)
    ensures var s := Run(schema, Beginning(base), steps);
      i in s.temporaries ==>
        s.clients[i].phase.Writing? || s.clients[i].phase.Written? || s.clients[i].phase == Over(Died)
  {
    hide Run, Readable, Validates, Fresh, Appended, Composes, Replay;
    var s := Run(schema, Beginning(base), steps);
    RunIsSound(schema, base, steps);
    RunKeepsOwned(schema, base, steps);
    assert InOrder(schema, s, i) && Owned(s, i);
  }

  // ---- exclusion and unreadable documents ----------------------------------

  /** At most one client is between its lock and its unlock. */
  lemma OneClientInside(schema: Document -> bool, base: File, steps: seq<Step>, i: nat, j: nat)
    requires var s := Run(schema, Beginning(base), steps);
      i < |s.clients| && j < |s.clients| && Inside(s.clients[i].phase) && Inside(s.clients[j].phase)
    ensures i == j
  {
    hide Run;
    var s := Run(schema, Beginning(base), steps);
    RunIsSound(schema, base, steps);
    assert InOrder(schema, s, i) && InOrder(schema, s, j);
  }

  lemma {:induction false} NothingApplies(schema: Document -> bool, base: File, s: Store)
    requires Sound(schema, base, s) && !base.Missing? && !Readable(schema, base)
    ensures s.log == [] && s.file == base
  {
    assert s.log[..0] == [];
    assert |s.log| > 0 ==> Effective(schema, base, s, 0);
  }

  /** A document that cannot be read, or does not validate, is never overwritten and never read
      by anyone, not even by a client that opens the store. */
  lemma UnreadableStays(schema: Document -> bool, base: File, steps: seq<Step>)
    requires !base.Missing? && !Readable(schema, base)
    ensures var s := Run(schema, Beginning(base), steps);
      && s.file == base && s.sights == []
      && forall i | 0 <= i < |s.clients| ::
          !(s.clients[i].operation.Append? && s.clients[i].phase == Over(Returned(None)))
  {
    hide Run;
    var s := Run(schema, Beginning(base), steps);
    RunIsSound(schema, base, steps);
    NothingApplies(schema, base, s);
    assert |s.sights| > 0 ==> TrueSight(schema, base, s, 0);
    forall i | 0 <= i < |s.clients|
      ensures !(s.clients[i].operation.Append? && s.clients[i].phase == Over(Returned(None)))
    {
      assert Counted(s, i);
    }
  }
}
