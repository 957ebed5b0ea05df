/** The record store's own code, one transaction at a time. */
module RecordFile {
  import opened Text
  import opened CanonicalJson
  import opened RecordStore

  /** The store object over its file, between taking the lock and releasing it. */
  class BoundedRecordFile {
    const schema: Document -> bool
    var file: File

    constructor (schema: Document -> bool, file: File)
      ensures this.schema == schema && this.file == file
    {
      this.schema, this.file := schema, file;
    }

    method ReadDocument() returns (found: Option<Document>)
      ensures found == if Readable(schema, file) then Some(file.document) else None
      ensures found.Some? <==> file.Holds? && Acceptable(schema, file.document)
    {
      if file.Holds? { ValidatesByName(schema, file.document); }
      found := None;
      if file.Holds? && Validates(schema, file.document) {
        found := Some(file.document);
      }
    }

    method Write(d: Document)
      modifies this
      ensures file == Holds(d)
    {
      file := Holds(d);
    }

    /** Opening never replaces what is there, readable or not; a missing store comes to hold the
        six fields, with the run under its name and five empty lists. */
    method OpenStore(runId: string) returns (ok: bool)
      modifies this
      ensures file == Apply(schema, old(file), Open(runId))
      ensures old(file).Missing? ==> file.Holds? && SixFields(file.document, runId, [])
      ensures !old(file).Missing? ==> file == old(file)
      ensures ok <==> old(file).Missing? || (old(file).Holds? && Acceptable(schema, old(file).document))
    {
      if file.Missing? {
        Write(Fresh(runId));
        FreshIsKept(runId);
        ok := true;
      } else {
        var found := ReadDocument();
        ok := found.Some?;
      }
    }

    /** An append reloads, extends the list it finds, validates the result, and only then writes. */
    method AppendTo(l: ListName, v: Json) returns (ok: bool)
      modifies this
      ensures file == Apply(schema, old(file), Append(l, v))
      ensures ok <==> && old(file).Holds? && Acceptable(schema, old(file).document)
                      && Acceptable(schema, Appended(old(file).document, l, v))
      ensures ok <==> file != old(file)
      ensures ok ==> Entries(file.document, l) == Entries(old(file).document, l) + [v]
    {
      var found := ReadDocument();
      if found.None? { return false; }
      var document := found.value;
      if Key(l) !in document {
        document := document[Key(l) := Arr([])];
      }
      document := document[Key(l) := Arr(document[Key(l)].items + [v])];
      assert document == Appended(found.value, l, v);
      AppendedDiffers(found.value, l, v);
      AppendedEntries(found.value, l, v, l);
      ValidatesByName(schema, document);
      if !Validates(schema, document) { return false; }
      Write(document);
      ok := true;
    }
  }

  function Moves(i: nat, n: nat): seq<Step> {
    seq(n, k => Move(i, false))
  }

  lemma MoveOnce(schema: Document -> bool, s: Store, i: nat, n: nat)
    requires n > 0 && i < |s.clients|
    ensures Run(schema, s, Moves(i, n)) == Run(schema, Advance(schema, s, i, false), Moves(i, n - 1))
  {
    hide Advance;
    assert Moves(i, n) == [Move(i, false)] + Moves(i, n - 1);
    RunConcat(schema, s, [Move(i, false)], Moves(i, n - 1));
    assert [Move(i, false)][..0] == [];
    assert Run(schema, s, [Move(i, false)]) == Do(schema, Run(schema, s, []), Move(i, false));
  }

  /** A client that has settled stays settled. */
  lemma {:induction false} SettledStays(schema: Document -> bool, s: Store, i: nat, n: nat)
    requires i < |s.clients| && s.clients[i].phase.Over?
    ensures Run(schema, s, Moves(i, n)) == s
  {
    if n > 0 {
      MoveOnce(schema, s, i, n);
      SettledStays(schema, s, i, n - 1);
    }
  }

  /** From a composed document on, four undisturbed moves put it in place and unlock. */
  lemma PutInPlace(schema: Document -> bool, s: Store, i: nat, n: nat)
    requires i < |s.clients| && s.clients[i].phase.Composed? && n >= 4
    ensures Finishes(s, Run(schema, s, Moves(i, n)), i, Holds(s.clients[i].phase.document), Returned(None))
    ensures Run(schema, s, Moves(i, n)).log == s.log + [Entry(i, s.clients[i].operation)]
  {
    hide Run;
    var d := s.clients[i].phase.document;
    var a := Advance(schema, s, i, false);
    var b := Advance(schema, a, i, false);
    assert b.temporaries[i] == Complete(d) && b.clients == s.clients[i := s.clients[i].(phase := Written(d))];
    var c := Advance(schema, b, i, false);
    assert c.file == Holds(d) && c.clients == s.clients[i := s.clients[i].(phase := Renamed)];
    MoveOnce(schema, s, i, n);
    MoveOnce(schema, a, i, n - 1);
    MoveOnce(schema, b, i, n - 2);
    MoveOnce(schema, c, i, n - 3);
    SettledStays(schema, Advance(schema, c, i, false), i, n - 4);
  }

  ghost predicate Finishes(s: Store, n: Store, i: nat, f: File, o: Outcome) {
    && i < |s.clients| && n.file == f && n.lock.None?
    && n.clients == s.clients[i := s.clients[i].(phase := Over(o))]
  }

  /** What an undisturbed client is told. */
  function Told(schema: Document -> bool, f: File, o: Operation): Outcome {
    if !Readable(schema, f) then if o.Open? && f.Missing? then Returned(None) else Failed
    else match o
      case Open(_) => Returned(None)
      case Load => Returned(Some(f.document))
      case Append(l, v) => if Validates(schema, Appended(f.document, l, v)) then Returned(None) else Failed
  }

  /** The operation puts a document in place. */
  predicate TakesEffect(schema: Document -> bool, f: File, o: Operation) {
    match o
    case Open(_) => f.Missing?
    case Load => false
    case Append(l, v) => Readable(schema, f) && Validates(schema, Appended(f.document, l, v))
  }

  /** A document just read is composed into the next one, or the client leaves. */
  lemma UsesWhatItRead(schema: Document -> bool, s: Store, i: nat)
    requires i < |s.clients| && s.clients[i].phase.Read? && s.file == Holds(s.clients[i].phase.document)
    requires Readable(schema, s.file)
    ensures var o, n := s.clients[i].operation, Advance(schema, s, i, false);
      if TakesEffect(schema, s.file, o) then
        Apply(schema, s.file, o).Holds? && n == Place(s, i, Composed(Apply(schema, s.file, o).document))
      else Apply(schema, s.file, o) == s.file && n == Leave(s, i, Told(schema, s.file, o))
  {
    hide Validates, Fresh, Appended;
  }

  lemma FinishesReading(schema: Document -> bool, s: Store, i: nat)
    requires i < |s.clients| && s.clients[i].phase.Read? && s.file == Holds(s.clients[i].phase.document)
    requires Readable(schema, s.file)
    ensures var o := s.clients[i].operation;
      && Finishes(s, Run(schema, s, Moves(i, 5)), i, Apply(schema, s.file, o), Told(schema, s.file, o))
      && Run(schema, s, Moves(i, 5)).log == s.log + (if TakesEffect(schema, s.file, o) then [Entry(i, o)] else [])
  {
    hide Run, Validates, Fresh, Appended, Moves, Advance, Apply;
    var c := Advance(schema, s, i, false);
    MoveOnce(schema, s, i, 5);
    UsesWhatItRead(schema, s, i);
    if c.clients[i].phase.Over? {
      SettledStays(schema, c, i, 4);
    } else {
      PutInPlace(schema, c, i, 4);
    }
  }

  /** Lock and read: two moves. */
  ghost predicate Begun(schema: Document -> bool, s: Store, n: Store, i: nat) {
    && i < |s.clients| && i < |n.clients| && n.file == s.file && n.log == s.log
    && var o := s.clients[i].operation;
    && exists p :: n.clients == s.clients[i := Client(o, p)]
        && (if Readable(schema, s.file) then p == Phase.Read(s.file.document)
            else if o.Open? && s.file.Missing? then p == Composed(Fresh(o.runId))
            else p == Over(Failed) && n.lock.None?)
  }

  lemma TwoMovesBegin(schema: Document -> bool, s: Store, i: nat)
    requires i < |s.clients| && s.clients[i].phase.Waiting? && s.lock.None?
    ensures Begun(schema, s, Advance(schema, Place(s, i, Locked).(lock := Some(i)), i, false), i)
    ensures Advance(schema, s, i, false) == Place(s, i, Locked).(lock := Some(i))
  {
    hide Validates, Fresh;
    var a := Place(s, i, Locked).(lock := Some(i));
    var b := Advance(schema, a, i, false);
    assert b.clients == s.clients[i := Client(s.clients[i].operation, b.clients[i].phase)];
  }

  /** A client left to itself completes: its operation takes effect as one atomic application,
      it is logged, it is told so truthfully, and the lock is free again. */
  lemma Undisturbed(schema: Document -> bool, s: Store, i: nat)
    requires i < |s.clients| && s.clients[i].phase.Waiting? && s.lock.None?
    ensures Finishes(s, Run(schema, s, Moves(i, 7)), i, Apply(schema, s.file, s.clients[i].operation),
                     Told(schema, s.file, s.clients[i].operation))
    ensures Run(schema, s, Moves(i, 7)).log ==
      s.log + (if TakesEffect(schema, s.file, s.clients[i].operation) then [Entry(i, s.clients[i].operation)] else [])
  {
    hide Run, Validates, Fresh, Appended, Moves, Advance;
    var o, a := s.clients[i].operation, Place(s, i, Locked).(lock := Some(i));
    var b := Advance(schema, a, i, false);
    TwoMovesBegin(schema, s, i);
    MoveOnce(schema, s, i, 7);
    MoveOnce(schema, a, i, 6);
    if b.clients[i].phase.Over? {
      SettledStays(schema, b, i, 5);
    } else if b.clients[i].phase.Composed? {
      PutInPlace(schema, b, i, 5);
    } else {
      FinishesReading(schema, b, i);
    }
  }
}
