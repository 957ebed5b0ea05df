/** Canonical text, the commitment built on it, and exactly when two values share one. */
module Commitments {
  import opened Text
  import opened CanonicalJson

  // ---- sorting entries by key ----------------------------------------------

  function InsertField(f: Field, fs: seq<Field>): (r: seq<Field>)
    ensures multiset(r) == multiset(fs) + multiset{f}
  {
    if fs == [] || !Less(fs[0].key, f.key) then [f] + fs
    else
      assert fs == [fs[0]] + fs[1..];
      [fs[0]] + InsertField(f, fs[1..])
  }

  function SortFields(fs: seq<Field>): (r: seq<Field>)
    ensures multiset(r) == multiset(fs)
  {
    if fs == [] then [] else
      assert fs == [fs[0]] + fs[1..];
      InsertField(fs[0], SortFields(fs[1..]))
  }

  /** sort_keys=True applied at every level. */
  function Normal(v: Json): Json
    decreases v, 1
  {
    match v
    case Arr(xs) => Arr(NormalItems(xs))
    case Obj(fs) => Obj(SortFields(NormalFields(fs)))
    case _ => v
  }

  function NormalItems(xs: seq<Json>): (r: seq<Json>)
    ensures |r| == |xs|
    ensures forall i | 0 <= i < |xs| :: r[i] == Normal(xs[i])
    decreases xs, 0
  {
    if xs == [] then [] else [Normal(xs[0])] + NormalItems(xs[1..])
  }

  function NormalFields(fs: seq<Field>): (r: seq<Field>)
    ensures |r| == |fs|
    ensures forall i | 0 <= i < |fs| :: r[i] == Field(fs[i].key, Normal(fs[i].value))
    decreases fs, 0
  {
    if fs == [] then [] else [Field(fs[0].key, Normal(fs[0].value))] + NormalFields(fs[1..])
  }

  function Canonical(st: Style, v: Json): string {
    Write(st, Normal(v), "")
  }

  // ---- what canonical text determines --------------------------------------

  ghost predicate DistinctKeys(fs: seq<Field>) {
    forall i, j | 0 <= i < j < |fs| :: fs[i].key != fs[j].key
  }

  /** A value Python can print: float tokens are reprs and no dictionary repeats a key. */
  ghost predicate WellFormed(v: Json)
    decreases v
  {
    match v
    case Float(t) => FloatToken(t)
    case Arr(xs) => forall i | 0 <= i < |xs| :: WellFormed(xs[i])
    case Obj(fs) => DistinctKeys(fs) && forall i | 0 <= i < |fs| :: WellFormed(fs[i].value)
    case _ => true
  }

  /** Equal up to the order of dictionary entries. */
  ghost predicate Same(v: Json, w: Json)
    decreases v
  {
    match v
    case Arr(xs) =>
      w.Arr? && |w.items| == |xs| && forall i | 0 <= i < |xs| :: Same(xs[i], w.items[i])
    case Obj(fs) =>
      && w.Obj? && |w.fields| == |fs|
      && forall i | 0 <= i < |fs| :: exists j ::
        0 <= j < |w.fields| && w.fields[j].key == fs[i].key && Same(fs[i].value, w.fields[j].value)
    case _ => v == w
  }

  lemma {:induction false} WellFormedIsPrintable(v: Json)
    requires WellFormed(v)
    ensures Printable(v)
    decreases v
  {
    match v
    case Arr(xs) =>
      forall i | 0 <= i < |xs| ensures Printable(xs[i]) { WellFormedIsPrintable(xs[i]); }
    case Obj(fs) =>
      forall i | 0 <= i < |fs| ensures Printable(fs[i].value) { WellFormedIsPrintable(fs[i].value); }
    case _ =>
  }

  lemma {:induction false} NormalIsPrintable(v: Json)
    requires Printable(v)
    ensures Printable(Normal(v))
    decreases v
  {
    match v
    case Arr(xs) =>
      forall i | 0 <= i < |xs| ensures Printable(Normal(xs[i])) { NormalIsPrintable(xs[i]); }
    case Obj(fs) =>
      var ns := NormalFields(fs);
      forall f | f in ns ensures Printable(f.value) {
        var i :| 0 <= i < |ns| && ns[i] == f;
        NormalIsPrintable(fs[i].value);
      }
      forall i | 0 <= i < |SortFields(ns)| ensures Printable(SortFields(ns)[i].value) {
        assert SortFields(ns)[i] in multiset(SortFields(ns));
      }
    case _ =>
  }

  /** The parser undoes the printer on every printable value. */
  lemma PrintThenParse(st: Style, v: Json)
    requires GoodStyle(st) && Printable(v)
    ensures Read(st, Canonical(st, v)) == Got(Normal(v), "")
  {
    NormalIsPrintable(v);
    ReadWritten(st, Normal(v), "");
  }

  /** Equal text means equal normal forms. */
  lemma CanonicalIsInjective(st: Style, v: Json, w: Json)
    requires GoodStyle(st) && Printable(v) && Printable(w)
    ensures Canonical(st, v) == Canonical(st, w) <==> Normal(v) == Normal(w)
  {
    PrintThenParse(st, v);
    PrintThenParse(st, w);
  }

  ghost predicate KeySorted(fs: seq<Field>) {
    forall i, j | 0 <= i < j < |fs| :: Less(fs[i].key, fs[j].key)
  }

  lemma InsertKeepsOrder(f: Field, fs: seq<Field>)
    requires KeySorted(fs)
    requires forall i | 0 <= i < |fs| :: fs[i].key != f.key
    ensures KeySorted(InsertField(f, fs))
  {
    hide Less;
    if fs != [] {
      LessTotal(fs[0].key, f.key);
      if Less(fs[0].key, f.key) {
        InsertKeepsOrder(f, fs[1..]);
        var rest := InsertField(f, fs[1..]);
        hide InsertField;
        forall j | 0 <= j < |rest| ensures Less(fs[0].key, rest[j].key) {
          assert rest[j] in multiset(fs[1..]) + multiset{f};
        }
      } else {
        forall j | 0 < j < |fs| ensures Less(f.key, fs[j].key) {
          LessTransitive(f.key, fs[0].key, fs[j].key);
        }
      }
    }
  }

  lemma {:induction false} SortGivesOrder(fs: seq<Field>)
    requires DistinctKeys(fs)
    ensures KeySorted(SortFields(fs))
  {
    if fs != [] {
      var rest := SortFields(fs[1..]);
      SortGivesOrder(fs[1..]);
      forall i | 0 <= i < |rest| ensures rest[i].key != fs[0].key {
        assert rest[i] in multiset(fs[1..]);
      }
      InsertKeepsOrder(fs[0], rest);
    }
  }

  /** Two key-sorted lists with the same members are the same list. */
  lemma KeySortedUnique(fs: seq<Field>, gs: seq<Field>)
    requires KeySorted(fs) && KeySorted(gs)
    requires forall f :: f in fs <==> f in gs
    ensures fs == gs
  {
    var ks := seq(|fs|, i requires 0 <= i < |fs| => fs[i].key);
    var ls := seq(|gs|, i requires 0 <= i < |gs| => gs[i].key);
    forall k ensures k in ks <==> k in ls {
      if k in ks {
        var i :| 0 <= i < |ks| && ks[i] == k;
        assert fs[i] in gs;
        var j :| 0 <= j < |gs| && gs[j] == fs[i];
        assert ls[j] == k;
      }
      if k in ls {
        var i :| 0 <= i < |ls| && ls[i] == k;
        assert gs[i] in fs;
        var j :| 0 <= j < |fs| && fs[j] == gs[i];
        assert ks[j] == k;
      }
    }
    SortedUnique(ks, ls);
    assert |fs| == |ks| == |ls| == |gs|;
    forall i | 0 <= i < |fs| ensures fs[i] == gs[i] {
      assert ks[i] == ls[i];
      assert fs[i] in gs;
      var j :| 0 <= j < |gs| && gs[j] == fs[i];
      LessIrreflexive(ks[i]);
      assert i == j;
    }
  }

  /** Values equal up to entry order have one normal form. */
  lemma {:induction false} SameHasOneNormal(v: Json, w: Json)
    requires WellFormed(v) && WellFormed(w) && Same(v, w)
    ensures Normal(v) == Normal(w)
    decreases v
  {
    match v
    case Arr(xs) =>
      forall i | 0 <= i < |xs| ensures Normal(xs[i]) == Normal(w.items[i]) {
        SameHasOneNormal(xs[i], w.items[i]);
      }
      assert NormalItems(xs) == NormalItems(w.items);
    case Obj(fs) =>
      var ns, ms := NormalFields(fs), NormalFields(w.fields);
      forall i | 0 <= i < |fs| ensures ns[i] in ms {
        var j :| 0 <= j < |w.fields| && w.fields[j].key == fs[i].key && Same(fs[i].value, w.fields[j].value);
        SameHasOneNormal(fs[i].value, w.fields[j].value);
        assert ms[j] == ns[i];
      }
      SameLengthSameMembers(ns, ms);
      SortGivesOrder(ns);
      SortGivesOrder(ms);
      forall f ensures f in SortFields(ns) <==> f in SortFields(ms) {
        assert f in ns <==> f in multiset(ns);
        assert f in ms <==> f in multiset(ms);
        assert f in SortFields(ns) <==> f in multiset(SortFields(ns));
        assert f in SortFields(ms) <==> f in multiset(SortFields(ms));
      }
      KeySortedUnique(SortFields(ns), SortFields(ms));
    case _ =>
  }

  /** Distinct entries that all occur in an equally long list are all of that list. */
  lemma SameLengthSameMembers(ns: seq<Field>, ms: seq<Field>)
    requires |ns| == |ms| && DistinctKeys(ns) && DistinctKeys(ms)
    requires forall i | 0 <= i < |ns| :: ns[i] in ms
    ensures forall f :: f in ns <==> f in ms
  {
    var a, b := set f | f in ns, set f | f in ms;
    DistinctCount(ns);
    DistinctCount(ms);
    assert a <= b;
    assert |b - a| == |b| - |a|;
    assert b == a + (b - a);
    forall f ensures f in ns <==> f in ms {
      assert f in ns <==> f in a;
      assert f in ms <==> f in b;
    }
  }

  lemma {:induction false} DistinctCount(fs: seq<Field>)
    requires DistinctKeys(fs)
    ensures |set f | f in fs| == |fs|
  {
    if fs != [] {
      DistinctCount(fs[1..]);
      var rest := set f | f in fs[1..];
      assert (set f | f in fs) == rest + {fs[0]};
      assert fs[0] !in rest;
    } else {
      assert (set f | f in fs) == {};
    }
  }

  /** One normal form means equal up to entry order. */
  lemma {:induction false} OneNormalIsSame(v: Json, w: Json)
    requires Normal(v) == Normal(w)
    ensures Same(v, w)
    decreases v
  {
    hide SortFields;
    match v
    case Arr(xs) => OneNormalIsSameItems(xs, w.items);
    case Obj(fs) =>
      OneNormalIsSameFields(fs, w.fields);
    case _ =>
  }

  lemma {:induction false} OneNormalIsSameItems(xs: seq<Json>, ys: seq<Json>)
    requires NormalItems(xs) == NormalItems(ys)
    ensures |xs| == |ys| && forall i | 0 <= i < |xs| :: Same(xs[i], ys[i])
    decreases xs
  {
    assert |NormalItems(xs)| == |NormalItems(ys)|;
    hide Same;
    forall i | 0 <= i < |xs| ensures Same(xs[i], ys[i]) {
      assert NormalItems(xs)[i] == NormalItems(ys)[i];
      OneNormalIsSame(xs[i], ys[i]);
    }
  }

  lemma {:induction false} OneNormalIsSameFields(fs: seq<Field>, gs: seq<Field>)
    requires SortFields(NormalFields(fs)) == SortFields(NormalFields(gs))
    ensures |fs| == |gs|
    ensures forall i | 0 <= i < |fs| ::
      exists j :: 0 <= j < |gs| && gs[j].key == fs[i].key && Same(fs[i].value, gs[j].value)
    decreases fs
  {
    var ns, ms := NormalFields(fs), NormalFields(gs);
    SortsOfOneList(ns, ms);
    hide SortFields, Same;
    forall i | 0 <= i < |fs|
      ensures exists j :: 0 <= j < |gs| && gs[j].key == fs[i].key && Same(fs[i].value, gs[j].value)
    {
      var j :| 0 <= j < |ms| && ms[j] == ns[i];
      OneNormalIsSame(fs[i].value, gs[j].value);
    }
  }

  /** Lists with one sorted form have the same entries. */
  lemma SortsOfOneList(ns: seq<Field>, ms: seq<Field>)
    requires SortFields(ns) == SortFields(ms)
    ensures |ns| == |ms|
    ensures forall i | 0 <= i < |ns| :: exists j :: 0 <= j < |ms| && ms[j] == ns[i]
  {
    assert multiset(ns) == multiset(SortFields(ns)) == multiset(SortFields(ms)) == multiset(ms);
    assert |ns| == |multiset(ns)| == |multiset(ms)| == |ms|;
    forall i | 0 <= i < |ns| ensures exists j :: 0 <= j < |ms| && ms[j] == ns[i] {
      assert ns[i] in multiset(ns) && ns[i] in multiset(ms);
    }
  }

  /** Canonical text identifies a value, up to the order of dictionary entries and no further. */
  lemma CanonicalIdentifies(st: Style, v: Json, w: Json)
    requires GoodStyle(st) && WellFormed(v) && WellFormed(w)
    ensures Canonical(st, v) == Canonical(st, w) <==> Same(v, w)
  {
    WellFormedIsPrintable(v);
    WellFormedIsPrintable(w);
    CanonicalIsInjective(st, v, w);
    if Same(v, w) {
      SameHasOneNormal(v, w);
    }
    if Normal(v) == Normal(w) {
      OneNormalIsSame(v, w);
    }
  }

  // ---- commitments ---------------------------------------------------------

  type Hash = string -> string

  /** The hypothesis under which a commitment stands for its value. */
  ghost predicate Injective(hash: Hash) {
    forall a, b :: hash(a) == hash(b) ==> a == b
  }

  function Commitment(hash: Hash, v: Json): string {
    "sha256:" + hash(Canonical(COMPACT, v))
  }

  lemma CommitmentIdentifies(hash: Hash, v: Json, w: Json)
    requires Injective(hash) && WellFormed(v) && WellFormed(w)
    ensures Commitment(hash, v) == Commitment(hash, w) <==> Same(v, w)
  {
    CommitmentIsNormal(hash, v, w);
    CanonicalIdentifies(COMPACT, v, w);
  }

  lemma CommitmentIsNormal(hash: Hash, v: Json, w: Json)
    requires Injective(hash)
    ensures Commitment(hash, v) == Commitment(hash, w) <==> Canonical(COMPACT, v) == Canonical(COMPACT, w)
  {
    var a, b := hash(Canonical(COMPACT, v)), hash(Canonical(COMPACT, w));
    if Commitment(hash, v) == Commitment(hash, w) {
      assert ("sha256:" + a)[7..] == a;
      assert ("sha256:" + b)[7..] == b;
    }
  }

  // ---- records: values under one fixed list of keys -------------------------

  ghost predicate SameKeys(fs: seq<Field>, gs: seq<Field>) {
    |fs| == |gs| && forall i | 0 <= i < |fs| :: fs[i].key == gs[i].key
  }

  lemma ConsLikewise(f: Field, g: Field, fs: seq<Field>, gs: seq<Field>)
    requires f.key == g.key && SameKeys(fs, gs)
    ensures SameKeys([f] + fs, [g] + gs)
    ensures [f] + fs == [g] + gs ==> f == g && fs == gs
  {
    var a, b := [f] + fs, [g] + gs;
    assert a[0] == f && b[0] == g;
    assert a[1..] == fs && b[1..] == gs;
  }

  lemma {:induction false} InsertLikewise(f: Field, g: Field, fs: seq<Field>, gs: seq<Field>)
    requires f.key == g.key && SameKeys(fs, gs)
    ensures SameKeys(InsertField(f, fs), InsertField(g, gs))
    ensures InsertField(f, fs) == InsertField(g, gs) ==> f == g && fs == gs
  {
    if fs != [] && Less(fs[0].key, f.key) {
      InsertLikewise(f, g, fs[1..], gs[1..]);
      ConsLikewise(fs[0], gs[0], InsertField(f, fs[1..]), InsertField(g, gs[1..]));
      assert fs == [fs[0]] + fs[1..] && gs == [gs[0]] + gs[1..];
    } else {
      ConsLikewise(f, g, fs, gs);
    }
  }

  lemma SortedFirst(fs: seq<Field>)
    ensures fs == [] ==> SortFields(fs) == []
    ensures fs != [] ==> SortFields(fs) == InsertField(fs[0], SortFields(fs[1..])) && fs == [fs[0]] + fs[1..]
  {
    hide InsertField;
  }

  lemma SameKeysSplit(fs: seq<Field>, gs: seq<Field>)
    requires SameKeys(fs, gs)
    ensures fs == [] <==> gs == []
    ensures fs != [] ==> fs[0].key == gs[0].key && SameKeys(fs[1..], gs[1..])
  {}

  /** Lists under the same keys sort alike, so sorting loses nothing. */
  lemma {:induction false} SortLikewise(fs: seq<Field>, gs: seq<Field>)
    requires SameKeys(fs, gs)
    ensures SameKeys(SortFields(fs), SortFields(gs))
    ensures SortFields(fs) == SortFields(gs) ==> fs == gs
  {
    hide SortFields, InsertField, SameKeys;
    SameKeysSplit(fs, gs);
    SortedFirst(fs);
    SortedFirst(gs);
    if fs != [] {
      SortLikewise(fs[1..], gs[1..]);
      InsertLikewise(fs[0], gs[0], SortFields(fs[1..]), SortFields(gs[1..]));
    }
  }

  /** A record: value i under key i. */
  function Record(keys: seq<string>, values: seq<Json>): Json
    requires |keys| == |values|
  {
    Obj(seq(|keys|, i requires 0 <= i < |keys| => Field(keys[i], values[i])))
  }

  /** With an injective hash the commitment of a record commits every value in it. */
  lemma RecordCommitsValues(hash: Hash, keys: seq<string>, vs: seq<Json>, ws: seq<Json>)
    requires Injective(hash) && |keys| == |vs| == |ws|
    requires forall i | 0 <= i < |vs| :: Printable(vs[i])
    requires forall i | 0 <= i < |ws| :: Printable(ws[i])
    requires Commitment(hash, Record(keys, vs)) == Commitment(hash, Record(keys, ws))
    ensures forall i | 0 <= i < |keys| :: Normal(vs[i]) == Normal(ws[i])
  {
    var v, w := Record(keys, vs), Record(keys, ws);
    assert Printable(v) && Printable(w);
    CommitmentIsNormal(hash, v, w);
    CanonicalIsInjective(COMPACT, v, w);
    var ns, ms := NormalFields(v.fields), NormalFields(w.fields);
    SortLikewise(ns, ms);
    forall i | 0 <= i < |keys| ensures Normal(vs[i]) == Normal(ws[i]) {
      assert ns[i] == ms[i];
    }
  }

  lemma CommitmentFixesNormal(hash: Hash, v: Json, w: Json)
    requires Injective(hash) && Printable(v) && Printable(w) && Commitment(hash, v) == Commitment(hash, w)
    ensures Normal(v) == Normal(w)
  {
    CommitmentIsNormal(hash, v, w);
    CanonicalIsInjective(COMPACT, v, w);
  }

  /** Records under different numbers of keys never share a commitment. */
  lemma RecordCommitsSize(hash: Hash, ks: seq<string>, vs: seq<Json>, ls: seq<string>, ws: seq<Json>)
    requires Injective(hash) && |ks| == |vs| && |ls| == |ws|
    requires forall i | 0 <= i < |vs| :: Printable(vs[i])
    requires forall i | 0 <= i < |ws| :: Printable(ws[i])
    requires Commitment(hash, Record(ks, vs)) == Commitment(hash, Record(ls, ws))
    ensures |ks| == |ls|
  {
    var v, w := Record(ks, vs), Record(ls, ws);
    assert Printable(v) && Printable(w);
    CommitmentIsNormal(hash, v, w);
    CanonicalIsInjective(COMPACT, v, w);
    RecordNormalSize(ks, vs, ls, ws);
  }

  /** Records under one list of keys with one normal form have, value by value, one normal form. */
  lemma RecordNormal(keys: seq<string>, vs: seq<Json>, ws: seq<Json>)
    requires |keys| == |vs| == |ws| && Normal(Record(keys, vs)) == Normal(Record(keys, ws))
    ensures forall i | 0 <= i < |keys| :: Normal(vs[i]) == Normal(ws[i])
  {
    var ns, ms := NormalFields(Record(keys, vs).fields), NormalFields(Record(keys, ws).fields);
    SortLikewise(ns, ms);
    forall i | 0 <= i < |keys| ensures Normal(vs[i]) == Normal(ws[i]) {
      assert ns[i] == ms[i];
    }
  }

  lemma RecordNormalSize(ks: seq<string>, vs: seq<Json>, ls: seq<string>, ws: seq<Json>)
    requires |ks| == |vs| && |ls| == |ws| && Normal(Record(ks, vs)) == Normal(Record(ls, ws))
    ensures |ks| == |ls|
  {
    var ns, ms := NormalFields(Record(ks, vs).fields), NormalFields(Record(ls, ws).fields);
    assert |ns| == |multiset(ns)| == |multiset(SortFields(ns))| == |multiset(SortFields(ms))| == |ms|;
  }

  lemma RecordPrintable(keys: seq<string>, vs: seq<Json>)
    requires |keys| == |vs| && forall i | 0 <= i < |vs| :: Printable(vs[i])
    ensures Printable(Record(keys, vs))
  {}

  lemma ArrayNormal(a: seq<Json>, b: seq<Json>)
    requires Normal(Arr(a)) == Normal(Arr(b))
    ensures |a| == |b| && forall i | 0 <= i < |a| :: Normal(a[i]) == Normal(b[i])
  {
    assert |NormalItems(a)| == |NormalItems(b)|;
    forall i | 0 <= i < |a| ensures Normal(a[i]) == Normal(b[i]) {
      assert NormalItems(a)[i] == NormalItems(b)[i];
    }
  }

  /** Sorting keys leaves anything but a list or a dictionary as it is. */
  lemma ScalarIsNormal(v: Json, w: Json)
    requires !v.Arr? && !v.Obj? && !w.Arr? && !w.Obj? && Normal(v) == Normal(w)
    ensures v == w
  {}

  // ---- records of the same values ------------------------------------------

  ghost predicate Apart(keys: seq<string>) {
    forall i, j | 0 <= i < j < |keys| :: keys[i] != keys[j]
  }

  ghost predicate AllWellFormed(vs: seq<Json>) {
    forall i | 0 <= i < |vs| :: WellFormed(vs[i])
  }

  ghost predicate AllSame(vs: seq<Json>, ws: seq<Json>) {
    |vs| == |ws| && forall i | 0 <= i < |vs| :: Same(vs[i], ws[i])
  }

  lemma FieldsAre(keys: seq<string>, vs: seq<Json>)
    requires |keys| == |vs|
    ensures Record(keys, vs).Obj? && |Record(keys, vs).fields| == |keys|
    ensures forall i | 0 <= i < |keys| :: Record(keys, vs).fields[i] == Field(keys[i], vs[i])
  {}

  lemma RecordIsWellFormed(keys: seq<string>, vs: seq<Json>)
    requires Apart(keys) && |keys| == |vs| && AllWellFormed(vs)
    ensures WellFormed(Record(keys, vs))
  {}

  /** Some field of the list has this one's key and a value that is the same. */
  ghost predicate Finds(f: Field, gs: seq<Field>) {
    exists j :: 0 <= j < |gs| && gs[j].key == f.key && Same(f.value, gs[j].value)
  }

  lemma ObjectIsSame(fs: seq<Field>, gs: seq<Field>)
    ensures Same(Obj(fs), Obj(gs)) <==> |fs| == |gs| && forall i | 0 <= i < |fs| :: Finds(fs[i], gs)
  {
    if Same(Obj(fs), Obj(gs)) {
      forall i | 0 <= i < |fs| ensures Finds(fs[i], gs) {
        var j :| 0 <= j < |gs| && gs[j].key == fs[i].key && Same(fs[i].value, gs[j].value);
      }
    } else if |fs| == |gs| {
      var i :| 0 <= i < |fs|
        && !exists j :: 0 <= j < |gs| && gs[j].key == fs[i].key && Same(fs[i].value, gs[j].value);
      assert !Finds(fs[i], gs);
    }
  }

  /** Under distinct keys only the field at the same place can be found. */
  lemma FindsExactly(keys: seq<string>, vs: seq<Json>, ws: seq<Json>, i: nat)
    requires Apart(keys) && |keys| == |vs| == |ws| && i < |keys|
    ensures Finds(Field(keys[i], vs[i]), Record(keys, ws).fields) <==> Same(vs[i], ws[i])
  {
    hide Same, Record;
    FieldsAre(keys, ws);
    var gs := Record(keys, ws).fields;
    assert gs[i].key == keys[i] && gs[i].value == ws[i];
    if Finds(Field(keys[i], vs[i]), gs) {
      var j :| 0 <= j < |gs| && gs[j].key == keys[i] && Same(vs[i], gs[j].value);
      assert i == j;
    }
  }

  lemma RecordIsSame(keys: seq<string>, vs: seq<Json>, ws: seq<Json>)
    requires Apart(keys) && |keys| == |vs| == |ws|
    ensures Same(Record(keys, vs), Record(keys, ws)) <==> AllSame(vs, ws)
  {
    hide Same, Record, Finds;
    FieldsAre(keys, vs);
    FieldsAre(keys, ws);
    var fs, gs := Record(keys, vs).fields, Record(keys, ws).fields;
    ObjectIsSame(fs, gs);
    forall i | 0 <= i < |fs| ensures Finds(fs[i], gs) <==> Same(vs[i], ws[i]) { FindsExactly(keys, vs, ws, i); }
  }

  /** Under an injective hash and distinct keys, records share a commitment exactly when their values
      are the same, one by one. */
  lemma RecordCommits(hash: Hash, keys: seq<string>, vs: seq<Json>, ws: seq<Json>)
    requires Injective(hash) && Apart(keys) && |keys| == |vs| == |ws| && AllWellFormed(vs) && AllWellFormed(ws)
    ensures Commitment(hash, Record(keys, vs)) == Commitment(hash, Record(keys, ws)) <==> AllSame(vs, ws)
  {
    hide Commitment, Record, WellFormed, Same, AllSame;
    RecordIsWellFormed(keys, vs);
    RecordIsWellFormed(keys, ws);
    RecordIsSame(keys, vs, ws);
    CommitmentIdentifies(hash, Record(keys, vs), Record(keys, ws));
  }
}
