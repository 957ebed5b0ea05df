/** Strings in the order Python sorts them: lexicographic by code point. */
module Text {

  datatype Option<+T> = None | Some(value: T) {
    function GetOr(default: T): T {
      if Some? then value else default
    }
  }

  predicate Less(a: string, b: string) {
    |b| > 0 && (|a| == 0 || a[0] < b[0] || (a[0] == b[0] && Less(a[1..], b[1..])))
  }

  lemma {:induction false} LessTransitive(a: string, b: string, c: string)
    requires Less(a, b) && Less(b, c)
    ensures Less(a, c)
  {
    if |a| > 0 && a[0] == b[0] && b[0] == c[0] {
      LessTransitive(a[1..], b[1..], c[1..]);
    }
  }

  lemma {:induction false} LessIrreflexive(a: string)
    ensures !Less(a, a)
  {
    if |a| > 0 {
      LessIrreflexive(a[1..]);
    }
  }

  lemma {:induction false} LessTotal(a: string, b: string)
    ensures a == b || Less(a, b) || Less(b, a)
  {
    if |a| > 0 && |b| > 0 && a[0] == b[0] {
      LessTotal(a[1..], b[1..]);
      assert a == [a[0]] + a[1..] && b == [b[0]] + b[1..];
    }
  }

  ghost predicate StrictlySorted(xs: seq<string>) {
    forall i, j | 0 <= i < j < |xs| :: Less(xs[i], xs[j])
  }

  /** Put x into a strictly sorted list, or leave the list alone when x is there. */
  function InsertUnique(x: string, xs: seq<string>): (r: seq<string>)
    ensures forall y :: y in r <==> y == x || y in xs
    ensures StrictlySorted(xs) ==> StrictlySorted(r)
  {
    if xs == [] then
      [x]
    else if x == xs[0] then
      xs
    else if Less(x, xs[0]) then
      InsertFirst(x, xs);
      [x] + xs
    else
      var rest := InsertUnique(x, xs[1..]);
      assert forall y :: y in xs <==> y == xs[0] || y in xs[1..];
      InsertLater(x, xs, rest);
      [xs[0]] + rest
  }

  lemma InsertFirst(x: string, xs: seq<string>)
    requires xs != [] && Less(x, xs[0])
    ensures StrictlySorted(xs) ==> StrictlySorted([x] + xs)
  {
    if StrictlySorted(xs) {
      forall j | 0 < j < |xs| ensures Less(x, xs[j]) {
        LessTransitive(x, xs[0], xs[j]);
      }
    }
  }

  lemma InsertLater(x: string, xs: seq<string>, rest: seq<string>)
    requires xs != [] && x != xs[0] && !Less(x, xs[0])
    requires forall y :: y in rest <==> y == x || y in xs[1..]
    requires StrictlySorted(xs[1..]) ==> StrictlySorted(rest)
    ensures StrictlySorted(xs) ==> StrictlySorted([xs[0]] + rest)
  {
    LessTotal(x, xs[0]);
    if StrictlySorted(xs) {
      forall j | 0 <= j < |rest| ensures Less(xs[0], rest[j]) {
        assert rest[j] in rest;
      }
    }
  }

  /** sorted(set(xs)) */
  function SortedSet(xs: seq<string>): (r: seq<string>)
    ensures StrictlySorted(r)
    ensures forall y :: y in r <==> y in xs
  {
    if xs == [] then [] else
      assert forall y :: y in xs <==> y == xs[0] || y in xs[1..];
      InsertUnique(xs[0], SortedSet(xs[1..]))
  }

  /** Lists with the same members start with the same least one. */
  lemma SameLeast(xs: seq<string>, ys: seq<string>)
    requires StrictlySorted(xs) && StrictlySorted(ys) && xs != [] && ys != []
    requires xs[0] in ys && ys[0] in xs
    ensures xs[0] == ys[0]
  {
    var i :| 0 <= i < |ys| && ys[i] == xs[0];
    var j :| 0 <= j < |xs| && xs[j] == ys[0];
    LessIrreflexive(xs[0]);
    if i > 0 && j > 0 {
      LessTransitive(xs[0], ys[0], xs[0]);
    }
  }

  /** The tail of a strictly sorted list holds everything but the head. */
  lemma TailMembers(xs: seq<string>, y: string)
    requires StrictlySorted(xs) && xs != []
    ensures y in xs[1..] <==> y in xs && y != xs[0]
  {
    LessIrreflexive(xs[0]);
    assert xs == [xs[0]] + xs[1..];
  }

  /** A strictly sorted list is determined by its members. */
  lemma {:induction false} SortedUnique(xs: seq<string>, ys: seq<string>)
    requires StrictlySorted(xs) && StrictlySorted(ys)
    requires forall y :: y in xs <==> y in ys
    ensures xs == ys
  {
    assert xs != [] ==> xs[0] in ys;
    assert ys != [] ==> ys[0] in xs;
    if xs != [] {
      SameLeast(xs, ys);
      forall y ensures y in xs[1..] <==> y in ys[1..] {
        TailMembers(xs, y);
        TailMembers(ys, y);
      }
      SortedUnique(xs[1..], ys[1..]);
      assert xs == [xs[0]] + xs[1..] && ys == [ys[0]] + ys[1..];
    }
  }

  ghost predicate Sorted(xs: seq<string>) {
    forall i, j | 0 <= i < j < |xs| :: !Less(xs[j], xs[i])
  }

  function Insert(x: string, xs: seq<string>): (r: seq<string>)
    ensures multiset(r) == multiset(xs) + multiset{x}
    ensures Sorted(xs) ==> Sorted(r)
  {
    if xs == [] then [x]
    else if !Less(xs[0], x) then
      InsertBefore(x, xs);
      [x] + xs
    else
      assert xs == [xs[0]] + xs[1..];
      var rest := Insert(x, xs[1..]);
      InsertAfter(x, xs, rest);
      [xs[0]] + rest
  }

  lemma InsertBefore(x: string, xs: seq<string>)
    requires xs != [] && !Less(xs[0], x)
    ensures Sorted(xs) ==> Sorted([x] + xs)
  {
    if Sorted(xs) {
      forall j | 0 <= j < |xs| ensures !Less(xs[j], x) {
        if Less(xs[j], x) && j > 0 {
          LessTotal(x, xs[0]);
          if x != xs[0] { LessTransitive(xs[j], x, xs[0]); }
        }
      }
    }
  }

  lemma InsertAfter(x: string, xs: seq<string>, rest: seq<string>)
    requires xs != [] && Less(xs[0], x)
    requires multiset(rest) == multiset(xs[1..]) + multiset{x}
    requires Sorted(xs[1..]) ==> Sorted(rest)
    ensures Sorted(xs) ==> Sorted([xs[0]] + rest)
  {
    if Sorted(xs) {
      forall y | y in rest ensures !Less(y, xs[0]) {
        assert y in multiset(rest);
        if Less(y, xs[0]) {
          if y == x { LessTransitive(x, xs[0], x); LessIrreflexive(x); }
        }
      }
      assert forall k | 0 <= k < |rest| :: rest[k] in rest;
    }
  }

  /** sorted(xs) */
  function Sort(xs: seq<string>): (r: seq<string>)
    ensures multiset(r) == multiset(xs)
    ensures Sorted(r)
  {
    if xs == [] then [] else
      assert xs == [xs[0]] + xs[1..];
      Insert(xs[0], Sort(xs[1..]))
  }

  /** Sorted lists are equal exactly when what was sorted is the same up to order. */
  lemma SortIsMultiset(xs: seq<string>, ys: seq<string>)
    ensures Sort(xs) == Sort(ys) <==> multiset(xs) == multiset(ys)
  {
    if multiset(xs) == multiset(ys) {
      SortedSame(Sort(xs), Sort(ys));
    }
  }

  /** The least member comes first. */
  lemma SortedHead(xs: seq<string>, ys: seq<string>)
    requires Sorted(xs) && Sorted(ys) && multiset(xs) == multiset(ys) && xs != [] && ys != []
    ensures xs[0] == ys[0]
  {
    assert xs[0] in multiset(ys) && ys[0] in multiset(xs);
    var i :| 0 <= i < |ys| && ys[i] == xs[0];
    var j :| 0 <= j < |xs| && xs[j] == ys[0];
    LessTotal(xs[0], ys[0]);
  }

  lemma {:induction false} SortedSame(xs: seq<string>, ys: seq<string>)
    requires Sorted(xs) && Sorted(ys) && multiset(xs) == multiset(ys)
    ensures xs == ys
  {
    assert |xs| == |multiset(xs)| == |multiset(ys)| == |ys|;
    if xs != [] {
      SortedHead(xs, ys);
      TailMultiset(xs);
      TailMultiset(ys);
      SortedSame(xs[1..], ys[1..]);
      assert xs == [xs[0]] + xs[1..] && ys == [ys[0]] + ys[1..];
    }
  }

  lemma TailMultiset(xs: seq<string>)
    requires xs != [] && Sorted(xs)
    ensures multiset(xs[1..]) == multiset(xs) - multiset{xs[0]} && Sorted(xs[1..])
  {
    assert xs == [xs[0]] + xs[1..];
    forall i, j | 0 <= i < j < |xs[1..]| ensures !Less(xs[1..][j], xs[1..][i]) {
      assert xs[1..][i] == xs[i + 1] && xs[1..][j] == xs[j + 1];
    }
  }
}
