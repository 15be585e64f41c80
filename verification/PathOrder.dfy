/** Sorting things by a path in UTF-8 byte order, and filtering sorted things. */
module PathOrder {
  import opened Utf8Order

  function Paths<T>(xs: seq<T>, path: T -> Text): (ps: seq<Text>)
    ensures |ps| == |xs| && forall i :: 0 <= i < |xs| ==> ps[i] == path(xs[i])
  {
    seq(|xs|, i requires 0 <= i < |xs| => path(xs[i]))
  }

  /** The paths of `xs`, each as often as it occurs. */
  function Bag<T>(xs: seq<T>, path: T -> Text): multiset<Text> { multiset(Paths(xs, path)) }

  predicate AllWellFormed(ps: seq<Text>) { forall p <- ps :: WellFormed(p) }

  predicate Ascending(ps: seq<Text>) { forall i, j :: 0 <= i < j < |ps| ==> !Below(ps[j], ps[i]) }

  predicate StrictlyAscending(ps: seq<Text>) { forall i, j :: 0 <= i < j < |ps| ==> Below(ps[i], ps[j]) }

  predicate Distinct<T(==)>(xs: seq<T>) { forall i, j :: 0 <= i < j < |xs| ==> xs[i] != xs[j] }

  function Insert<T>(x: T, sorted: seq<T>, path: T -> Text): seq<T> {
    if sorted == [] then [x]
    else if Below(path(sorted[0]), path(x)) then [sorted[0]] + Insert(x, sorted[1..], path)
    else [x] + sorted
  }

  /** `xs` in the byte order of their paths, things with equal paths in their old order. */
  function SortBy<T>(xs: seq<T>, path: T -> Text): seq<T> {
    if xs == [] then [] else Insert(xs[0], SortBy(xs[1..], path), path)
  }

  // ---------- sorting permutes ----------

  lemma {:induction false} InsertPermutes<T>(x: T, s: seq<T>, path: T -> Text)
    ensures multiset(Insert(x, s, path)) == multiset{x} + multiset(s)
  {
    hide Below;
    if s != [] {
      assert s == [s[0]] + s[1..];
      if Below(path(s[0]), path(x)) { InsertPermutes(x, s[1..], path); }
    }
  }

  lemma {:induction false} SortPermutes<T>(xs: seq<T>, path: T -> Text)
    ensures multiset(SortBy(xs, path)) == multiset(xs)
  {
    if xs != [] {
      assert xs == [xs[0]] + xs[1..];
      SortPermutes(xs[1..], path);
      InsertPermutes(xs[0], SortBy(xs[1..], path), path);
    }
  }

  lemma TailBag<T>(xs: seq<T>)
    requires xs != []
    ensures multiset(xs[1..]) == multiset(xs) - multiset{xs[0]}
  {
    assert xs == [xs[0]] + xs[1..];
  }

  lemma WithoutBag<T>(xs: seq<T>, i: nat)
    requires i < |xs|
    ensures multiset(xs[..i] + xs[i + 1..]) == multiset(xs) - multiset{xs[i]}
  {
    assert xs == xs[..i] + [xs[i]] + xs[i + 1..];
  }

  lemma SameExcept<T>(ps: seq<T>, qs: seq<T>, i: nat)
    requires ps != [] && i < |qs| && ps[0] == qs[i]
    requires multiset(ps[1..]) == multiset(qs[..i] + qs[i + 1..])
    ensures multiset(ps) == multiset(qs)
  {
    TailBag(ps);
    WithoutBag(qs, i);
    assert ps[0] in ps && qs[i] in qs;
    SameRest(multiset(ps), multiset(qs), ps[0]);
  }

  lemma {:induction false} BagOfPermuted<T>(xs: seq<T>, ys: seq<T>, path: T -> Text)
    requires multiset(xs) == multiset(ys)
    ensures Bag(xs, path) == Bag(ys, path)
  {
    hide Paths;
    if xs == [] {
      assert |multiset(ys)| == 0;
    } else {
      assert xs[0] in multiset(ys);
      var i :| 0 <= i < |ys| && ys[i] == xs[0];
      var rest := ys[..i] + ys[i + 1..];
      TailBag(xs);
      WithoutBag(ys, i);
      BagOfPermuted(xs[1..], rest, path);
      var ps, qs := Paths(xs, path), Paths(ys, path);
      assert Paths(xs[1..], path) == ps[1..];
      assert Paths(rest, path) == qs[..i] + qs[i + 1..];
      SameExcept(ps, qs, i);
    }
  }

  lemma SameRest<T>(a: multiset<T>, b: multiset<T>, x: T)
    requires x in a && x in b && a - multiset{x} == b - multiset{x}
    ensures a == b
  {
    assert a == a - multiset{x} + multiset{x};
    assert b == b - multiset{x} + multiset{x};
  }

  // ---------- sorting orders ----------

  lemma NotBelowTransitive(a: Text, b: Text, c: Text)
    requires WellFormed(a) && WellFormed(b) && WellFormed(c)
    requires !Below(b, a) && !Below(c, b)
    ensures !Below(c, a)
  {
    BelowTotal(a, b);
    BelowTotal(b, c);
    if Below(c, a) {
      if b != a { BelowTransitive(c, a, b); }
    }
  }

  /** Putting a path in front of an ascending list none of whose paths is below it. */
  lemma PrependAscends(p: Text, ps: seq<Text>)
    requires WellFormed(p) && AllWellFormed(ps) && Ascending(ps)
    requires forall q <- ps :: !Below(q, p)
    ensures Ascending([p] + ps) && AllWellFormed([p] + ps)
  {}

  lemma InsertPaths<T>(x: T, s: seq<T>, path: T -> Text)
    ensures multiset(Paths(Insert(x, s, path), path)) == multiset{path(x)} + multiset(Paths(s, path))
  {
    hide Below;
    InsertPermutes(x, s, path);
    assert multiset([x] + s) == multiset{x} + multiset(s);
    BagOfPermuted(Insert(x, s, path), [x] + s, path);
    assert Paths([x] + s, path) == [path(x)] + Paths(s, path);
  }

  lemma {:induction false} InsertAscends<T>(x: T, s: seq<T>, path: T -> Text)
    requires WellFormed(path(x)) && AllWellFormed(Paths(s, path)) && Ascending(Paths(s, path))
    ensures Ascending(Paths(Insert(x, s, path), path)) && AllWellFormed(Paths(Insert(x, s, path), path))
  {
    hide Below, WellFormed, Paths;
    var ps, p := Paths(s, path), path(x);
    if s == [] {
      assert Insert(x, s, path) == [x];
    } else if Below(ps[0], p) {
      assert Paths(s[1..], path) == ps[1..];
      InsertAscends(x, s[1..], path);
      InsertPaths(x, s[1..], path);
      assert Paths(Insert(x, s, path), path) == [ps[0]] + Paths(Insert(x, s[1..], path), path);
      InsertBehind(p, ps, Paths(Insert(x, s[1..], path), path));
    } else {
      InsertFront(p, ps);
      assert Paths([x] + s, path) == [p] + ps;
    }
  }

  lemma InsertFront(p: Text, ps: seq<Text>)
    requires WellFormed(p) && ps != [] && AllWellFormed(ps) && Ascending(ps) && !Below(ps[0], p)
    ensures Ascending([p] + ps) && AllWellFormed([p] + ps)
  {
    hide Below, WellFormed;
    assert ps[0] in ps;
    forall q <- ps ensures !Below(q, p) {
      if q != ps[0] { NotBelowTransitive(p, ps[0], q); }
    }
    PrependAscends(p, ps);
  }

  lemma InsertBehind(p: Text, ps: seq<Text>, rest: seq<Text>)
    requires WellFormed(p) && ps != [] && AllWellFormed(ps) && Ascending(ps) && Below(ps[0], p)
    requires AllWellFormed(rest) && Ascending(rest) && multiset(rest) == multiset{p} + multiset(ps[1..])
    ensures Ascending([ps[0]] + rest) && AllWellFormed([ps[0]] + rest)
  {
    hide Below, WellFormed;
    assert ps[0] in ps;
    BelowTotal(ps[0], p);
    forall q <- rest ensures !Below(q, ps[0]) {
      assert q in multiset(rest);
    }
    PrependAscends(ps[0], rest);
  }

  lemma {:induction false} SortAscends<T>(xs: seq<T>, path: T -> Text)
    requires AllWellFormed(Paths(xs, path))
    ensures Ascending(Paths(SortBy(xs, path), path)) && AllWellFormed(Paths(SortBy(xs, path), path))
  {
    hide Below, WellFormed;
    if xs != [] {
      var ps := Paths(xs, path);
      assert Paths(xs[1..], path) == ps[1..] && ps[0] in ps;
      SortAscends(xs[1..], path);
      InsertAscends(xs[0], SortBy(xs[1..], path), path);
    }
  }

  lemma SameFirst(ps: seq<Text>, qs: seq<Text>)
    requires ps != [] && qs != [] && AllWellFormed(ps)
    requires Ascending(ps) && Ascending(qs) && multiset(ps) == multiset(qs)
    ensures ps[0] == qs[0]
  {
    hide Below, WellFormed;
    assert ps[0] in multiset(qs) && qs[0] in multiset(ps);
    var i :| 0 <= i < |qs| && qs[i] == ps[0];
    var j :| 0 <= j < |ps| && ps[j] == qs[0];
    assert ps[0] in ps && ps[j] in ps;
    BelowTotal(ps[0], qs[0]);
  }

  /** There is one way to put paths in order. */
  lemma {:induction false} AscendingUnique(ps: seq<Text>, qs: seq<Text>)
    requires AllWellFormed(ps) && Ascending(ps) && Ascending(qs) && multiset(ps) == multiset(qs)
    ensures ps == qs
  {
    hide Below, WellFormed;
    if ps == [] {
      assert |multiset(qs)| == 0;
    } else {
      assert |multiset(ps)| == |ps| == |qs|;
      SameFirst(ps, qs);
      TailBag(ps);
      TailBag(qs);
      AscendingUnique(ps[1..], qs[1..]);
      assert ps == [ps[0]] + ps[1..] && qs == [qs[0]] + qs[1..];
    }
  }

  lemma DistinctCounts<T>(xs: seq<T>)
    requires Distinct(xs)
    ensures forall x <- xs :: multiset(xs)[x] == 1
  {
    forall x <- xs ensures multiset(xs)[x] == 1 {
      var i :| 0 <= i < |xs| && xs[i] == x;
      assert xs == xs[..i] + [x] + xs[i + 1..];
      assert x !in xs[..i] && x !in xs[i + 1..];
    }
  }

  lemma CountsDistinct<T>(xs: seq<T>)
    requires forall x <- xs :: multiset(xs)[x] == 1
    ensures Distinct(xs)
  {
    forall i, j | 0 <= i < j < |xs| ensures xs[i] != xs[j] {
      assert xs == xs[..j] + [xs[j]] + xs[j + 1..];
      assert xs[i] in xs[..j];
      assert xs[j] in xs;
    }
  }

  lemma PermutedDistinct<T>(xs: seq<T>, ys: seq<T>)
    requires multiset(xs) == multiset(ys) && Distinct(xs)
    ensures Distinct(ys)
  {
    DistinctCounts(xs);
    forall y <- ys ensures multiset(ys)[y] == 1 { assert y in multiset(xs); }
    CountsDistinct(ys);
  }

  lemma StrictMeansDistinct(ps: seq<Text>)
    requires AllWellFormed(ps) && Ascending(ps)
    ensures Distinct(ps) <==> StrictlyAscending(ps)
  {
    hide Below, WellFormed;
    forall i, j | 0 <= i < j < |ps| ensures ps[i] != ps[j] <==> Below(ps[i], ps[j]) {
      assert ps[i] in ps && ps[j] in ps;
      BelowTotal(ps[i], ps[j]);
    }
  }

  /** The paths of a sorted list depend only on which paths there are. */
  lemma SortedPaths<T>(xs: seq<T>, ys: seq<T>, path: T -> Text)
    requires AllWellFormed(Paths(xs, path)) && multiset(xs) == multiset(ys)
    ensures Paths(SortBy(xs, path), path) == Paths(SortBy(ys, path), path)
  {
    hide SortBy, Below, WellFormed, Paths;
    SortPermutes(xs, path);
    SortPermutes(ys, path);
    BagOfPermuted(xs, ys, path);
    BagOfPermuted(SortBy(xs, path), xs, path);
    BagOfPermuted(SortBy(ys, path), ys, path);
    forall p <- Paths(ys, path) ensures WellFormed(p) { assert p in multiset(Paths(ys, path)); }
    SortAscends(xs, path);
    SortAscends(ys, path);
    AscendingUnique(Paths(SortBy(xs, path), path), Paths(SortBy(ys, path), path));
  }

  /** Things with distinct paths have one sorted order. */
  lemma SortUnique<T>(xs: seq<T>, ys: seq<T>, path: T -> Text)
    requires AllWellFormed(Paths(xs, path)) && Distinct(Paths(xs, path)) && multiset(xs) == multiset(ys)
    ensures SortBy(xs, path) == SortBy(ys, path)
  {
    hide SortBy, Below, WellFormed, Paths;
    var s, t := SortBy(xs, path), SortBy(ys, path);
    SortedPaths(xs, ys, path);
    SortPermutes(xs, path);
    SortPermutes(ys, path);
    BagOfPermuted(t, xs, path);
    PermutedDistinct(Paths(xs, path), Paths(t, path));
    assert |s| == |multiset(s)| == |multiset(t)| == |t|;
    forall i | 0 <= i < |s| ensures s[i] == t[i] {
      assert s[i] in multiset(t);
      var j :| 0 <= j < |t| && t[j] == s[i];
      assert Paths(t, path)[j] == Paths(s, path)[i] == Paths(t, path)[i];
    }
  }

  /** A list that is already in strict order is its own sorted form. */
  lemma SortOfSorted<T>(xs: seq<T>, path: T -> Text)
    requires AllWellFormed(Paths(xs, path)) && StrictlyAscending(Paths(xs, path))
    ensures SortBy(xs, path) == xs
  {
    hide Below, WellFormed, Paths;
    if xs != [] {
      var ps := Paths(xs, path);
      assert Paths(xs[1..], path) == ps[1..];
      SortOfSorted(xs[1..], path);
      if |xs| > 1 {
        assert Below(ps[0], ps[1]) && ps[0] in ps && ps[1] in ps;
        BelowTotal(ps[0], ps[1]);
      }
      assert xs == [xs[0]] + xs[1..];
    }
  }

  /** Sorting things with distinct paths gives a strict order of the same paths. */
  lemma SortStrict<T>(xs: seq<T>, path: T -> Text)
    requires AllWellFormed(Paths(xs, path)) && Distinct(Paths(xs, path))
    ensures StrictlyAscending(Paths(SortBy(xs, path), path)) && Bag(SortBy(xs, path), path) == Bag(xs, path)
  {
    hide SortBy, Below, WellFormed, Paths;
    SortPermutes(xs, path);
    SortAscends(xs, path);
    BagOfPermuted(xs, SortBy(xs, path), path);
    PermutedDistinct(Paths(xs, path), Paths(SortBy(xs, path), path));
    StrictMeansDistinct(Paths(SortBy(xs, path), path));
  }

  // ---------- filtering ----------

  function Filter<T>(xs: seq<T>, keep: T -> bool): (ys: seq<T>)
    ensures forall y <- ys :: y in xs && keep(y)
    ensures forall x <- xs :: keep(x) ==> x in ys
  {
    if xs == [] then []
    else
      var front, last := xs[..|xs| - 1], xs[|xs| - 1];
      assert xs == front + [last];
      Filter(front, keep) + if keep(last) then [last] else []
  }

  lemma FilterSnoc<T>(xs: seq<T>, x: T, keep: T -> bool)
    ensures Filter(xs + [x], keep) == Filter(xs, keep) + if keep(x) then [x] else []
  {
    assert (xs + [x])[..|xs|] == xs;
  }

  lemma {:induction false} FilterStrict<T>(xs: seq<T>, keep: T -> bool, path: T -> Text)
    requires StrictlyAscending(Paths(xs, path))
    ensures StrictlyAscending(Paths(Filter(xs, keep), path))
  {
    hide Below;
    if xs != [] {
      var front, last := xs[..|xs| - 1], xs[|xs| - 1];
      assert Paths(front, path) == Paths(xs, path)[..|xs| - 1];
      FilterStrict(front, keep, path);
      forall y <- Filter(front, keep) ensures Below(path(y), path(last)) {
        var i :| 0 <= i < |front| && front[i] == y;
        assert Below(Paths(xs, path)[i], Paths(xs, path)[|xs| - 1]);
      }
    }
  }
}
