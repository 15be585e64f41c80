/** The atomic export of a bundle: it is staged under a name of its own and renamed into
    place, so that a fault at any call leaves all of it or none. */
module BundleExport {
  import opened Utf8Order
  import opened ExportDisk
  import opened ExportCleanup

  const MANIFEST: Name := [109, 97, 110, 105, 102, 101, 115, 116, 46, 106, 115, 111, 110]
  const SOURCES: Name := [115, 111, 117, 114, 99, 101, 115]
  const STAGING_PREFIX: Name := [46, 107, 101, 114, 110, 105, 113, 45, 99, 111, 100, 105, 110, 103, 45, 112, 97, 99,
                                 107, 45, 115, 116, 97, 103, 105, 110, 103, 45]

  /** A source and its path, as the list of its components. */
  datatype Source = Source(path: Path, bytes: Bytes)

  datatype Phase = StagingCreate | ManifestWrite | SourceWrite | Flush | Promotion | Cleanup

  datatype Outcome = PromotedAndSynced | PromotedButDurabilityUncertain | PrePromotionFailure(phase: Phase)

  const BACKSLASH := 92

  /** A portable relative path: at least one component, each a valid name without a
      backslash, so that writing paths with slashes changes nothing. */
  predicate Portable(p: Path) { p != [] && forall n <- p :: ValidName(n) && BACKSLASH !in n }

  predicate AllPortable(sources: seq<Source>) { forall s <- sources :: Portable(s.path) }

  predicate IsLowerHexDigit(b: int) { 48 <= b <= 57 || 97 <= b <= 102 }

  predicate StagingNameOk(n: Name) {
    && |n| == |STAGING_PREFIX| + 32 && STAGING_PREFIX <= n
    && (forall i :: |STAGING_PREFIX| <= i < |n| ==> IsLowerHexDigit(n[i]))
    && ValidName(n)
  }

  // ---------- the directories of the sources ----------

  /** The proper prefixes of the source paths. */
  ghost predicate IsSourceDirectory(sources: seq<Source>, d: Path) { d != [] && exists s <- sources :: d < s.path }

  /** No component holds a slash. */
  predicate Plain(p: Path) { forall n <- p :: SLASH !in n }

  lemma PlainPrefix(p: Path, q: Path)
    requires p <= q && Plain(q)
    ensures Plain(p)
  {
    forall n <- p ensures SLASH !in n { assert n in q; }
  }

  /** A path as text, its components joined with slashes. */
  function Joined(p: Path): seq<int> {
    if p == [] then [] else if |p| == 1 then p[0] else Joined(Parent(p)) + [SLASH] + p[|p| - 1]
  }

  /** Insert a directory into a list sorted by text, unless it is there. */
  function InsertDirectory(d: Path, ds: seq<Path>): seq<Path> {
    if ds == [] then [d]
    else if Joined(d) == Joined(ds[0]) then ds
    else if Precedes(Joined(d), Joined(ds[0])) then [d] + ds
    else [ds[0]] + InsertDirectory(d, ds[1..])
  }

  predicate SortedByText(ds: seq<Path>) {
    (forall d <- ds :: d != []) && forall i, j :: 0 <= i < j < |ds| ==> Precedes(Joined(ds[i]), Joined(ds[j]))
  }

  lemma {:induction false} PrecedesIrreflexive(a: seq<int>)
    ensures !Precedes(a, a)
  {
    if a != [] { PrecedesIrreflexive(a[1..]); }
  }

  lemma {:induction false} PrecedesTotal(a: seq<int>, b: seq<int>)
    ensures a == b || Precedes(a, b) || Precedes(b, a)
  {
    if a != [] && b != [] && a[0] == b[0] {
      PrecedesTotal(a[1..], b[1..]);
      assert a == [a[0]] + a[1..] && b == [b[0]] + b[1..];
    }
  }

  lemma {:induction false} PrefixPrecedes(a: seq<int>, b: seq<int>)
    requires b != []
    ensures Precedes(a, a + b)
  {
    if a != [] {
      assert (a + b)[1..] == a[1..] + b;
      PrefixPrecedes(a[1..], b);
    }
  }

  lemma LastComponent(p: Path)
    requires p != []
    ensures |Joined(p)| >= |p[|p| - 1]| && Joined(p)[|Joined(p)| - |p[|p| - 1]|..] == p[|p| - 1]
    ensures |p| == 1 ==> |Joined(p)| == |p[|p| - 1]|
    ensures |p| > 1 ==> |Joined(p)| > |p[|p| - 1]| && Joined(p)[|Joined(p)| - |p[|p| - 1]| - 1] == SLASH
                        && Joined(p)[..|Joined(p)| - |p[|p| - 1]| - 1] == Joined(Parent(p))
  {}

  lemma LastNotLonger(p: Path, q: Path)
    requires p != [] && q != [] && SLASH !in q[|q| - 1] && Joined(p) == Joined(q)
    ensures |p[|p| - 1]| >= |q[|q| - 1]|
  {
    LastComponent(p);
    LastComponent(q);
    var a, b, t := p[|p| - 1], q[|q| - 1], Joined(p);
    if |p| > 1 && |a| < |b| { SuffixElement(t, b, |a| + 1); }
  }

  lemma SuffixElement(t: seq<int>, b: seq<int>, k: int)
    requires |b| <= |t| && t[|t| - |b|..] == b && 0 < k <= |b|
    ensures t[|t| - k] in b
  {
    assert t[|t| - k] == b[|b| - k];
  }

  /** Paths without a slash in a component are told apart by their text. */
  lemma {:induction false} JoinedInjective(p: Path, q: Path)
    requires p != [] && q != [] && Plain(p) && Plain(q)
    requires Joined(p) == Joined(q)
    ensures p == q
  {
    LastComponent(p);
    LastComponent(q);
    assert p[|p| - 1] in p && q[|q| - 1] in q;
    LastNotLonger(p, q);
    LastNotLonger(q, p);
    if |p| > 1 && |q| > 1 {
      PlainPrefix(Parent(p), p);
      PlainPrefix(Parent(q), q);
      JoinedInjective(Parent(p), Parent(q));
      assert p == Parent(p) + [p[|p| - 1]] && q == Parent(q) + [q[|q| - 1]];
    }
  }

  lemma {:induction false} InsertKeepsSorted(d: Path, ds: seq<Path>)
    requires d != [] && SortedByText(ds)
    requires Plain(d) && forall x <- ds :: Plain(x)
    ensures SortedByText(InsertDirectory(d, ds))
    ensures forall x :: x in InsertDirectory(d, ds) <==> x == d || x in ds
  {
    hide Joined, Precedes;
    if ds != [] {
      assert forall x :: x in ds <==> x == ds[0] || x in ds[1..];
      PrecedesTotal(Joined(d), Joined(ds[0]));
      if Joined(d) == Joined(ds[0]) {
        assert ds[0] in ds;
        JoinedInjective(d, ds[0]);
      } else if Precedes(Joined(d), Joined(ds[0])) {
        forall j | 0 <= j < |ds| ensures Precedes(Joined(d), Joined(ds[j])) {
          if j > 0 { PrecedesTransitive(Joined(d), Joined(ds[0]), Joined(ds[j])); }
        }
      } else {
        InsertKeepsSorted(d, ds[1..]);
        BehindFirst(d, ds, InsertDirectory(d, ds[1..]));
      }
    }
  }

  lemma BehindFirst(d: Path, ds: seq<Path>, rest: seq<Path>)
    requires ds != [] && SortedByText(ds) && SortedByText(rest) && Precedes(Joined(ds[0]), Joined(d))
    requires forall x :: x in rest <==> x == d || x in ds[1..]
    ensures SortedByText([ds[0]] + rest)
  {
    hide Joined, Precedes;
    assert ds[0] in ds;
    forall j | 0 <= j < |rest| ensures Precedes(Joined(ds[0]), Joined(rest[j])) {
      assert rest[j] in rest;
      if rest[j] != d {
        var k :| 0 <= k < |ds[1..]| && ds[1..][k] == rest[j];
        assert ds[k + 1] == rest[j];
      }
    }
  }

  /** All proper prefixes of all source paths, sorted by their text. */
  method SourceDirectoryPaths(sources: seq<Source>) returns (directories: seq<Path>)
    requires AllPortable(sources)
    ensures SortedByText(directories)
    ensures forall d :: d in directories <==> IsSourceDirectory(sources, d)
  {
    directories := [];
    for i := 0 to |sources|
      invariant SortedByText(directories)
      invariant forall d :: d in directories <==> IsSourceDirectory(sources[..i], d)
    {
      var path := sources[i].path;
      var current: Path := [];
      ghost var before := directories;
      while |current| < |path| - 1
        invariant current < path
        invariant SortedByText(directories)
        invariant forall d :: d in directories <==> d in before || (d != [] && d <= current)
        decreases |path| - |current|
      {
        assert sources[i] in sources;
        var next := current + [path[|current|]];
        PortableDirectories(sources, i, before, current, directories, next);
        InsertKeepsSorted(next, directories);
        directories := InsertDirectory(next, directories);
        forall d ensures d in directories <==> d in before || (d != [] && d <= next) {
          if d <= next && |d| < |next| { assert d <= current; }
        }
        current := next;
      }
      forall d ensures d in directories <==> IsSourceDirectory(sources[..i + 1], d) {
        assert sources[..i + 1] == sources[..i] + [sources[i]];
        assert d < path <==> d <= current;
      }
    }
    assert sources[..|sources|] == sources;
  }

  lemma PortableDirectories(sources: seq<Source>, i: nat, before: seq<Path>, current: Path, directories: seq<Path>,
                            next: Path)
    requires AllPortable(sources) && i < |sources| && current <= sources[i].path && next <= sources[i].path
    requires forall d :: d in before <==> IsSourceDirectory(sources[..i], d)
    requires forall d <- directories :: d in before || d <= current
    ensures Plain(next) && forall d <- directories :: Plain(d)
  {
    assert sources[i] in sources;
    PlainPrefix(next, sources[i].path);
    forall d <- directories ensures Plain(d) {
      if d in before {
        var s :| s in sources[..i] && d < s.path;
        assert s in sources;
        PlainPrefix(d, s.path);
      } else {
        PlainPrefix(d, sources[i].path);
      }
    }
  }

  /** A directory comes after the one that holds it. */
  lemma ParentsFirst(sources: seq<Source>, directories: seq<Path>, i: nat)
    requires SortedByText(directories) && forall d :: d in directories <==> IsSourceDirectory(sources, d)
    requires i < |directories| && |directories[i]| > 1
    ensures Parent(directories[i]) in directories[..i]
  {
    hide Precedes;
    var d := directories[i];
    assert d in directories;
    var s :| s in sources && d < s.path;
    assert Parent(d) < s.path && IsSourceDirectory(sources, Parent(d));
    assert Parent(d) in directories;
    var j :| 0 <= j < |directories| && directories[j] == Parent(d);
    PrefixPrecedes(Joined(Parent(d)), [SLASH] + d[|d| - 1]);
    assert Joined(Parent(d)) + ([SLASH] + d[|d| - 1]) == Joined(d);
    if j > i { PrecedesTransitive(Joined(d), Joined(Parent(d)), Joined(d)); }
    PrecedesIrreflexive(Joined(d));
  }

  // ---------- what is written ----------

  /** The bundle before its sources: the manifest, and an empty place for sources. */
  function Empty(manifest: Bytes): Tree { map[[] := Dir, [MANIFEST] := File(manifest), [SOURCES] := Dir] }

  function WithDirectories(content: Tree, ds: seq<Path>): Tree {
    if ds == [] then content else WithDirectories(content, ds[..|ds| - 1])[[SOURCES] + ds[|ds| - 1] := Dir]
  }

  function WithFiles(content: Tree, sources: seq<Source>): Tree {
    if sources == [] then content
    else
      var last := sources[|sources| - 1];
      WithFiles(content, sources[..|sources| - 1])[[SOURCES] + last.path := File(last.bytes)]
  }

  /** Sources that can lie in one tree: no path twice, none a directory of another. */
  ghost predicate Compatible(sources: seq<Source>) {
    && (forall i, j :: 0 <= i < j < |sources| ==> sources[i].path != sources[j].path)
    && (forall s <- sources :: !IsSourceDirectory(sources, s.path))
  }

  /** The nodes of a whole bundle: the manifest, every source at its path, the directories
      these need, and nothing else. */
  ghost predicate IsBundle(content: Tree, manifest: Bytes, sources: seq<Source>) {
    && (forall r :: r in content <==>
          || r == [] || r == [MANIFEST] || r == [SOURCES]
          || (r != [] && r[0] == SOURCES
              && (IsSourceDirectory(sources, r[1..]) || exists s <- sources :: r[1..] == s.path)))
    && content[[]] == Dir && content[[MANIFEST]] == File(manifest) && content[[SOURCES]] == Dir
    && (forall s <- sources :: content[[SOURCES] + s.path] == File(s.bytes))
    && (forall d :: IsSourceDirectory(sources, d) ==> content[[SOURCES] + d] == Dir)
  }

  lemma {:induction false} WithDirectoriesAt(content: Tree, ds: seq<Path>, r: Path)
    ensures var t := WithDirectories(content, ds);
            && (r in t <==> r in content || exists d <- ds :: r == [SOURCES] + d)
            && (r in t ==> t[r] == if exists d <- ds :: r == [SOURCES] + d then Dir else content[r])
  {
    if ds != [] {
      var front := ds[..|ds| - 1];
      assert ds == front + [ds[|ds| - 1]];
      WithDirectoriesAt(content, front, r);
    }
  }

  lemma {:induction false} WithFilesAt(content: Tree, sources: seq<Source>, r: Path)
    ensures var t := WithFiles(content, sources);
            && (r in t <==> r in content || exists s <- sources :: r == [SOURCES] + s.path)
            && (r in t && (!exists s <- sources :: r == [SOURCES] + s.path) ==> t[r] == content[r])
  {
    if sources != [] {
      var front := sources[..|sources| - 1];
      assert sources == front + [sources[|sources| - 1]];
      WithFilesAt(content, front, r);
    }
  }

  lemma {:induction false} FileWritten(content: Tree, sources: seq<Source>, i: nat)
    requires i < |sources| && forall i, j :: 0 <= i < j < |sources| ==> sources[i].path != sources[j].path
    ensures [SOURCES] + sources[i].path in WithFiles(content, sources)
    ensures WithFiles(content, sources)[[SOURCES] + sources[i].path] == File(sources[i].bytes)
  {
    var n := |sources| - 1;
    if i < n {
      FileWritten(content, sources[..n], i);
      assert ([SOURCES] + sources[i].path)[1..] == sources[i].path;
      assert ([SOURCES] + sources[n].path)[1..] == sources[n].path;
    }
  }

  /** The manifest and the sources determine the bundle. */
  lemma BundleUnique(a: Tree, b: Tree, manifest: Bytes, sources: seq<Source>)
    requires IsBundle(a, manifest, sources) && IsBundle(b, manifest, sources)
    ensures a == b
  {
    forall r | r in a ensures a[r] == b[r] {
      if r != [] && r[0] == SOURCES {
        assert r == [SOURCES] + r[1..];
        if r == [SOURCES] {
        } else if IsSourceDirectory(sources, r[1..]) {
          assert a[[SOURCES] + r[1..]] == b[[SOURCES] + r[1..]];
        } else {
          var s :| s in sources && r[1..] == s.path;
          assert a[[SOURCES] + s.path] == b[[SOURCES] + s.path];
        }
      }
    }
    assert forall r :: r in a <==> r in b;
  }
}
