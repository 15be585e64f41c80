/** Removing a directory of a tree with all it holds, under faults. */
module ExportCleanup {
  import opened ExportDisk

  /** Nothing was added or changed, and nothing outside `d` was removed. */
  ghost predicate OnlyRemovedBelow(before: Tree, after: Tree, d: Path) {
    && (forall p <- after :: p in before && after[p] == before[p])
    && (forall p <- before :: !(d < p) ==> p in after)
  }

  lemma NothingBelowFile(t: Tree, p: Path)
    requires Rooted(t) && p in t && t[p].File?
    ensures Below(t, p) == {}
  {
    forall q | q in t && p < q ensures false {
      var child := q[..|p| + 1];
      assert Parent(child) == p;
      NothingBelow(t, child, q);
    }
  }

  lemma NoChildNothingBelow(t: Tree, d: Path)
    requires Rooted(t) && forall n :: d + [n] !in t
    ensures Below(t, d) == {}
  {
    forall q | q in t && d < q ensures false {
      assert q[..|d| + 1] == d + [q[|d|]];
      NothingBelow(t, q[..|d| + 1], q);
    }
  }

  lemma UnlinkKeepsRooted(t: Tree, p: Path)
    requires Rooted(t) && Below(t, p) == {}
    ensures Rooted(t - {p})
  {
    forall q | q in t - {p} ensures IsDir(t - {p}, Parent(q)) {
      assert q !in Below(t, p);
    }
  }

  lemma RemovedStep(before: Tree, middle: Tree, after: Tree, d: Path, n: Name)
    requires OnlyRemovedBelow(before, middle, d)
    requires after == middle - {d + [n]} || OnlyRemovedBelow(middle, after, d + [n])
    ensures OnlyRemovedBelow(before, after, d)
  {
    assert d < d + [n];
  }

  lemma RemovedTwice(before: Tree, middle: Tree, after: Tree, d: Path)
    requires OnlyRemovedBelow(before, middle, d) && OnlyRemovedBelow(middle, after, d)
    ensures OnlyRemovedBelow(before, after, d)
  {}

  lemma FewerBelow(before: Tree, after: Tree, d: Path)
    requires OnlyRemovedBelow(before, after, d)
    ensures Below(after, d) <= Below(before, d)
  {}

  /** Every child still there is yet to be removed. */
  ghost predicate Remaining(t: Tree, d: Path, names: seq<Name>) { forall n :: d + [n] in t ==> n in names }

  /** Every name yet to be removed is there. */
  ghost predicate Present(t: Tree, d: Path, names: seq<Name>) { forall n <- names :: d + [n] in t }

  lemma EntryRemoved(before: Tree, after: Tree, d: Path, names: seq<Name>, i: nat)
    requires i < |names| && (forall j, k :: 0 <= j < k < |names| ==> names[j] != names[k])
    requires OnlyRemovedBelow(before, after, d) && d + [names[i]] !in after
    requires forall p <- before :: !(d + [names[i]] <= p) ==> p in after
    ensures Present(before, d, names[i..]) ==> Present(after, d, names[i + 1..])
    ensures Remaining(before, d, names[i..]) ==> Remaining(after, d, names[i + 1..])
  {
    assert names[i..] == [names[i]] + names[i + 1..];
    forall n <- names[i + 1..] ensures !(d + [names[i]] <= d + [n]) {
      assert (d + [n])[|d|] == n && (d + [names[i]])[|d|] == names[i];
    }
  }

  /** Remove the entries of a directory, each with all below it. Recursion ends because
      the nodes below a child are fewer. */
  method RemoveDirectoryContents(disk: Disk, d: Path) returns (ok: bool)
    requires Rooted(disk.tree)
    modifies disk
    ensures old(disk.calls) <= disk.calls && Rooted(disk.tree) && OnlyRemovedBelow(old(disk.tree), disk.tree, d)
    ensures disk.Calm(old(disk.calls), disk.calls) ==> ok && Below(disk.tree, d) == {}
    decreases Below(disk.tree, d)
  {
    hide Rooted, Below, OnlyRemovedBelow, Remaining, Present;
    ghost var before := disk.tree;
    NothingRemoved(before, d);
    var names, listed := disk.List(d);
    if !listed {
      return false;
    }
    AllListed(before, d, names);
    for i := 0 to |names|
      invariant old(disk.calls) <= disk.calls && Rooted(disk.tree) && OnlyRemovedBelow(before, disk.tree, d)
      invariant Present(disk.tree, d, names[i..])
      invariant disk.Calm(old(disk.calls), disk.calls) ==> Remaining(disk.tree, d, names[i..])
    {
      ghost var middle := disk.tree;
      FirstPresent(middle, d, names, i);
      FewerBelow(before, middle, d);
      var removed := RemoveEntry(disk, d, names[i]);
      RemovedTwice(before, middle, disk.tree, d);
      if !removed {
        return false;
      }
      EntryRemoved(middle, disk.tree, d, names, i);
    }
    if disk.Calm(old(disk.calls), disk.calls) { NoneRemaining(disk.tree, d, names[|names|..]); }
    return true;
  }

  lemma NothingRemoved(t: Tree, d: Path)
    ensures OnlyRemovedBelow(t, t, d)
  {}

  lemma AllListed(t: Tree, d: Path, names: seq<Name>)
    requires forall n <- names :: d + [n] in t
    ensures Present(t, d, names[0..])
    ensures (forall n :: d + [n] in t ==> n in names) ==> Remaining(t, d, names[0..])
  {
    assert names[0..] == names;
  }

  lemma FirstPresent(t: Tree, d: Path, names: seq<Name>, i: nat)
    requires i < |names| && Present(t, d, names[i..])
    ensures d + [names[i]] in t
  {
    assert names[i] in names[i..];
  }

  lemma NoneRemaining(t: Tree, d: Path, names: seq<Name>)
    requires Rooted(t) && Remaining(t, d, names) && names == []
    ensures Below(t, d) == {}
  {
    NoChildNothingBelow(t, d);
  }

  /** Remove one entry: a directory once it is empty, anything else at once. */
  method RemoveEntry(disk: Disk, d: Path, n: Name) returns (ok: bool)
    requires Rooted(disk.tree) && d + [n] in disk.tree
    modifies disk
    ensures old(disk.calls) <= disk.calls && Rooted(disk.tree) && OnlyRemovedBelow(old(disk.tree), disk.tree, d)
    ensures forall p <- old(disk.tree) :: !(d + [n] <= p) ==> p in disk.tree
    ensures ok ==> d + [n] !in disk.tree
    ensures disk.Calm(old(disk.calls), disk.calls) ==> ok
    decreases Below(disk.tree, d), 0
  {
    var p := d + [n];
    assert Below(disk.tree, p) < Below(disk.tree, d) by {
      assert p in Below(disk.tree, d) && p !in Below(disk.tree, p);
    }
    ghost var before := disk.tree;
    var found := disk.Stat(p);
    if !found {
      return false;
    }
    if disk.tree[p].Dir? {
      var entered := disk.Touch();
      if !entered {
        return false;
      }
      var emptied := RemoveDirectoryContents(disk, p);
      RemovedStep(before, before, disk.tree, d, n);
      if !emptied {
        return false;
      }
      found := disk.Stat(p);
      if !found {
        return false;
      }
    } else {
      NothingBelowFile(disk.tree, p);
    }
    ghost var middle := disk.tree;
    ok := disk.Unlink(p);
    if ok {
      UnlinkKeepsRooted(middle, p);
      RemovedStep(before, middle, disk.tree, d, n);
    }
  }

  /** Two trees differ at most at and below one name. */
  ghost predicate SameOutside(before: Tree, after: Tree, name: Name) {
    forall p :: !([name] <= p) ==> (p in before <==> p in after) && (p in before ==> before[p] == after[p])
  }

  lemma UnlinkedIsBase(base: Tree, t: Tree, name: Name)
    requires Rooted(base) && [name] !in base && SameOutside(base, t, name) && Below(t, [name]) == {}
    ensures t - {[name]} == base
  {
    var u := t - {[name]};
    forall p ensures (p in u <==> p in base) && (p in u ==> u[p] == base[p]) {
      if [name] <= p {
        NothingBelow(base, [name], p);
        assert p !in Below(t, [name]);
        assert p == [name] || [name] < p;
      }
    }
    assert u == base;
  }

  lemma RemovedOutside(base: Tree, before: Tree, after: Tree, name: Name)
    requires SameOutside(base, before, name) && OnlyRemovedBelow(before, after, [name])
    ensures SameOutside(base, after, name)
  {}

  /** Remove the staging directory: all of it, or else nothing outside it changed. */
  method CleanupOwnedStaging(disk: Disk, staging: Name, ghost base: Tree) returns (ok: bool)
    requires Rooted(base) && [staging] !in base
    requires Rooted(disk.tree) && [staging] in disk.tree && disk.tree[[staging]].Dir?
    requires SameOutside(base, disk.tree, staging)
    modifies disk
    ensures old(disk.calls) <= disk.calls
    ensures ok ==> disk.tree == base
    ensures SameOutside(base, disk.tree, staging)
    ensures disk.Calm(old(disk.calls), disk.calls) ==> ok
  {
    ghost var before := disk.tree;
    var found := disk.Stat([staging]);
    if !found {
      return false;
    }
    var emptied := RemoveDirectoryContents(disk, [staging]);
    RemovedOutside(base, before, disk.tree, staging);
    if !emptied {
      return false;
    }
    found := disk.Stat([staging]);
    if !found {
      return false;
    }
    ghost var middle := disk.tree;
    ok := disk.Unlink([staging]);
    if ok { UnlinkedIsBase(base, middle, staging); }
  }
}
