/** A directory tree changed by system calls of which any may fail. */
module ExportDisk {
  type Name = seq<int>

  type Path = seq<Name>

  type Bytes = seq<int>

  datatype Node = Dir | File(bytes: Bytes)

  /** The nodes below an opened directory, by their path from it. */
  type Tree = map<Path, Node>

  predicate IsDir(t: Tree, p: Path) { p == [] || (p in t && t[p].Dir?) }

  function Parent(p: Path): Path
    requires p != []
  {
    p[..|p| - 1]
  }

  /** Every node lies in a directory. */
  predicate Rooted(t: Tree) { [] !in t && forall p <- t :: IsDir(t, Parent(p)) }

  const SLASH := 47

  /** A name that can stand for one path component. */
  predicate ValidName(n: Name) { n != [] && n != [46] && n != [46, 46] && SLASH !in n && 0 !in n }

  /** The nodes strictly below `p`. */
  function Below(t: Tree, p: Path): set<Path> { set q <- t.Keys | p < q }

  /** How one system call ends: as it should, with an error, or cut short after some bytes
      written or names listed. */
  datatype Fault = Fine | Fails | Stops(after: nat)

  /** In a tree, nothing lies below a path that is not there. */
  lemma {:induction false} NothingBelow(t: Tree, p: Path, q: Path)
    requires Rooted(t) && p != [] && p !in t && p <= q
    ensures q !in t
    decreases |q|
  {
    if q in t {
      if q != p {
        assert p <= Parent(q) && Parent(q) != [];
        NothingBelow(t, p, Parent(q));
      }
    }
  }

  class Disk {
    var tree: Tree
    var calls: nat
    const faults: nat -> Fault

    constructor (tree: Tree, faults: nat -> Fault)
      ensures this.tree == tree && this.faults == faults && calls == 0
    {
      this.tree, this.faults, calls := tree, faults, 0;
    }

    /** No call between two points of time failed. */
    ghost predicate Calm(from: nat, upTo: nat) reads this { forall k :: from <= k < upTo ==> faults(k).Fine? }

    /** A call that changes nothing: a directory opened, synced, or looked up. */
    method Touch() returns (ok: bool)
      modifies this`calls
      ensures calls == old(calls) + 1 && ok == faults(old(calls)).Fine?
    {
      ok := faults(calls).Fine?;
      calls := calls + 1;
    }

    /** The kind of a child; none when the call fails or there is no such child. */
    method Stat(p: Path) returns (found: bool)
      modifies this`calls
      ensures calls == old(calls) + 1 && (found <==> faults(old(calls)).Fine? && p in tree)
    {
      found := faults(calls).Fine? && p in tree;
      calls := calls + 1;
    }

    method Mkdir(p: Path) returns (ok: bool)
      requires p != []
      modifies this
      ensures calls == old(calls) + 1
      ensures ok <==> faults(old(calls)).Fine? && p !in old(tree) && IsDir(old(tree), Parent(p))
      ensures tree == if ok then old(tree)[p := Dir] else old(tree)
    {
      ok := faults(calls).Fine? && p !in tree && IsDir(tree, Parent(p));
      calls := calls + 1;
      if ok { tree := tree[p := Dir]; }
    }

    /** Make a directory and open it. */
    method CreateDirectory(p: Path) returns (ok: bool)
      requires p != []
      modifies this
      ensures old(calls) <= calls
      ensures ok ==> Calm(old(calls), calls) && ValidName(p[|p| - 1]) && p !in old(tree) && IsDir(old(tree), Parent(p))
      ensures ok ==> tree == old(tree)[p := Dir]
      ensures !ok ==>
          tree == old(tree) || (p !in old(tree) && IsDir(old(tree), Parent(p)) && tree == old(tree)[p := Dir])
      ensures !ok && Calm(old(calls), calls) ==>
          !ValidName(p[|p| - 1]) || p in old(tree) || !IsDir(old(tree), Parent(p))
      ensures Rooted(old(tree)) ==> Rooted(tree)
    {
      if !ValidName(p[|p| - 1]) { return false; }
      ok := Mkdir(p);
      if ok { ok := Touch(); }
    }

    /** Create a file that is not there yet, write it, and sync it. */
    method WriteNewFile(p: Path, bytes: Bytes) returns (ok: bool)
      requires p != []
      modifies this
      ensures old(calls) <= calls
      ensures ok ==> Calm(old(calls), calls) && ValidName(p[|p| - 1]) && p !in old(tree) && IsDir(old(tree), Parent(p))
      ensures ok ==> tree == old(tree)[p := File(bytes)]
      ensures !ok ==> || tree == old(tree)
                      || (p !in old(tree) && IsDir(old(tree), Parent(p))
                          && exists b :: b <= bytes && tree == old(tree)[p := File(b)])
      ensures !ok && Calm(old(calls), calls) ==>
          !ValidName(p[|p| - 1]) || p in old(tree) || !IsDir(old(tree), Parent(p))
      ensures Rooted(old(tree)) ==> Rooted(tree)
    {
      if !ValidName(p[|p| - 1]) { return false; }
      var reached := Touch();
      if !reached || p in tree || !IsDir(tree, Parent(p)) { return false; }
      var fault := faults(calls);
      calls := calls + 1;
      var written := match fault
        case Fine => bytes
        case Fails => []
        case Stops(n) => if n <= |bytes| then bytes[..n] else bytes;
      tree := tree[p := File(written)];
      return fault.Fine?;
    }

    /** Remove a file, or a directory that is empty. */
    method Unlink(p: Path) returns (ok: bool)
      modifies this
      ensures calls == old(calls) + 1
      ensures ok <==> faults(old(calls)).Fine? && p in old(tree) && Below(old(tree), p) == {}
      ensures tree == if ok then old(tree) - {p} else old(tree)
    {
      ok := faults(calls).Fine? && p in tree && Below(tree, p) == {};
      calls := calls + 1;
      if ok { tree := tree - {p}; }
    }

    /** The names in a directory; a listing that is cut short reports no error. */
    method List(d: Path) returns (names: seq<Name>, ok: bool)
      modifies this`calls
      ensures calls == old(calls) + 1
      ensures forall n <- names :: d + [n] in tree
      ensures forall i, j :: 0 <= i < j < |names| ==> names[i] != names[j]
      ensures faults(old(calls)).Fine? ==> ok && forall n :: d + [n] in tree ==> n in names
    {
      var rest := set p <- tree.Keys | d < p && |p| == |d| + 1 :: p[|d|];
      names := [];
      forall n | d + [n] in tree ensures n in rest { assert (d + [n])[|d|] == n; }
      forall n <- rest ensures d + [n] in tree {
        var p :| p in tree && d < p && |p| == |d| + 1 && p[|d|] == n;
        assert p == d + [n];
      }
      while rest != {}
        invariant forall n <- rest :: d + [n] in tree
        invariant forall n <- names :: d + [n] in tree && n !in rest
        invariant forall i, j :: 0 <= i < j < |names| ==> names[i] != names[j]
        invariant forall n :: d + [n] in tree ==> n in names || n in rest
        decreases rest
      {
        var n :| n in rest;
        rest := rest - {n};
        names := names + [n];
      }
      var fault := faults(calls);
      calls := calls + 1;
      match fault
      case Fine => ok := true;
      case Fails => names, ok := [], false;
      case Stops(after) => names, ok := if after <= |names| then names[..after] else names, true;
    }

    /** Rename a directory of the root, with all it holds, to a name that is free. */
    method RenameNew(a: Name, b: Name) returns (ok: bool)
      modifies this
      ensures calls == old(calls) + 1
      ensures ok <==> faults(old(calls)).Fine? && [a] in old(tree) && [b] !in old(tree)
      ensures tree == if ok then Renamed(old(tree), a, b) else old(tree)
    {
      ok := faults(calls).Fine? && [a] in tree && [b] !in tree;
      calls := calls + 1;
      if ok { tree := Renamed(tree, a, b); }
    }
  }

  /** What lies at and below a child of the root, by the path from it. */
  function Subtree(t: Tree, a: Name): Tree {
    map r <- (set p <- t.Keys | [a] <= p :: p[1..]) | [a] + r in t :: t[[a] + r]
  }

  /** A tree as it looks from the root when it hangs at `b`. */
  function Prefixed(b: Name, content: Tree): (t: Tree)
    ensures forall r <- content :: [b] + r in t && t[[b] + r] == content[r]
    ensures forall q <- t :: [b] <= q && q[1..] in content
  {
    assert forall r <- content :: ([b] + r)[1..] == r;
    map q <- (set r <- content.Keys :: [b] + r) :: content[q[1..]]
  }

  function Without(t: Tree, a: Name): Tree { map p <- t.Keys | !([a] <= p) :: t[p] }

  /** Every path that starts with `a` starts with `b` instead. */
  function Renamed(t: Tree, a: Name, b: Name): Tree { Without(t, a) + Prefixed(b, Subtree(t, a)) }

  /** `content` hung into `base` at a name that is free. */
  function Placed(base: Tree, name: Name, content: Tree): Tree { base + Prefixed(name, content) }

  lemma PlacedAt(base: Tree, name: Name, content: Tree, p: Path)
    requires Rooted(base) && [name] !in base
    ensures p in Placed(base, name, content) <==> if [name] <= p then p[1..] in content else p in base
    ensures p in Placed(base, name, content) ==>
              Placed(base, name, content)[p] == if [name] <= p then content[p[1..]] else base[p]
  {
    if [name] <= p {
      NothingBelow(base, [name], p);
      assert p == [name] + p[1..];
    }
  }

  lemma PrefixedAt(b: Name, content: Tree, q: Path)
    ensures q in Prefixed(b, content) <==> [b] <= q && q[1..] in content
    ensures q in Prefixed(b, content) ==> Prefixed(b, content)[q] == content[q[1..]]
  {
    if [b] <= q { assert q == [b] + q[1..]; }
  }

  lemma SubtreePlaced(base: Tree, a: Name, content: Tree)
    requires Rooted(base) && [a] !in base
    ensures Subtree(Placed(base, a, content), a) == content
  {
    hide Placed, Rooted;
    var s := Subtree(Placed(base, a, content), a);
    forall r ensures (r in s <==> r in content) && (r in s ==> s[r] == content[r]) {
      PlacedAt(base, a, content, [a] + r);
      assert ([a] + r)[1..] == r;
    }
  }

  lemma WithoutPlaced(base: Tree, a: Name, content: Tree)
    requires Rooted(base) && [a] !in base
    ensures Without(Placed(base, a, content), a) == base
  {
    hide Placed, Rooted;
    var w := Without(Placed(base, a, content), a);
    forall p ensures (p in w <==> p in base) && (p in w ==> w[p] == base[p]) {
      PlacedAt(base, a, content, p);
      if [a] <= p { NothingBelow(base, [a], p); }
    }
  }

  lemma RenamePlaced(base: Tree, a: Name, b: Name, content: Tree)
    requires Rooted(base) && [a] !in base
    ensures Renamed(Placed(base, a, content), a, b) == Placed(base, b, content)
  {
    SubtreePlaced(base, a, content);
    WithoutPlaced(base, a, content);
  }

  lemma GrowPlaced(base: Tree, name: Name, content: Tree, r: Path, node: Node)
    ensures Placed(base, name, content)[[name] + r := node] == Placed(base, name, content[r := node])
  {
    hide Prefixed;
    var x, y := Prefixed(name, content), Prefixed(name, content[r := node]);
    assert ([name] + r)[1..] == r;
    forall q ensures (q in x[[name] + r := node] <==> q in y) && (q in y ==> x[[name] + r := node][q] == y[q]) {
      PrefixedAt(name, content, q);
      PrefixedAt(name, content[r := node], q);
      if [name] <= q { assert q == [name] + q[1..]; }
    }
    assert x[[name] + r := node] == y;
    assert (base + x)[[name] + r := node] == base + x[[name] + r := node];
  }
}
