/** The entries of a session as a tree, and the active path walked from a leaf to the
    root by parent ids. */
module ActivePath {
  import opened Wrappers
  import opened Texts
  import opened SessionLedger

  datatype PathError = LeafMissing | ParentCycle | ParentMissing

  ghost function Ids(entries: seq<Entry>): set<string> { set e | e in entries :: e.id }

  /** The last entry stored under an id, as a map filled in order holds it. */
  function Lookup(entries: seq<Entry>, id: string): (found: Option<Entry>)
    ensures found.Some? ==> found.value in entries && found.value.id == id
    ensures found.None? ==> id !in Ids(entries)
  {
    if entries == [] then None
    else if entries[|entries| - 1].id == id then Some(entries[|entries| - 1])
    else Lookup(entries[..|entries| - 1], id)
  }

  /** The path from the root down to e, walked upwards; `seen` holds the ids passed on the way. */
  function Ascend(entries: seq<Entry>, e: Entry, seen: set<string>)
    : Result<seq<Entry>, PathError>
    requires e.id in Ids(entries)
    decreases Ids(entries) - seen
  {
    if e.id in seen then Err(ParentCycle)
    else if e.parent.None? || e.parent.value == "" then Ok([e])
    else match Lookup(entries, e.parent.value)
      case None => Err(ParentMissing)
      case Some(parent) =>
        match Ascend(entries, parent, seen + {e.id})
        case Err(error) => Err(error)
        case Ok(path) => Ok(path + [e])
  }

  function PathTo(entries: seq<Entry>, leaf: Option<string>): Result<seq<Entry>, PathError> {
    if leaf.None? || leaf.value == "" then Err(LeafMissing)
    else match Lookup(entries, leaf.value)
      case None => Ok([])
      case Some(e) => Ascend(entries, e, {})
  }

  function Reversed(path: seq<Entry>): seq<Entry> {
    if path == [] then [] else Reversed(path[1..]) + [path[0]]
  }

  lemma {:induction false} ReversedAppend(path: seq<Entry>, e: Entry)
    ensures Reversed(path + [e]) == [e] + Reversed(path)
  {
    if path == [] {
      assert path + [e] == [e] && [e][1..] == [];
    } else {
      assert (path + [e])[1..] == path[1..] + [e];
      ReversedAppend(path[1..], e);
    }
  }

  /** The walk from the cursor up, followed by what the loop has pushed so far. */
  ghost function Joined(entries: seq<Entry>, current: Option<Entry>, seen: set<string>, path: seq<Entry>)
    : Result<seq<Entry>, PathError>
    requires current.Some? ==> current.value.id in Ids(entries)
  {
    if current.None? then Ok(Reversed(path))
    else match Ascend(entries, current.value, seen)
      case Err(error) => Err(error)
      case Ok(above) => Ok(above + Reversed(path))
  }

  /** Moving the cursor to the parent and pushing the entry keeps what is joined. */
  lemma JoinedStep(entries: seq<Entry>, e: Entry, seen: set<string>, path: seq<Entry>)
    requires e.id in Ids(entries) && e.id !in seen
    requires e.parent.Some? && e.parent.value != "" ==> Lookup(entries, e.parent.value).Some?
    ensures Joined(entries, Some(e), seen, path)
         == Joined(entries, if e.parent.Some? && e.parent.value != "" then Lookup(entries, e.parent.value) else None,
                   seen + {e.id}, path + [e])
  {
    ReversedAppend(path, e);
    if e.parent.Some? && e.parent.value != "" {
      var rest := Ascend(entries, Lookup(entries, e.parent.value).value, seen + {e.id});
      if rest.Ok? {
        assert (rest.value + [e]) + Reversed(path) == rest.value + ([e] + Reversed(path));
      }
    }
  }

  method IndexById(entries: seq<Entry>) returns (byId: map<string, Entry>)
    ensures forall id :: Lookup(entries, id) == if id in byId then Some(byId[id]) else None
  {
    byId := map[];
    for i := 0 to |entries|
      invariant forall id :: Lookup(entries[..i], id) == if id in byId then Some(byId[id]) else None
    {
      assert entries[..i + 1][..i] == entries[..i];
      byId := byId[entries[i].id := entries[i]];
    }
    assert entries[..|entries|] == entries;
  }

  method Reverse(path: seq<Entry>) returns (reversed: seq<Entry>)
    ensures reversed == Reversed(path)
  {
    reversed := [];
    for i := 0 to |path|
      invariant reversed == Reversed(path[..i])
    {
      assert path[..i + 1] == path[..i] + [path[i]];
      ReversedAppend(path[..i], path[i]);
      reversed := [path[i]] + reversed;
    }
    assert path[..|path|] == path;
  }

  method BuildActivePath(entries: seq<Entry>, leaf: Option<string>)
    returns (result: Result<seq<Entry>, PathError>)
    ensures result == PathTo(entries, leaf)
  {
    if leaf.None? || leaf.value == "" {
      return Err(LeafMissing);
    }
    var byId := IndexById(entries);
    var path: seq<Entry> := [];
    var seen: set<string> := {};
    var current := if leaf.value in byId then Some(byId[leaf.value]) else None;
    assert Lookup(entries, leaf.value) == current;
    assert forall above: seq<Entry> :: above + Reversed(path) == above;
    while current.Some?
      invariant current.Some? ==> current.value.id in Ids(entries)
      invariant PathTo(entries, leaf) == Joined(entries, current, seen, path)
      decreases current.Some?, Ids(entries) - seen
    {
      var e := current.value;
      if e.id in seen {
        return Err(ParentCycle);
      }
      if e.parent.Some? && e.parent.value != "" {
        current := if e.parent.value in byId then Some(byId[e.parent.value]) else None;
        assert Lookup(entries, e.parent.value) == current;
        if current.None? {
          return Err(ParentMissing);
        }
      } else {
        current := None;
      }
      JoinedStep(entries, e, seen, path);
      seen := seen + {e.id};
      path := path + [e];
    }
    var reversed := Reverse(path);
    return Ok(reversed);
  }

  // ---------- the tree every session keeps ----------

  /** Entry i has a parent stored before it; only the first has none. */
  ghost predicate HasEarlierParent(entries: seq<Entry>, i: nat)
    requires i < |entries|
  {
    if i == 0 then entries[0].parent.None?
    else entries[i].parent.Some? && exists j :: 0 <= j < i && entries[j].id == entries[i].parent.value
  }

  /** Contiguous sequences from 1, unique ids that are not blank, earlier parents. */
  ghost predicate WellFormed(entries: seq<Entry>) {
    && entries != []
    && (forall i :: 0 <= i < |entries| ==> entries[i].sequence == i + 1 && !Blank(entries[i].id))
    && (forall i, j :: 0 <= i < j < |entries| ==> entries[i].id != entries[j].id)
    && (forall i :: 0 <= i < |entries| ==> HasEarlierParent(entries, i))
  }

  function IndexOf(entries: seq<Entry>, id: string): (i: nat)
    requires id in Ids(entries)
    ensures i < |entries| && entries[i].id == id
  {
    var n := |entries| - 1;
    if entries[n].id == id then n
    else assert entries == entries[..n] + [entries[n]]; IndexOf(entries[..n], id)
  }

  function RootPath(entries: seq<Entry>, i: nat): seq<Entry>
    requires WellFormed(entries) && i < |entries|
    decreases i
  {
    if i == 0 then [entries[0]]
    else
      assert HasEarlierParent(entries, i);
      RootPath(entries, IndexOf(entries, entries[i].parent.value)) + [entries[i]]
  }

  lemma LookupIsEntry(entries: seq<Entry>, i: nat)
    requires WellFormed(entries) && i < |entries|
    ensures Lookup(entries, entries[i].id) == Some(entries[i])
    ensures IndexOf(entries, entries[i].id) == i
  {
    var found := Lookup(entries, entries[i].id).value;
    var j :| 0 <= j < |entries| && entries[j] == found;
  }

  lemma {:induction false} AscendIsRootPath(entries: seq<Entry>, i: nat, seen: set<string>)
    requires WellFormed(entries) && i < |entries|
    requires forall k :: 0 <= k <= i ==> entries[k].id !in seen
    ensures Ascend(entries, entries[i], seen) == Ok(RootPath(entries, i))
    decreases i
  {
    if i > 0 {
      assert HasEarlierParent(entries, i);
      var j := IndexOf(entries, entries[i].parent.value);
      LookupIsEntry(entries, j);
      assert Blank("");
      AscendIsRootPath(entries, j, seen + {entries[i].id});
    }
  }

  /** Building the active path of a stored entry never reports a cycle, a missing
      parent or a missing leaf. */
  lemma PathIsRootPath(entries: seq<Entry>, i: nat)
    requires WellFormed(entries) && i < |entries|
    ensures PathTo(entries, Some(entries[i].id)) == Ok(RootPath(entries, i))
  {
    assert Blank("");
    LookupIsEntry(entries, i);
    AscendIsRootPath(entries, i, {});
  }

  /** Consecutive entries of a path are linked by parent ids, in increasing sequence. */
  ghost predicate Linked(p: seq<Entry>) {
    && (forall k :: 0 < k < |p| ==> p[k].parent == Some(p[k - 1].id))
    && (forall k, l :: 0 <= k < l < |p| ==> p[k].sequence < p[l].sequence)
  }

  /** The path runs from the root to the entry, by parent links, in increasing sequence. */
  lemma {:induction false} RootPathShape(entries: seq<Entry>, i: nat)
    requires WellFormed(entries) && i < |entries|
    ensures var p := RootPath(entries, i);
      && p != [] && p[0] == entries[0] && p[|p| - 1] == entries[i]
      && (forall k :: 0 <= k < |p| ==> 1 <= p[k].sequence <= i + 1 && p[k] == entries[p[k].sequence - 1])
      && Linked(p)
    decreases i
  {
    if i > 0 {
      assert HasEarlierParent(entries, i);
      var j := IndexOf(entries, entries[i].parent.value);
      RootPathShape(entries, j);
      LinkedExtends(RootPath(entries, j), entries[i]);
    }
  }

  lemma LinkedExtends(p: seq<Entry>, e: Entry)
    requires p != [] && Linked(p) && e.parent == Some(p[|p| - 1].id) && p[|p| - 1].sequence < e.sequence
    ensures Linked(p + [e])
  {}

  /** What precedes an entry on a path is that entry's own path. */
  lemma {:induction false} RootPathPrefix(entries: seq<Entry>, i: nat, k: nat)
    requires WellFormed(entries) && i < |entries| && k < |RootPath(entries, i)|
    ensures var j := RootPath(entries, i)[k].sequence - 1;
            0 <= j < |entries| && RootPath(entries, j) == RootPath(entries, i)[..k + 1]
    decreases i
  {
    var p := RootPath(entries, i);
    if k < |p| - 1 {
      var j := ParentPath(entries, i);
      var q := RootPath(entries, j);
      assert q[k] == p[k] && p[..k + 1] == q[..k + 1] by { assert p == q + [entries[i]]; }
      hide *;
      RootPathPrefix(entries, j, k);
    } else {
      assert p[..k + 1] == p;
      hide RootPath, WellFormed;
      RootPathShape(entries, i);
    }
  }

  /** A path of more than one entry is that of the parent and the entry. */
  lemma ParentPath(entries: seq<Entry>, i: nat) returns (j: nat)
    requires WellFormed(entries) && i < |entries| && |RootPath(entries, i)| > 1
    ensures j < i && RootPath(entries, i) == RootPath(entries, j) + [entries[i]]
  {
    assert HasEarlierParent(entries, i);
    j := IndexOf(entries, entries[i].parent.value);
  }

  /** Storing one more entry keeps the tree, and every earlier path. */
  lemma {:induction false} RootPathGrows(entries: seq<Entry>, e: Entry, i: nat)
    requires WellFormed(entries) && WellFormed(entries + [e]) && i < |entries|
    ensures RootPath(entries + [e], i) == RootPath(entries, i)
    decreases i
  {
    if i > 0 {
      var grown := entries + [e];
      assert HasEarlierParent(entries, i);
      var j := IndexOf(entries, entries[i].parent.value);
      assert grown[j].id == entries[i].parent.value;
      LookupIsEntry(grown, j);
      RootPathGrows(entries, e, j);
    }
  }

  lemma WellFormedGrows(entries: seq<Entry>, e: Entry)
    requires WellFormed(entries)
    requires e.sequence == |entries| + 1 && !Blank(e.id) && e.id !in Ids(entries)
    requires e.parent.Some? && e.parent.value in Ids(entries)
    ensures WellFormed(entries + [e])
    ensures RootPath(entries + [e], |entries|) == RootPath(entries, IndexOf(entries, e.parent.value)) + [e]
  {
    var grown := entries + [e];
    var j := IndexOf(entries, e.parent.value);
    forall i | 0 <= i < |grown| ensures HasEarlierParent(grown, i) {
      if 0 < i < |entries| {
        assert HasEarlierParent(entries, i);
        var k :| 0 <= k < i && entries[k].id == entries[i].parent.value;
        assert grown[k].id == grown[i].parent.value;
      } else if i == |entries| {
        assert grown[j].id == e.parent.value;
      } else {
        assert HasEarlierParent(entries, i);
      }
    }
    forall i | 0 <= i < |entries| ensures grown[i].id != e.id { assert entries[i] in entries; }
    LookupIsEntry(grown, j);
    RootPathGrows(entries, e, j);
  }
}
