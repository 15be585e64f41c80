/** Candidate paths of a coding pack: the cross-platform collision check and the digest of
    a set of paths. */
module CandidatePaths {
  import opened Wrappers
  import opened Utf8Order
  import opened CanonicalJson
  import CanonicalRoundTrip
  import opened PathOrder

  type Digest = seq<int>

  datatype PackError = BoundsExceeded | DuplicatePath | IdentityMismatch | InvalidInput | InvalidPath | PathCollision
                     | PathOverlap | UnsupportedRules

  /** What the host supplies: the checks of one portable path, conservative case folding,
      NFC normalisation, and SHA-256. */
  datatype Host = Host(portable: Text -> bool, fold: Text -> Text, nfc: Text -> Text, hash: seq<int> -> Digest)

  predicate ValidPath(host: Host, p: Text) { WellFormed(p) && host.portable(p) }

  // ---------- collisions ----------

  predicate Collide(host: Host, p: Text, q: Text) {
    p != q && (host.fold(p) == host.fold(q) || host.nfc(p) == host.nfc(q))
  }

  /** The first refusal of the check, path by path. */
  function Collision(host: Host, ps: seq<Text>): Option<PackError> {
    if ps == [] then None
    else
      var front, last := ps[..|ps| - 1], ps[|ps| - 1];
      var earlier := Collision(host, front);
      if earlier.Some? then earlier
      else if last in front then Some(DuplicatePath)
      else if exists q <- front :: Collide(host, q, last) then Some(PathCollision)
      else None
  }

  /** No two paths are equal as they stand, case-folded, or normalised. */
  predicate PairwiseDistinct(host: Host, ps: seq<Text>) {
    forall i, j :: 0 <= i < j < |ps| ==>
      ps[i] != ps[j] && host.fold(ps[i]) != host.fold(ps[j]) && host.nfc(ps[i]) != host.nfc(ps[j])
  }

  /** One more path: what the check says of it. */
  lemma NextCollision(host: Host, ps: seq<Text>, index: nat)
    requires index < |ps| && Collision(host, ps[..index]).None?
    ensures Collision(host, ps[..index + 1]) ==
      if ps[index] in ps[..index] then Some(DuplicatePath)
      else if exists q <- ps[..index] :: Collide(host, q, ps[index]) then Some(PathCollision)
      else None
  {
    assert ps[..index + 1][..index] == ps[..index];
  }

  lemma PairwiseSnoc(host: Host, front: seq<Text>, last: Text)
    ensures PairwiseDistinct(host, front + [last])
       <==> PairwiseDistinct(host, front) && last !in front && forall q <- front :: !Collide(host, q, last)
  {
    var ps := front + [last];
    if PairwiseDistinct(host, ps) {
      forall i, j | 0 <= i < j < |front|
        ensures front[i] != front[j] && !Collide(host, front[i], front[j])
      {
        assert ps[i] == front[i] && ps[j] == front[j];
      }
      forall q <- front ensures q != last && !Collide(host, q, last) {
        var i :| 0 <= i < |front| && front[i] == q;
        assert ps[i] == q && ps[|front|] == last;
      }
    }
    if PairwiseDistinct(host, front) && last !in front && forall q <- front :: !Collide(host, q, last) {
      forall i, j | 0 <= i < j < |ps| ensures ps[i] != ps[j] && !Collide(host, ps[i], ps[j]) {
        if j < |front| { assert ps[i] == front[i] && ps[j] == front[j]; } else { assert ps[i] in front; }
      }
    }
  }

  lemma {:induction false} CollisionIsPairwise(host: Host, ps: seq<Text>)
    ensures Collision(host, ps).None? <==> PairwiseDistinct(host, ps)
  {
    hide PairwiseDistinct, Collide;
    if ps == [] {
      assert PairwiseDistinct(host, ps) by { EmptyDistinct(host); }
    } else {
      var front, last := ps[..|ps| - 1], ps[|ps| - 1];
      assert ps == front + [last];
      CollisionIsPairwise(host, front);
      PairwiseSnoc(host, front, last);
    }
  }

  lemma EmptyDistinct(host: Host)
    ensures PairwiseDistinct(host, [])
  {}

  lemma PairwiseDistinctPermutes(host: Host, ps: seq<Text>, qs: seq<Text>)
    requires PairwiseDistinct(host, ps) && multiset(ps) == multiset(qs)
    ensures PairwiseDistinct(host, qs)
  {
    PermutedDistinct(ps, qs);
    forall i, j | 0 <= i < j < |qs|
      ensures host.fold(qs[i]) != host.fold(qs[j]) && host.nfc(qs[i]) != host.nfc(qs[j])
    {
      assert qs[i] in multiset(ps) && qs[j] in multiset(ps);
      var a :| 0 <= a < |ps| && ps[a] == qs[i];
      var b :| 0 <= b < |ps| && ps[b] == qs[j];
    }
  }

  /** The paths seen so far, under one key each. */
  ghost predicate Indexes(m: map<Text, Text>, ps: seq<Text>, key: Text -> Text) {
    && (forall k <- m :: m[k] in ps && key(m[k]) == k)
    && (forall p <- ps :: key(p) in m && m[key(p)] == p)
  }

  lemma IndexesNext(m: map<Text, Text>, ps: seq<Text>, index: nat, key: Text -> Text)
    requires index < |ps| && Indexes(m, ps[..index], key)
    ensures var path, k := ps[index], key(ps[index]);
            && ((k in m && m[k] != path) <==> exists q <- ps[..index] :: q != path && key(q) == k)
            && ((k in m ==> m[k] == path) ==> Indexes(m[k := path], ps[..index + 1], key))
  {
    assert ps[..index + 1] == ps[..index] + [ps[index]];
  }

  method AssertNoPortablePathCollisions(host: Host, ps: seq<Text>) returns (refusal: Option<PackError>)
    ensures refusal == Collision(host, ps)
    ensures refusal.None? <==> PairwiseDistinct(host, ps)
  {
    hide Collision, PairwiseDistinct;
    CollisionIsPairwise(host, ps);
    assert Collision(host, ps[..0]) == None by { EmptyDistinct(host); CollisionIsPairwise(host, ps[..0]); }
    var exact: set<Text>, folded: map<Text, Text>, normalized: map<Text, Text> := {}, map[], map[];
    for index := 0 to |ps|
      invariant Collision(host, ps[..index]) == None
      invariant forall p :: p in exact <==> p in ps[..index]
      invariant Indexes(folded, ps[..index], host.fold) && Indexes(normalized, ps[..index], host.nfc)
    {
      hide Indexes;
      var path := ps[index];
      NextCollision(host, ps, index);
      IndexesNext(folded, ps, index, host.fold);
      IndexesNext(normalized, ps, index, host.nfc);
      if path in exact {
        CollisionSticks(host, ps, index + 1);
        return Some(DuplicatePath);
      }
      exact := exact + {path};
      var fold := host.fold(path);
      if fold in folded && folded[fold] != path {
        CollisionSticks(host, ps, index + 1);
        return Some(PathCollision);
      }
      folded := folded[fold := path];
      var nfc := host.nfc(path);
      if nfc in normalized && normalized[nfc] != path {
        CollisionSticks(host, ps, index + 1);
        return Some(PathCollision);
      }
      normalized := normalized[nfc := path];
      assert ps[..index + 1] == ps[..index] + [path];
    }
    assert ps[..|ps|] == ps;
    return None;
  }

  lemma {:induction false} CollisionSticks(host: Host, ps: seq<Text>, n: nat)
    requires n <= |ps| && Collision(host, ps[..n]).Some?
    ensures Collision(host, ps) == Collision(host, ps[..n])
  {
    if n == |ps| {
      assert ps[..n] == ps;
    } else {
      assert ps[..|ps| - 1][..n] == ps[..n];
      CollisionSticks(host, ps[..|ps| - 1], n);
    }
  }

  // ---------- digest ----------

  function TextItems(ps: seq<Text>): Items { if ps == [] then NoItem else Item(Str(ps[0]), TextItems(ps[1..])) }

  /** The paths as a JSON array of strings. */
  function PathsJson(ps: seq<Text>): Json { Arr(TextItems(ps)) }

  function Same(p: Text): Text { p }

  function Sorted(ps: seq<Text>): seq<Text> { SortBy(ps, Same) }

  lemma PathsOfTexts(ps: seq<Text>)
    ensures Paths(ps, Same) == ps
  {}

  /** The digest of a list of paths: refused when one is invalid or twice there. */
  function PathsDigest(host: Host, ps: seq<Text>): Result<Digest, PackError> {
    if exists p <- ps :: !ValidPath(host, p) then Err(InvalidPath)
    else if !Distinct(ps) then Err(DuplicatePath)
    else match CanonicalRoundTrip.Sha256Canonical(host.hash, PathsJson(Sorted(ps)))
      case Some(digest) => Ok(digest)
      case None => Err(InvalidInput)
  }

  lemma SortedFacts(ps: seq<Text>)
    requires AllWellFormed(ps)
    ensures multiset(Sorted(ps)) == multiset(ps) && Ascending(Sorted(ps)) && AllWellFormed(Sorted(ps))
    ensures Distinct(ps) <==> StrictlyAscending(Sorted(ps))
  {
    hide Below, WellFormed;
    PathsOfTexts(ps);
    SortAscends(ps, Same);
    SortPermutes(ps, Same);
    PathsOfTexts(Sorted(ps));
    StrictMeansDistinct(Sorted(ps));
    if Distinct(ps) { PermutedDistinct(ps, Sorted(ps)); }
    if Distinct(Sorted(ps)) { PermutedDistinct(Sorted(ps), ps); }
  }

  /** Neighbours that differ in an ascending list mean that all its elements differ. */
  lemma NeighboursDistinct(ps: seq<Text>)
    requires AllWellFormed(ps) && Ascending(ps)
    requires forall i :: 0 < i < |ps| ==> ps[i - 1] != ps[i]
    ensures Distinct(ps)
  {
    hide Below, WellFormed;
    forall i, j | 0 <= i < j < |ps| ensures ps[i] != ps[j] {
      assert ps[i] in ps && ps[j - 1] in ps && ps[j] in ps;
      BelowTotal(ps[j - 1], ps[j]);
    }
  }

  method ComputeCandidatePathsDigest(host: Host, ps: seq<Text>) returns (result: Result<Digest, PackError>)
    ensures result == PathsDigest(host, ps)
  {
    hide WellFormed, Below, SortBy, CanonicalRoundTrip.Sha256Canonical;
    if exists p <- ps :: !ValidPath(host, p) { return Err(InvalidPath); }
    SortedFacts(ps);
    var sorted := Sorted(ps);
    var index := 1;
    while index < |sorted|
      invariant 1 <= index
      invariant forall i :: 0 < i < index && i < |sorted| ==> sorted[i - 1] != sorted[i]
    {
      if sorted[index] == sorted[index - 1] {
        StrictMeansDistinct(sorted);
        return Err(DuplicatePath);
      }
      index := index + 1;
    }
    NeighboursDistinct(sorted);
    PermutedDistinct(sorted, ps);
    var digest := CanonicalRoundTrip.Sha256Canonical(host.hash, PathsJson(sorted));
    return match digest case Some(d) => Ok(d) case None => Err(InvalidInput);
  }

  /** The digest does not depend on the order of the paths. */
  lemma PathsDigestPermutes(host: Host, ps: seq<Text>, qs: seq<Text>)
    requires multiset(ps) == multiset(qs)
    ensures PathsDigest(host, ps) == PathsDigest(host, qs)
  {
    hide WellFormed, SortBy, CanonicalRoundTrip.Sha256Canonical;
    assert forall p :: p in ps <==> p in multiset(ps);
    assert forall p :: p in qs <==> p in multiset(qs);
    if forall p <- ps :: ValidPath(host, p) {
      assert forall p <- qs :: ValidPath(host, p);
      SortedFacts(ps);
      SortedFacts(qs);
      AscendingUnique(Sorted(ps), Sorted(qs));
    }
  }

  lemma {:induction false} TextItemsCanonical(ps: seq<Text>)
    requires AllWellFormed(ps)
    ensures ProperItems(TextItems(ps)) && PrintableItems(TextItems(ps)) && InRangeItems(TextItems(ps))
    ensures |CanonicalRoundTrip.MeaningItems(TextItems(ps))| == |ps|
    ensures forall i :: 0 <= i < |ps| ==>
        CanonicalRoundTrip.MeaningItems(TextItems(ps))[i] == CanonicalRoundTrip.StrValue(ps[i])
  {
    hide WellFormed;
    if ps != [] {
      assert ps[0] in ps;
      TextItemsCanonical(ps[1..]);
    }
  }

  /** With a collision-free hash, valid lists without repetition have one digest exactly
      when they hold the same paths. */
  lemma PathsDigestIdentifies(host: Host, ps: seq<Text>, qs: seq<Text>)
    requires forall a, b :: host.hash(a) == host.hash(b) ==> a == b
    requires PathsDigest(host, ps).Ok? && PathsDigest(host, qs).Ok?
    ensures PathsDigest(host, ps) == PathsDigest(host, qs) <==> multiset(ps) == multiset(qs)
  {
    hide WellFormed, SortBy, CanonicalRoundTrip.Sha256Canonical;
    SortedFacts(ps);
    SortedFacts(qs);
    var s, t := Sorted(ps), Sorted(qs);
    TextItemsCanonical(s);
    TextItemsCanonical(t);
    CanonicalRoundTrip.DigestIdentifiesValues(host.hash, PathsJson(s), PathsJson(t));
    var ms, mt := CanonicalRoundTrip.MeaningItems(TextItems(s)), CanonicalRoundTrip.MeaningItems(TextItems(t));
    if ms == mt { SameStrings(s, t, ms); }
    if multiset(ps) == multiset(qs) { AscendingUnique(s, t); }
  }

  lemma SameStrings(s: seq<Text>, t: seq<Text>, values: seq<CanonicalRoundTrip.Value>)
    requires |s| == |values| == |t|
    requires forall i :: 0 <= i < |s| ==> values[i] == CanonicalRoundTrip.StrValue(s[i])
    requires forall i :: 0 <= i < |s| ==> values[i] == CanonicalRoundTrip.StrValue(t[i])
    ensures s == t
  {
    forall i | 0 <= i < |s| ensures s[i] == t[i] { assert values[i].s == s[i]; }
  }

  /** A list of paths has a digest exactly when every path is valid and none occurs twice. */
  lemma PathsDigestExists(host: Host, ps: seq<Text>)
    ensures PathsDigest(host, ps).Ok? <==> (forall p <- ps :: ValidPath(host, p)) && Distinct(ps)
  {
    hide WellFormed, SortBy;
    if (forall p <- ps :: ValidPath(host, p)) && Distinct(ps) {
      SortedFacts(ps);
      TextItemsCanonical(Sorted(ps));
      CanonicalRoundTrip.SortingKeeps(PathsJson(Sorted(ps)));
      CanonicalRoundTrip.PlainWellFormed(CanonicalJson.Sorted(PathsJson(Sorted(ps))));
    }
  }
}
