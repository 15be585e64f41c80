/** Confirming a preview, and checking a confirmation against a preview. */
module PreviewConfirmation {
  import opened Wrappers
  import opened Utf8Order
  import opened PathOrder
  import opened CandidatePaths
  import opened PackSelection
  import opened SelectionGuarantees
  import opened PackVerification

  const MAX_ID := 256

  /** What the project is now. */
  datatype Binding = Binding(bindingId: Text, generation: int, pathsDigest: Digest, purpose: Purpose, version: string)

  datatype Confirmation = Confirmation(id: Text, bindingId: Text, generation: int, pathsDigest: Digest,
                                       identity: Identity, manifestDigest: Digest, confirmedAt: Text)

  datatype ConfirmError = Stale | Mismatch

  function BindingOf(p: Preview): Binding {
    Binding(p.bindingId, p.generation, p.pathsDigest, p.selection.purpose, p.selection.version)
  }

  predicate IsStale(p: Preview, current: Binding) {
    || p.bindingId != current.bindingId
    || p.generation != current.generation
    || p.pathsDigest != current.pathsDigest
    || p.selection.purpose != current.purpose
    || p.selection.version != current.version
  }

  predicate IdOk(id: Text) { 0 < |id| <= MAX_ID }

  /** Confirming: the preview is intact, is not stale, and gets an id and a time in its
      canonical form. */
  function Confirm(press: Press, canonicalTime: Text -> bool, p: Preview, current: Binding, id: Text, confirmedAt: Text)
    : Result<Confirmation, ConfirmError>
  {
    if !PreviewIntact(press, p) then Err(Mismatch)
    else if IsStale(p, current) then Err(Stale)
    else if !IdOk(id) || !canonicalTime(confirmedAt) then Err(Mismatch)
    else Ok(Confirmation(id, p.bindingId, p.generation, p.pathsDigest, p.selection.identity, p.manifest.digest,
                         confirmedAt))
  }

  function VerifyConfirmation(press: Press, canonicalTime: Text -> bool, c: Confirmation,
                              p: Preview): Option<ConfirmError> {
    if !PreviewIntact(press, p) then Some(Mismatch)
    else if !IdOk(c.id) || c.bindingId != p.bindingId || c.generation != p.generation || c.pathsDigest != p.pathsDigest
            || c.identity != p.selection.identity || c.manifestDigest != p.manifest.digest then Some(Mismatch)
    else if !canonicalTime(c.confirmedAt) then Some(Mismatch)
    else None
  }

  /** Two previews of the same project state, with the same selection and manifest by their
      digests. */
  predicate SameByDigest(p: Preview, q: Preview) {
    && p.bindingId == q.bindingId && p.generation == q.generation && p.pathsDigest == q.pathsDigest
    && p.selection.identity == q.selection.identity && p.manifest.digest == q.manifest.digest
  }

  /** The digests of a manifest and of a selection identify what they digest. */
  ghost predicate CollisionFree(press: Press) {
    && (forall i, p, v, s, f, x, j, q, w, t, g, y ::
          press.digest(i, p, v, s, f, x) == press.digest(j, q, w, t, g, y) ==> (i, p, v, s, f, x) == (j, q, w, t, g, y))
    && (forall p, v, f, x, q, w, g, y ::
          press.env.identity(p, v, f, x) == press.env.identity(q, w, g, y) ==> (p, v, f, x) == (q, w, g, y))
  }

  /** A preview is confirmed exactly when it is intact, the project is still what it shows,
      and the id and the time are well formed. */
  lemma ConfirmsExactly(press: Press, canonicalTime: Text -> bool, p: Preview, current: Binding, id: Text, at: Text)
    ensures Confirm(press, canonicalTime, p, current, id, at).Ok?
       <==> PreviewIntact(press, p) && current == BindingOf(p) && IdOk(id) && canonicalTime(at)
  {
    hide PreviewIntact;
  }

  /** A confirmation verifies against the preview it confirms, and against another intact
      preview exactly when binding, generation, paths digest, identity and manifest digest
      agree. */
  lemma ConfirmationVerifiesExactly(press: Press, canonicalTime: Text -> bool, p: Preview, current: Binding,
                                    id: Text, at: Text, q: Preview)
    requires Confirm(press, canonicalTime, p, current, id, at).Ok?
    ensures var c := Confirm(press, canonicalTime, p, current, id, at).value;
      && VerifyConfirmation(press, canonicalTime, c, p) == None
      && (VerifyConfirmation(press, canonicalTime, c, q) == None <==> PreviewIntact(press, q) && SameByDigest(p, q))
  {
    hide PreviewIntact;
  }

  lemma IntactParts(press: Press, p: Preview)
    requires PreviewIntact(press, p)
    ensures var s, m := p.selection, p.manifest;
      && s.identity == press.env.identity(s.purpose, s.version, s.included, s.exclusions)
      && s.totals == Totals(|s.included| + |s.exclusions|, |s.included|, |s.exclusions|, ByteSum(s.included))
      && p.pathsDigest == s.pathsDigest && m.identity == s.identity && m.stamp.generatedAt == p.createdAt
      && m.digest == press.digest(m.identity, m.purpose, m.version, m.stamp, m.sources, m.exclusions)
  {
    hide EvidenceError, Collision, PathsDigest, WithinBounds;
  }

  lemma SameManifest(press: Press, m: Manifest, n: Manifest)
    requires CollisionFree(press) && m.digest == n.digest
    requires m.digest == press.digest(m.identity, m.purpose, m.version, m.stamp, m.sources, m.exclusions)
    requires n.digest == press.digest(n.identity, n.purpose, n.version, n.stamp, n.sources, n.exclusions)
    ensures m == n
  {}

  lemma SameSelection(press: Press, s: SelectionResult, t: SelectionResult)
    requires CollisionFree(press) && s.identity == t.identity && s.pathsDigest == t.pathsDigest
    requires s.identity == press.env.identity(s.purpose, s.version, s.included, s.exclusions)
    requires t.identity == press.env.identity(t.purpose, t.version, t.included, t.exclusions)
    requires s.totals == Totals(|s.included| + |s.exclusions|, |s.included|, |s.exclusions|, ByteSum(s.included))
    requires t.totals == Totals(|t.included| + |t.exclusions|, |t.included|, |t.exclusions|, ByteSum(t.included))
    ensures s == t
  {}

  /** With digests that do not collide, a confirmation is bound to one preview: it verifies
      against that preview and no other. */
  lemma ConfirmationBindsPreview(press: Press, canonicalTime: Text -> bool, p: Preview, current: Binding,
                                 id: Text, at: Text, q: Preview)
    requires CollisionFree(press) && Confirm(press, canonicalTime, p, current, id, at).Ok?
    ensures var c := Confirm(press, canonicalTime, p, current, id, at).value;
            VerifyConfirmation(press, canonicalTime, c, q) == None <==> p == q
  {
    hide PreviewIntact, CollisionFree;
    ConfirmationVerifiesExactly(press, canonicalTime, p, current, id, at, q);
    if PreviewIntact(press, q) && SameByDigest(p, q) {
      IntactParts(press, p);
      IntactParts(press, q);
      SameManifest(press, p.manifest, q.manifest);
      SameSelection(press, p.selection, q.selection);
    }
  }
}
