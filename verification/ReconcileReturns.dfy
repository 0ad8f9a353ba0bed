/** Where the counters and change rows differ from what their names suggest, and exactly when. */
module ReconcileReturns {
  import opened Collections
  import opened Domain
  import opened Tables
  import opened Reconcile
  import opened ReconcileInvariants
  import opened ReconcileSteps
  import opened ReconcileMentions
  import opened ReconcileSummary

  // ---------- ASSET_RETURNED ----------

  /** The return rows after `n` observations, and the status of assets not seen yet. */
  ghost predicate ReturnRows(t: Tables, s: Snapshot, n: nat, p: Progress, a: AssetId)
    requires n <= |s.assets|
  {
    && (ChangeOf(s, a, AssetReturned) in p.t.changes <==>
        a in t.assets && t.assets[a].status == Missing && FirstSeenByKnown(t.sources, p.t.sources, s, n, a))
    && (!Seen(p.t.sources, s, n, a) && a in p.t.assets ==> a in t.assets && p.t.assets[a] == t.assets[a])
  }

  lemma SeenStable(p: Progress, s: Snapshot, n: nat, q: Progress, i: nat, a: AssetId)
    requires n < |s.assets| && i < n && SourceOf(s, s.assets[i].external) in p.t.sources
    requires forall k :: k in p.t.sources ==> k in q.t.sources && q.t.sources[k].asset == p.t.sources[k].asset
    ensures Observes(q.t.sources, s, i, a) <==> Observes(p.t.sources, s, i, a)
  {
  }

  /** After at least one observation of it, an asset is neither MISSING nor STALE. */
  lemma SeenIsActive(t: Tables, s: Snapshot, n: nat, p: Progress, a: AssetId)
    requires n <= |s.assets| && Mid(t, s, n, p) && a in p.t.assets && Seen(p.t.sources, s, n, a)
    ensures p.t.assets[a].status !in {Missing, Stale}
  {
    hide Inv, Provenance, Extends, UnlistedKept;
    InvFacts(p.t, a);
    var i :| 0 <= i < n && Observes(p.t.sources, s, i, a);
    assert s.assets[i].external in p.bound;
    assert HasActiveSource(p.t.sources, a);
  }

  lemma TouchReturned(t: Tables, s: Snapshot, o: Observation, x: Touch)
    requires TouchAsset(t, s, o) == Ok(x)
    ensures x.returned <==> SourceOf(s, o.external) in t.sources && x.asset in t.assets
                            && t.assets[x.asset].status in {Missing, Stale}
  {
  }

  lemma InvFacts(t: Tables, a: AssetId)
    requires Inv(t)
    ensures Bindings(t)
    ensures a in t.assets ==> t.assets[a].status != Stale
                              && (t.assets[a].status == Missing <==> !HasActiveSource(t.sources, a))
  {
    hide ClaimsScoped, OneActiveClaim, ClaimsBacked, EvidenceAgrees, RelBindings, RelStatusAgrees, HasConflict,
      HasActiveSource;
  }

  /** Facts about the loop state that the return rows depend on. */
  lemma MidSources(t: Tables, s: Snapshot, n: nat, p: Progress, a: AssetId)
    requires n < |s.assets| && Mid(t, s, n, p)
    ensures Bindings(p.t)
    ensures forall i :: 0 <= i < n ==> SourceOf(s, s.assets[i].external) in p.t.sources
    ensures s.assets[n].external !in p.bound ==>
              (SourceOf(s, s.assets[n].external) in p.t.sources <==> SourceOf(s, s.assets[n].external) in t.sources)
    ensures a in p.t.assets ==> p.t.assets[a].status != Stale
  {
    hide Inv, Provenance, SettledStatus;
    InvFacts(p.t, a);
    forall i | 0 <= i < n ensures SourceOf(s, s.assets[i].external) in p.t.sources {
      assert s.assets[i].external in p.bound;
    }
  }

  lemma ReturnRowFrame(p: Progress, s: Snapshot, o: Observation, x: Touch, strong: map<StrongKey, AssetId>, a: AssetId)
    ensures ChangeOf(s, a, AssetReturned) in Observed(p, s, o, x, strong).t.changes <==>
            ChangeOf(s, a, AssetReturned) in p.t.changes || (x.returned && x.asset == a)
  {
    hide RecordClaims, HasConflict, EffectiveStatus, BindSource, SetStatus;
  }

  lemma ReturnStep(t: Tables, s: Snapshot, n: nat, p: Progress, x: Touch, q: Progress, a: AssetId)
    requires n < |s.assets| && Mid(t, s, n, p) && ReturnRows(t, s, n, p, a)
    requires TouchAsset(p.t, s, s.assets[n]) == Ok(x) && Accepted(p, s, s.assets[n], x, q)
    requires q == Observed(p, s, s.assets[n], x, q.t.strong)
    ensures ReturnRows(t, s, n + 1, q, a)
  {
    hide Mid, Observed, TouchAsset, BindStrong, RecordClaims, HasConflict, Touched;
    var o := s.assets[n];
    MidSources(t, s, n, p, a);
    MidBase(t, s, n, p);
    TouchReturned(p.t, s, o, x);
    ReturnRowFrame(p, s, o, x, q.t.strong, a);
    forall i | 0 <= i < n ensures Observes(q.t.sources, s, i, a) <==> Observes(p.t.sources, s, i, a) {
      AcceptedBindings(p, s, o, x, q);
      SeenStable(p, s, n, q, i, a);
    }
    assert Observes(q.t.sources, s, n, a) <==> x.asset == a;
    if a in p.t.assets && Seen(p.t.sources, s, n, a) {
      SeenIsActive(t, s, n, p, a);
    }
    FirstStep(t.sources, p.t.sources, q.t.sources, s, n, a);
  }

  lemma FirstStep(known: Sources, before: Sources, after: Sources, s: Snapshot, n: nat, a: AssetId)
    requires n < |s.assets|
    requires forall i :: 0 <= i < n ==> (Observes(after, s, i, a) <==> Observes(before, s, i, a))
    ensures Seen(after, s, n + 1, a) <==> Seen(before, s, n, a) || Observes(after, s, n, a)
    ensures FirstSeenByKnown(known, after, s, n + 1, a) <==>
            || FirstSeenByKnown(known, before, s, n, a)
            || (!Seen(before, s, n, a) && Observes(after, s, n, a) && SourceOf(s, s.assets[n].external) in known)
  {
    hide Observes;
    if FirstSeenByKnown(known, before, s, n, a) {
      var i :| 0 <= i < n && Observes(before, s, i, a) && SourceOf(s, s.assets[i].external) in known
               && forall j :: 0 <= j < i ==> !Observes(before, s, j, a);
      assert Observes(after, s, i, a);
    }
  }

  lemma {:induction false} ReturnsInv(t: Tables, s: Snapshot, n: nat, p: Progress, a: AssetId)
    requires n <= |s.assets| && Inv(t) && Sealed(t) && s.id !in t.runs && ObserveAssets(t, s, n) == Ok(p)
    ensures ReturnRows(t, s, n, p, a) && Mid(t, s, n, p)
  {
    hide Inv, Mid, ObserveAsset, TouchAsset, Observed, Accepted, BindStrong;
    ObserveAssetsMid(t, s, n, p);
    if n == 0 {
      assert ChangeOf(s, a, AssetReturned) !in t.changes;
    } else {
      hide ReturnRows;
      var b := ObserveAssets(t, s, n - 1).value;
      ReturnsInv(t, s, n - 1, b, a);
      MidBase(t, s, n - 1, b);
      var x := ObserveFacts(b, s, s.assets[n - 1], p);
      AcceptedStrong(b, s, s.assets[n - 1], x, p);
      ReturnStep(t, s, n - 1, b, x, p, a);
    }
  }

  lemma AcceptedStrong(p: Progress, s: Snapshot, o: Observation, x: Touch, q: Progress)
    requires Accepted(p, s, o, x, q)
    ensures q.t.strong == BindStrong(p.t.strong, StrongRefs(s.org, o.hints), x.asset)
  {
  }

  /** Not every asset that comes back gets an ASSET_RETURNED row: a MISSING asset comes back
      exactly when the snapshot mentions it, and it gets a row exactly when its first mention is
      by a source identity already known. An asset that first comes back through a new source
      identity, joined by a strong identifier, is only counted as unchanged. */
  lemma ReturnedRowIff(t: Tables, s: Snapshot, threshold: int, u: Progress, a: AssetId)
    requires Inv(t) && Sealed(t) && Apply(t, s, threshold) == Ok(u)
    ensures ChangeOf(s, a, AssetReturned) in u.t.changes <==>
            a in t.assets && t.assets[a].status == Missing && FirstMentionKnown(t, s, |s.assets|, a)
    ensures a in t.assets && t.assets[a].status == Missing ==>
              a in u.t.assets && (u.t.assets[a].status != Missing <==> Mentioned(t, s, |s.assets|, a))
  {
    hide Inv, Sealed, Apply, ObserveAssets, ObserveRelationships, MarkMissing, Mid, RelMid, FirstSeenByKnown, Seen,
      LastSources, AssetsOf, MissingChanges,
      Mentioned, FirstMentionKnown;
    var p, q := Stages(t, s, threshold, u);
    ApplyPreserves(t, s, threshold, u);
    ReturnsInv(t, s, |s.assets|, p, a);
    ObserveRelationshipsCounts(p, s, |s.relationships|, q);
    MarkCounts(t, s, threshold, p, q, u);
    MissingRows(s, AssetsOf(u.t.sources, LastSources(t, u.t)));
    if a in t.assets && t.assets[a].status == Missing {
      SeenIffMentioned(t, s, p, a);
      SeenAfter(t, s, threshold, u, a);
      BackIffSeen(t, s, threshold, u, a);
    }
  }

  lemma SameObservations(t: Tables, s: Snapshot, threshold: int, p: Progress, q: Progress, u: Progress, a: AssetId)
    requires Mid(t, s, |s.assets|, p) && RelMid(p, s, |s.relationships|, q)
    requires var m := MarkMissing(q, s, Threshold(threshold));
             u == m.(t := m.t.(runs := m.t.runs[s.id := m.sum]))
    ensures Seen(u.t.sources, s, |s.assets|, a) <==> Seen(p.t.sources, s, |s.assets|, a)
  {
    hide Inv, Provenance, Extends, UnlistedKept, Listed, RelTouched, MarkMissing;
    MarkedSources(q, s, Threshold(threshold));
    assert q.t.sources == p.t.sources;
    assert forall i :: 0 <= i < |s.assets| ==> (Observes(u.t.sources, s, i, a) <==> Observes(p.t.sources, s, i, a));
  }

  /** After an accepted snapshot, its observations of an old asset are its mentions of it. */
  lemma SeenAfter(t: Tables, s: Snapshot, threshold: int, u: Progress, a: AssetId)
    requires Inv(t) && Sealed(t) && Apply(t, s, threshold) == Ok(u) && a in t.assets
    ensures Seen(u.t.sources, s, |s.assets|, a) <==> Mentioned(t, s, |s.assets|, a)
  {
    hide Inv, Sealed, Apply, ObserveAssets, ObserveRelationships, MarkMissing, Mid, RelMid, FirstSeenByKnown, Seen,
      Mentioned, FirstMentionKnown;
    var p, q := Stages(t, s, threshold, u);
    SameObservations(t, s, threshold, p, q, u, a);
    SeenIffMentioned(t, s, p, a);
  }

  lemma BackIffSeen(t: Tables, s: Snapshot, threshold: int, u: Progress, a: AssetId)
    requires Inv(t) && Sealed(t) && Apply(t, s, threshold) == Ok(u) && Inv(u.t) && Extends(t, u.t)
    requires a in t.assets && t.assets[a].status == Missing
    ensures u.t.assets[a].status != Missing <==> Seen(u.t.sources, s, |s.assets|, a)
  {
    hide Inv, Sealed, Apply;
    InvFacts(t, a);
    InvFacts(u.t, a);
    if Seen(u.t.sources, s, |s.assets|, a) {
      var i :| 0 <= i < |s.assets| && Observes(u.t.sources, s, i, a);
      var k := SourceOf(s, s.assets[i].external);
      ApplySources(t, s, threshold, u, k);
      assert ListsAsset(s, k);
      assert HasActiveSource(u.t.sources, a);
    }
    if u.t.assets[a].status != Missing {
      var k :| k in u.t.sources && u.t.sources[k].asset == a && u.t.sources[k].active;
      ApplySources(t, s, threshold, u, k);
      assert !HasActiveSource(t.sources, a);
      if ListsAsset(s, k) {
        var i :| 0 <= i < |s.assets| && s.assets[i].external == k.external;
        assert Observes(u.t.sources, s, i, a);
      }
    }
  }

  // ---------- the MISSING counter ----------

  ghost predicate OneSourceEach(sources: Sources, keys: set<SourceKey>) {
    forall j, k :: j in keys && k in keys && j in sources && k in sources && sources[j].asset == sources[k].asset ==>
                     j == k
  }

  lemma ImageCount(sources: Sources, keys: set<SourceKey>)
    requires keys <= sources.Keys
    ensures |AssetsOf(sources, keys)| <= |keys|
    ensures |AssetsOf(sources, keys)| == |keys| <==> OneSourceEach(sources, keys)
  {
    var m := map k | k in keys :: sources[k].asset;
    ValueCount(m);
    assert m.Keys == keys && m.Values == AssetsOf(sources, keys);
    assert OneToOne(m) <==> OneSourceEach(sources, keys);
  }

  /** Identities that are ACTIVE, not listed, and one absence away from the threshold. */
  ghost function Expiring(t: Tables, s: Snapshot, threshold: int): set<SourceKey> {
    set k | k in t.sources && s.org == k.org && s.connector == k.connector && t.sources[k].active && !ListsAsset(s, k)
            && t.sources[k].absences + 1 >= threshold
  }

  /** Every ACTIVE identity of `a` is expiring, and the snapshot does not mention `a`. */
  ghost predicate Orphaned(t: Tables, s: Snapshot, threshold: int, a: AssetId) {
    && (forall k :: k in t.sources && t.sources[k].asset == a && t.sources[k].active ==> k in Expiring(t, s, threshold))
    && !Mentioned(t, s, |s.assets|, a)
  }

  /** An identity of an asset that the snapshot does not see stays ACTIVE unless it expires. */
  lemma UnseenIdentity(t: Tables, s: Snapshot, threshold: int, u: Tables, a: AssetId, k: SourceKey)
    requires SourceStep(t, s, threshold, u, k) && Extends(t, u) && !Seen(u.sources, s, |s.assets|, a)
    ensures k in u.sources && u.sources[k].asset == a && u.sources[k].active
       <==> k in t.sources && t.sources[k].asset == a && t.sources[k].active && k !in Expiring(t, s, threshold)
  {
    if k in u.sources && u.sources[k].asset == a && ListsAsset(s, k) {
      var i :| 0 <= i < |s.assets| && s.assets[i].external == k.external;
      assert Observes(u.sources, s, i, a);
    }
  }

  /** An asset is left without ACTIVE identities exactly when it is orphaned. */
  lemma OrphanedIff(t: Tables, s: Snapshot, threshold: int, u: Progress, a: AssetId)
    requires Inv(t) && Sealed(t) && Apply(t, s, threshold) == Ok(u) && Extends(t, u.t) && a in t.assets
    ensures !HasActiveSource(u.t.sources, a) <==> Orphaned(t, s, Threshold(threshold), a)
  {
    hide Inv, Sealed, Apply, Extends, SourceStep, Expiring, Mentioned;
    SeenAfter(t, s, threshold, u, a);
    forall k ensures SourceStep(t, s, Threshold(threshold), u.t, k) {
      ApplySources(t, s, threshold, u, k);
    }
    if Seen(u.t.sources, s, |s.assets|, a) {
      SeenHasActive(t, s, Threshold(threshold), u.t, a);
    } else {
      forall k ensures k in u.t.sources && u.t.sources[k].asset == a && u.t.sources[k].active
                  <==> k in t.sources && t.sources[k].asset == a && t.sources[k].active
                       && k !in Expiring(t, s, Threshold(threshold))
      {
        UnseenIdentity(t, s, Threshold(threshold), u.t, a, k);
      }
    }
  }

  lemma SeenHasActive(t: Tables, s: Snapshot, threshold: int, u: Tables, a: AssetId)
    requires (forall k :: SourceStep(t, s, threshold, u, k)) && Seen(u.sources, s, |s.assets|, a)
    ensures HasActiveSource(u.sources, a)
  {
    var i :| 0 <= i < |s.assets| && Observes(u.sources, s, i, a);
    var k := SourceOf(s, s.assets[i].external);
    assert SourceStep(t, s, threshold, u, k) && ListsAsset(s, k);
  }

  /** The identities counted as MISSING are the expiring ones of orphaned assets. */
  lemma LastSourcesIff(t: Tables, s: Snapshot, threshold: int, u: Progress, k: SourceKey)
    requires Inv(t) && Sealed(t) && Apply(t, s, threshold) == Ok(u) && Inv(u.t) && Extends(t, u.t)
    ensures k in LastSources(t, u.t) <==>
            k in Expiring(t, s, Threshold(threshold)) && Orphaned(t, s, Threshold(threshold), t.sources[k].asset)
  {
    hide Inv, Sealed, Apply, Orphaned, HasActiveSource;
    ApplySources(t, s, threshold, u, k);
    if k in t.sources {
      InvFacts(t, t.sources[k].asset);
      OrphanedIff(t, s, threshold, u, t.sources[k].asset);
      InvFacts(u.t, t.sources[k].asset);
    }
  }

  /** No orphaned asset has two expiring identities. */
  ghost predicate LosesOneEach(t: Tables, s: Snapshot, threshold: int) {
    forall j, k | j in Expiring(t, s, threshold) && k in Expiring(t, s, threshold) ::
      t.sources[j].asset == t.sources[k].asset && Orphaned(t, s, threshold, t.sources[k].asset) ==> j == k
  }

  lemma LosesOneEachIff(t: Tables, s: Snapshot, threshold: int, u: Progress)
    requires Inv(t) && Sealed(t) && Apply(t, s, threshold) == Ok(u) && Inv(u.t) && Extends(t, u.t)
    ensures OneSourceEach(u.t.sources, LastSources(t, u.t)) <==> LosesOneEach(t, s, Threshold(threshold))
  {
    hide Inv, Sealed, Apply, LastSources, Expiring, Orphaned;
    ExpiringKnown(t, s, Threshold(threshold));
    var limit := Threshold(threshold);
    forall k
      ensures k in LastSources(t, u.t) <==> k in Expiring(t, s, limit) && Orphaned(t, s, limit, t.sources[k].asset)
    {
      LastSourcesIff(t, s, threshold, u, k);
    }
  }

  lemma ExpiringKnown(t: Tables, s: Snapshot, threshold: int)
    ensures Expiring(t, s, threshold) <= t.sources.Keys
  {
  }

  /** MISSING counts source identities, not assets: it is the number of assets that became
      MISSING exactly when no asset loses two expiring identities at once. */
  lemma MissingCounterIff(t: Tables, s: Snapshot, threshold: int, u: Progress)
    requires Inv(t) && Sealed(t) && Apply(t, s, threshold) == Ok(u)
    ensures u.sum.missing >= |WentMissing(t, u.t)|
    ensures u.sum.missing == |WentMissing(t, u.t)| <==> LosesOneEach(t, s, Threshold(threshold))
  {
    hide Inv, Sealed, Apply, Extends, LastSources, WentMissing, AssetsOf, OneSourceEach, LosesOneEach;
    SummaryIsExact(t, s, threshold, u);
    ApplyPreserves(t, s, threshold, u);
    MissingAssets(t, u.t);
    MissingAssetsAll(t, u.t);
    ImageCount(u.t.sources, LastSources(t, u.t));
    assert AssetsOf(u.t.sources, LastSources(t, u.t)) == WentMissing(t, u.t);
    LosesOneEachIff(t, s, threshold, u);
  }
}
