/** What the summary and the change rows of an accepted snapshot say about the tables. */
module ReconcileSummary {
  import opened Domain
  import opened Tables
  import opened Reconcile
  import opened ReconcileInvariants
  import opened ReconcileSteps

  /** Counters after the first `n` observations. */
  ghost predicate AssetCounts(t: Tables, n: nat, p: Progress) {
    && p.sum.created + p.sum.updated + p.sum.kept == n
    && |p.t.assets| == |t.assets| + p.sum.created
    && p.sum.relationshipsCreated == p.sum.relationshipsRemoved == p.sum.missing == 0
    && |p.t.changes| <= |t.changes| + p.sum.changes
  }

  /** Change rows after some observations: discovery rows are exactly the new assets. */
  ghost predicate AssetChanges(t: Tables, s: Snapshot, p: Progress) {
    && t.changes <= p.t.changes
    && (forall a :: ChangeOf(s, a, AssetDiscovered) in p.t.changes <==> a in p.t.assets && a !in t.assets)
    && (forall c :: c in p.t.changes && c.kind == AssetMissing ==> c in t.changes)
  }

  lemma TouchOutcome(t: Tables, s: Snapshot, o: Observation, x: Touch)
    requires TouchAsset(t, s, o) == Ok(x)
    ensures !(x.created && x.returned)
  {
  }

  lemma AddOne(changes: set<Change>, add: bool, c: Change)
    ensures var r := changes + (if add then {c} else {});
            |r| <= |changes| + Bit(add) && changes <= r
  {
  }

  lemma ObserveChangeCount(p: Progress, s: Snapshot, o: Observation, x: Touch, strong: map<StrongKey, AssetId>)
    ensures |Observed(p, s, o, x, strong).t.changes| + p.sum.changes <= |p.t.changes|
                                                                        + Observed(p, s, o, x, strong).sum.changes
  {
    hide RecordClaims, HasConflict, EffectiveStatus;
    var conflict := HasConflict(RecordClaims(p.t.claims, s, o, x.asset, o.attributes.Keys), s.org, x.asset);
    AddOne(p.t.changes, x.returned, ChangeOf(s, x.asset, AssetReturned));
    var r := p.t.changes + (if x.returned then {ChangeOf(s, x.asset, AssetReturned)} else {});
    AddOne(r, conflict, ChangeOf(s, x.asset, SourceConflict));
    AddOne(r + (if conflict then {ChangeOf(s, x.asset, SourceConflict)} else {}), x.created,
           ChangeOf(s, x.asset, AssetDiscovered));
  }

  lemma ObserveChangeRows(p: Progress, s: Snapshot, o: Observation, x: Touch, strong: map<StrongKey, AssetId>)
    ensures var q := Observed(p, s, o, x, strong);
            && p.t.changes <= q.t.changes
            && (forall c :: c in q.t.changes && c.kind == AssetMissing ==> c in p.t.changes)
            && (forall a :: ChangeOf(s, a, AssetDiscovered) in q.t.changes <==>
                            ChangeOf(s, a, AssetDiscovered) in p.t.changes || (x.created && a == x.asset))
  {
    hide RecordClaims, HasConflict, EffectiveStatus, BindSource, SetStatus;
  }

  lemma ObserveCounts(t: Tables, n: nat, p: Progress, s: Snapshot, o: Observation, x: Touch, q: Progress)
    requires AssetCounts(t, n, p) && !(x.created && x.returned)
    requires q.t.assets.Keys == p.t.assets.Keys + {x.asset} && (x.created <==> x.asset !in p.t.assets)
    requires q == Observed(p, s, o, x, q.t.strong)
    ensures AssetCounts(t, n + 1, q)
  {
    hide Observed;
    ObserveChangeCount(p, s, o, x, q.t.strong);
    ObserveSum(p, s, o, x, q.t.strong);
    if !x.created {
      assert p.t.assets.Keys + {x.asset} == p.t.assets.Keys;
    }
    assert |q.t.assets.Keys| == |p.t.assets.Keys| + Bit(x.created);
  }

  lemma ObserveDiscoveries(t: Tables, p: Progress, s: Snapshot, o: Observation, x: Touch, q: Progress)
    requires AssetChanges(t, s, p) && t.assets.Keys <= p.t.assets.Keys
    requires q.t.assets.Keys == p.t.assets.Keys + {x.asset} && (x.created <==> x.asset !in p.t.assets)
    requires q == Observed(p, s, o, x, q.t.strong)
    ensures AssetChanges(t, s, q)
  {
    hide Observed;
    ObserveChangeRows(p, s, o, x, q.t.strong);
  }

  lemma ObserveSum(p: Progress, s: Snapshot, o: Observation, x: Touch, strong: map<StrongKey, AssetId>)
    ensures var sum := Observed(p, s, o, x, strong).sum;
            && sum.created == p.sum.created + Bit(x.created) && sum.updated == p.sum.updated + Bit(x.returned)
            && sum.kept == p.sum.kept + Bit(!x.created && !x.returned)
            && (sum.relationshipsCreated, sum.relationshipsRemoved, sum.missing)
               == (p.sum.relationshipsCreated, p.sum.relationshipsRemoved, p.sum.missing)
  {
  }

  lemma {:induction false} ObserveAssetsCounts(t: Tables, s: Snapshot, n: nat, p: Progress)
    requires n <= |s.assets| && Inv(t) && Sealed(t) && s.id !in t.runs && ObserveAssets(t, s, n) == Ok(p)
    ensures AssetCounts(t, n, p) && AssetChanges(t, s, p) && Mid(t, s, n, p)
  {
    hide Inv, Sealed, Mid, ObserveAsset, TouchAsset, Observed, Accepted, BindStrong;
    ObserveAssetsMid(t, s, n, p);
    if n == 0 {
      CountsStart(t, s);
    } else {
      hide AssetCounts, AssetChanges;
      var b := ObserveAssets(t, s, n - 1).value;
      ObserveAssetsCounts(t, s, n - 1, b);
      MidBase(t, s, n - 1, b);
      var x := ObserveFacts(b, s, s.assets[n - 1], p);
      TouchOutcome(b.t, s, s.assets[n - 1], x);
      AcceptedKeys(b, s, s.assets[n - 1], x, p);
      ObserveCounts(t, n - 1, b, s, s.assets[n - 1], x, p);
      ObserveDiscoveries(t, b, s, s.assets[n - 1], x, p);
    }
  }

  lemma AcceptedKeys(p: Progress, s: Snapshot, o: Observation, x: Touch, q: Progress)
    requires Accepted(p, s, o, x, q)
    ensures q.t.assets.Keys == p.t.assets.Keys + {x.asset} && (x.created <==> x.asset !in p.t.assets)
  {
  }

  lemma CountsStart(t: Tables, s: Snapshot)
    requires Sealed(t) && s.id !in t.runs
    ensures AssetCounts(t, 0, Progress(t, map[], ZERO_SUMMARY)) && AssetChanges(t, s, Progress(t, map[], ZERO_SUMMARY))
  {
  }

  lemma MidBase(t: Tables, s: Snapshot, n: nat, p: Progress)
    requires n <= |s.assets| && Mid(t, s, n, p)
    ensures Bindings(p.t) && t.assets.Keys <= p.t.assets.Keys
  {
  }

  /** Counters and change rows after the first `n` relationship observations. */
  ghost predicate RelCounts(p: Progress, q: Progress) {
    && q.sum == p.sum.(relationshipsCreated := q.sum.relationshipsCreated, changes := q.sum.changes)
    && |q.t.relationships| + p.sum.relationshipsCreated == |p.t.relationships| + q.sum.relationshipsCreated
    && p.t.changes <= q.t.changes && |q.t.changes| + p.sum.changes <= |p.t.changes| + q.sum.changes
    && (forall c :: c in q.t.changes && c.kind != RelationshipAdded ==> c in p.t.changes)
  }

  lemma ObserveRelationshipCounts(p: Progress, b: Progress, s: Snapshot, n: nat, q: Progress)
    requires 0 < n <= |s.relationships| && RelCounts(p, b) && ObserveRelationship(b, s, s.relationships[n - 1]) == Ok(q)
    ensures RelCounts(p, q)
  {
    var r := s.relationships[n - 1];
    var id := RelationshipId(s.org, b.bound[r.from], b.bound[r.to], r.relType);
    assert q.t.relationships.Keys == b.t.relationships.Keys + {id};
    assert |q.t.relationships.Keys| == |b.t.relationships.Keys| + Bit(id !in b.t.relationships);
  }

  lemma {:induction false} ObserveRelationshipsCounts(p: Progress, s: Snapshot, n: nat, q: Progress)
    requires n <= |s.relationships| && ObserveRelationships(p, s, n) == Ok(q)
    ensures RelCounts(p, q)
  {
    hide ObserveRelationship;
    if n > 0 {
      var b := ObserveRelationships(p, s, n - 1).value;
      ObserveRelationshipsCounts(p, s, n - 1, b);
      ObserveRelationshipCounts(p, b, s, n, q);
    }
  }

  // ---------- what marking counts ----------

  /** Source identities that went from ACTIVE to MISSING and left their asset MISSING. */
  ghost function LastSources(t: Tables, u: Tables): set<SourceKey> {
    set k | k in t.sources && t.sources[k].active && k in u.sources && !u.sources[k].active
            && u.sources[k].asset in u.assets && u.assets[u.sources[k].asset].status == Missing
  }

  /** Assets that were not MISSING before and are MISSING now. */
  ghost function WentMissing(t: Tables, u: Tables): set<AssetId> {
    set a | a in t.assets && t.assets[a].status != Missing && a in u.assets && u.assets[a].status == Missing
  }

  /** Relationships that were ACTIVE before and are REMOVED now. */
  ghost function WentRemoved(t: Tables, u: Tables): set<RelationshipId> {
    set r | r in t.relationships && t.relationships[r] && r in u.relationships && !u.relationships[r]
  }

  /** The identities that marking expires for lack of any ACTIVE source are the last sources. */
  lemma GoneIsLast(t: Tables, s: Snapshot, q: Progress, sources: map<SourceKey, SourceRow>, expired: set<SourceKey>,
                   u: Tables)
    requires Marked(q, s, sources, expired, MarkAssets(q, s, sources, expired))
    requires u.sources == sources && u.assets.Keys == q.t.assets.Keys && StatusAgrees(u) && Bindings(u)
    requires forall k :: k in expired ==> k in t.sources && t.sources[k].active && q.t.sources[k].active
    requires forall k :: k in t.sources && t.sources[k].active && k in sources && !sources[k].active ==>
                           q.t.sources[k].active
    ensures Gone(q.t, s, sources, expired) == LastSources(t, u)
  {
    hide MarkAssets;
    forall k | k in LastSources(t, u) ensures k in Gone(q.t, s, sources, expired) {
      assert k in expired;
    }
  }

  /** An expired identity is one the snapshot does not list, so it is as it was before. */
  lemma ExpiredFacts(t: Tables, s: Snapshot, threshold: int, p: Progress, q: Progress, k: SourceKey)
    requires threshold >= 1 && Mid(t, s, |s.assets|, p) && RelMid(p, s, |s.relationships|, q)
    requires k in Expired(CountAbsences(q.t, s), s, threshold)
    ensures k in t.sources && t.sources[k] == q.t.sources[k] && q.t.sources[k].active
  {
    hide Inv, Provenance, Extends, RelTouched;
    assert q.t.sources == p.t.sources && q.t.observations == p.t.observations;
    assert SourceOf(s, k.external) == k;
  }

  /** A source identity that was ACTIVE is still ACTIVE after the observations. */
  lemma ActiveKept(t: Tables, s: Snapshot, p: Progress, q: Progress, k: SourceKey)
    requires Mid(t, s, |s.assets|, p) && RelMid(p, s, |s.relationships|, q) && k in t.sources && t.sources[k].active
    ensures k in q.t.sources && q.t.sources[k].active
  {
    hide Inv, Provenance, RelTouched;
    if OwnSource(s, k) && k.external in p.bound {
      assert SourceOf(s, k.external) == k;
    }
  }

  lemma MarkCounts(t: Tables, s: Snapshot, threshold: int, p: Progress, q: Progress, u: Progress)
    requires Inv(u.t) && Mid(t, s, |s.assets|, p) && RelMid(p, s, |s.relationships|, q)
    requires var m := MarkMissing(q, s, Threshold(threshold));
             u == m.(t := m.t.(runs := m.t.runs[s.id := m.sum]))
    ensures u.sum.missing == q.sum.missing + |LastSources(t, u.t)|
    ensures u.sum.changes == q.sum.changes + |LastSources(t, u.t)|
    ensures u.t.changes == q.t.changes + MissingChanges(s, AssetsOf(u.t.sources, LastSources(t, u.t)))
  {
    hide Mid, RelMid, RemovedRels, CountRelAbsences, ExpiredRels, ExpireRels, CountAbsences, Expired, Expire,
      RetractClaims, LastSources, Gone,
      ClaimsScoped, OneActiveClaim, ClaimsBacked, EvidenceAgrees, RelBindings, RelStatusAgrees,
      AssetsOf, MissingChanges;
    var threshold' := Threshold(threshold);
    var sources, expired := MarkFacts(q, s, threshold');
    forall k | k in expired ensures k in t.sources && t.sources[k].active && q.t.sources[k].active {
      ExpiredFacts(t, s, threshold', p, q, k);
    }
    forall k | k in t.sources && t.sources[k].active && k in sources && !sources[k].active
      ensures q.t.sources[k].active {
      ActiveKept(t, s, p, q, k);
    }
    GoneIsLast(t, s, q, sources, expired, u.t);
  }

  lemma MissingAssets(t: Tables, u: Tables)
    requires Inv(t) && Inv(u) && Extends(t, u)
    ensures LastSources(t, u) <= u.sources.Keys && AssetsOf(u.sources, LastSources(t, u)) <= WentMissing(t, u)
  {
    hide ClaimsScoped, OneActiveClaim, ClaimsBacked, EvidenceAgrees, RelBindings, RelStatusAgrees;
    forall k | k in LastSources(t, u) ensures u.sources[k].asset in WentMissing(t, u) {
      var a := u.sources[k].asset;
      assert HasActiveSource(t.sources, a);
    }
  }

  lemma MissingAssetsAll(t: Tables, u: Tables)
    requires Inv(t) && Inv(u) && Extends(t, u)
    ensures WentMissing(t, u) <= AssetsOf(u.sources, LastSources(t, u))
  {
    hide ClaimsScoped, OneActiveClaim, ClaimsBacked, EvidenceAgrees, RelBindings, RelStatusAgrees;
    forall a | a in WentMissing(t, u) ensures a in AssetsOf(u.sources, LastSources(t, u)) {
      var k :| k in t.sources && t.sources[k].asset == a && t.sources[k].active;
      assert k in LastSources(t, u);
    }
  }

  /** Marking removes some ACTIVE relationships, counts them, and retargets no source. */
  lemma MarkRelShape(q: Progress, s: Snapshot, threshold: int, u: Progress) returns (removed: set<RelationshipId>)
    requires var m := MarkMissing(q, s, Threshold(threshold));
             u == m.(t := m.t.(runs := m.t.runs[s.id := m.sum]))
    ensures u.t.relationships == WithoutRels(q.t.relationships, removed)
    ensures forall r :: r in removed ==> r in q.t.relationships && q.t.relationships[r]
    ensures u.sum.relationshipsRemoved == q.sum.relationshipsRemoved + |removed|
    ensures forall k :: k in q.t.relSources ==> k in u.t.relSources
                                                && u.t.relSources[k].relationship == q.t.relSources[k].relationship
  {
    hide RetractClaims, SettleAssets, Gone, CountAbsences, HasActiveRelSource;
    var m := MarkMissingAssets(q, s, Threshold(threshold));
    var counted := CountRelAbsences(m.t, s);
    var expired := ExpiredRels(counted, s, Threshold(threshold));
    removed := RemovedRels(m.t, s, ExpireRels(counted, expired), expired);
  }

  /** The relationships that marking removes are the ones that went from ACTIVE to REMOVED. */
  lemma RemovedIsTransition(t: Tables, s: Snapshot, threshold: int, p: Progress, q: Progress, u: Tables,
                            removed: set<RelationshipId>)
    requires p.t.relationships == t.relationships && RelTouched(p, s, RelTriples(s, |s.relationships|), q)
    requires t.relationships.Keys <= q.t.relationships.Keys && RelStatusAgrees(q.t) && RelStatusAgrees(u)
    requires u.relationships == WithoutRels(q.t.relationships, removed)
    requires forall r :: r in removed ==> r in q.t.relationships && q.t.relationships[r]
    requires forall k :: k in q.t.relSources ==> k in u.relSources
                                                 && u.relSources[k].relationship == q.t.relSources[k].relationship
    requires forall k :: RelSourceStep(t, s, threshold, u, k)
    ensures removed == WentRemoved(t, u)
  {
    hide RelSourceStep, RelTouched, RelStatusAgrees;
    forall r | r in removed ensures r in WentRemoved(t, u) {
      if !(r in t.relationships && t.relationships[r]) {
        TouchedStays(t, s, threshold, p, q, u, r);
      }
    }
    forall r | r in WentRemoved(t, u) ensures r in removed {
      if !q.t.relationships[r] {
        TouchedActive(p, s, q, r);
      }
    }
  }

  lemma TouchedActive(p: Progress, s: Snapshot, q: Progress, r: RelationshipId)
    requires RelTouched(p, s, RelTriples(s, |s.relationships|), q) && RelStatusAgrees(q.t)
    requires r in q.t.relationships && !(r in p.t.relationships && p.t.relationships[r] == q.t.relationships[r])
    ensures q.t.relationships[r]
  {
    var w :| w in RelTriples(s, |s.relationships|) && q.t.relSources[SourceOfTriple(s, w)].relationship == r;
    assert q.t.relSources[SourceOfTriple(s, w)].active;
  }

  /** A relationship that the snapshot made ACTIVE is ACTIVE at the end. */
  lemma TouchedStays(t: Tables, s: Snapshot, threshold: int, p: Progress, q: Progress, u: Tables, r: RelationshipId)
    requires RelTouched(p, s, RelTriples(s, |s.relationships|), q)
    requires r in q.t.relationships && !(r in p.t.relationships && p.t.relationships[r] == q.t.relationships[r])
    requires r in u.relationships && RelStatusAgrees(u)
    requires forall k :: k in q.t.relSources ==> k in u.relSources
                                                 && u.relSources[k].relationship == q.t.relSources[k].relationship
    requires forall k :: RelSourceStep(t, s, threshold, u, k)
    ensures u.relationships[r]
  {
    hide RelSourceStep;
    var w :| w in RelTriples(s, |s.relationships|) && q.t.relSources[SourceOfTriple(s, w)].relationship == r;
    ListedStays(t, s, threshold, u, w);
  }

  lemma ListedStays(t: Tables, s: Snapshot, threshold: int, u: Tables, w: RelObservationKey)
    requires w in RelTriples(s, |s.relationships|) && RelSourceStep(t, s, threshold, u, SourceOfTriple(s, w))
    ensures SourceOfTriple(s, w) in u.relSources && u.relSources[SourceOfTriple(s, w)].active
  {
    assert ListsRelationship(s, SourceOfTriple(s, w));
  }

  /** For every accepted snapshot: every observation is counted once; the created counters
      are the rows added; RELATIONSHIPS_REMOVED counts the ACTIVE to REMOVED transitions; the
      discovery rows are exactly the new assets and the missing rows exactly the assets that
      became MISSING; MISSING counts the identities that left an asset without any ACTIVE
      identity; and at least as many changes are counted as rows are written. */
  lemma SummaryIsExact(t: Tables, s: Snapshot, threshold: int, u: Progress)
    requires Inv(t) && Sealed(t) && Apply(t, s, threshold) == Ok(u)
    ensures u.sum.created + u.sum.updated + u.sum.kept == |s.assets|
    ensures u.sum.created == |u.t.assets| - |t.assets|
    ensures u.sum.relationshipsCreated == |u.t.relationships| - |t.relationships|
    ensures u.sum.relationshipsRemoved == |WentRemoved(t, u.t)|
    ensures u.sum.missing == |LastSources(t, u.t)|
    ensures forall a :: ChangeOf(s, a, AssetDiscovered) in u.t.changes <==> a in u.t.assets && a !in t.assets
    ensures forall a :: ChangeOf(s, a, AssetMissing) in u.t.changes <==> a in WentMissing(t, u.t)
    ensures u.sum.changes >= |u.t.changes| - |t.changes|
  {
    hide Inv, Sealed, Apply, ObserveAssets, ObserveRelationships, MarkMissing, Mid, RelMid, Extends, SourceStep,
      RelSourceStep, RelTouched,
      RelStatusAgrees, LastSources, WentMissing, WentRemoved, AssetsOf;
    var p, q := Stages(t, s, threshold, u);
    ApplyPreserves(t, s, threshold, u);
    ObserveAssetsCounts(t, s, |s.assets|, p);
    ObserveRelationshipsCounts(p, s, |s.relationships|, q);
    MarkCounts(t, s, threshold, p, q, u);
    forall k ensures RelSourceStep(t, s, Threshold(threshold), u.t, k) {
      ApplyRelSources(t, s, threshold, u, k);
    }
    MarkShape(q, s, threshold, u);
    StageShape(t, s, p, q);
    var removed := MarkRelShape(q, s, threshold, u);
    RemovedIsTransition(t, s, Threshold(threshold), p, q, u.t, removed);
    MissingAssets(t, u.t);
    MissingAssetsAll(t, u.t);
    MissingRows(s, WentMissing(t, u.t));
    NoRowsYet(t, s);
    MissingRowCount(q.t.changes, s, u.t.sources, LastSources(t, u.t));
  }

  lemma MarkShape(q: Progress, s: Snapshot, threshold: int, u: Progress)
    requires var m := MarkMissing(q, s, Threshold(threshold));
             u == m.(t := m.t.(runs := m.t.runs[s.id := m.sum]))
    requires Inv(u.t)
    ensures RelStatusAgrees(u.t)
    ensures u.t.assets.Keys == q.t.assets.Keys && u.t.relationships.Keys == q.t.relationships.Keys
    ensures u.sum == q.sum.(missing := u.sum.missing, changes := u.sum.changes,
                     relationshipsRemoved := u.sum.relationshipsRemoved)
  {
    hide Bindings, ClaimsScoped, StatusAgrees, OneActiveClaim, ClaimsBacked, EvidenceAgrees, RelBindings,
      RelStatusAgrees;
  }

  lemma StageShape(t: Tables, s: Snapshot, p: Progress, q: Progress)
    requires Mid(t, s, |s.assets|, p) && RelMid(p, s, |s.relationships|, q)
    ensures q.t.assets == p.t.assets && p.t.relationships == t.relationships
    ensures t.relationships.Keys <= q.t.relationships.Keys
    ensures RelTouched(p, s, RelTriples(s, |s.relationships|), q) && RelStatusAgrees(q.t)
  {
    hide Bindings, ClaimsScoped, StatusAgrees, OneActiveClaim, ClaimsBacked, EvidenceAgrees, RelBindings,
      RelStatusAgrees, Provenance, Listed, UnlistedKept, RelTouched;
  }

  lemma NoRowsYet(t: Tables, s: Snapshot)
    requires Sealed(t) && s.id !in t.runs
    ensures forall c :: c in t.changes ==> c.snapshot != s.id
  {
  }

  lemma MissingRows(s: Snapshot, gone: set<AssetId>)
    ensures forall a :: ChangeOf(s, a, AssetMissing) in MissingChanges(s, gone) <==> a in gone
    ensures forall c :: c in MissingChanges(s, gone) ==> c.kind == AssetMissing
  {
  }

  /** No more missing rows than identities that went missing. */
  lemma {:induction false} MissingRowCount(changes: set<Change>, s: Snapshot, sources: map<SourceKey, SourceRow>,
                                           keys: set<SourceKey>)
    requires keys <= sources.Keys
    ensures |changes + MissingChanges(s, AssetsOf(sources, keys))| <= |changes| + |keys|
    decreases |keys|
  {
    if keys == {} {
      assert changes + MissingChanges(s, AssetsOf(sources, keys)) == changes;
    } else {
      var k :| k in keys;
      var rest := keys - {k};
      MissingRowCount(changes, s, sources, rest);
      assert changes + MissingChanges(s, AssetsOf(sources, keys))
          == changes + MissingChanges(s, AssetsOf(sources, rest)) + {ChangeOf(s, sources[k].asset, AssetMissing)};
    }
  }
}
