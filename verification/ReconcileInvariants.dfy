/** Invariants of the reconciliation tables and their preservation by each step. */
module ReconcileInvariants {
  import opened Domain
  import opened Tables
  import opened Reconcile

  /** The source identity that an asset was created for. */
  function Root(a: AssetId): SourceKey {
    SourceKey(a.org, a.connector, a.external)
  }

  /** Bindings point to assets of the same organization, and every asset is bound by the
      source identity it was created for. */
  ghost predicate Bindings(t: Tables) {
    && (forall k :: k in t.sources ==> t.sources[k].asset in t.assets && t.sources[k].asset.org == k.org)
    && (forall v :: v in t.strong ==> t.strong[v] in t.assets && t.strong[v].org == v.org)
    && (forall a :: a in t.assets ==> Root(a) in t.sources && t.sources[Root(a)].asset == a)
  }

  ghost predicate ClaimsScoped(t: Tables) {
    forall id :: id in t.claims ==>
                   t.claims[id].asset in t.assets && t.claims[id].org == t.claims[id].asset.org
                   && t.claims[id].key == id.key
  }

  /** Stored status agrees with the evidence. */
  ghost predicate StatusAgrees(t: Tables) {
    forall a :: a in t.assets ==> t.assets[a].status == SettledStatus(t.claims, t.sources, a.org, a)
  }

  /** A relationship source identity points to the relationship between the assets that its
      two external identifiers are bound to. */
  ghost predicate RelBindings(t: Tables) {
    forall q :: q in t.relSources ==>
                  var from, to := SourceKey(q.org, q.connector, q.from), SourceKey(q.org, q.connector, q.to);
                  && from in t.sources && to in t.sources
                  && t.relSources[q].relationship
                     == RelationshipId(q.org, t.sources[from].asset, t.sources[to].asset, q.relType)
                  && t.relSources[q].relationship in t.relationships
  }

  ghost predicate RelStatusAgrees(t: Tables) {
    forall r :: r in t.relationships ==> (t.relationships[r] <==> HasActiveRelSource(t.relSources, r))
  }

  predicate SameClaimSlot(c: ClaimRow, d: ClaimRow) {
    c.org == d.org && c.asset == d.asset && c.connector == d.connector && c.key == d.key
  }

  ghost predicate OneActiveClaim(t: Tables) {
    forall i, j | i in t.claims && j in t.claims && t.claims[i].active && t.claims[j].active ::
      SameClaimSlot(t.claims[i], t.claims[j]) ==> i == j
  }

  ghost predicate ClaimsBacked(t: Tables) {
    forall id :: id in t.claims && t.claims[id].active ==>
                   HasActiveSourceOf(t.sources, t.claims[id].org, t.claims[id].connector, t.claims[id].asset)
  }

  /** Every accepted observation's source identity is bound to the asset that each of its
      strong identifiers is bound to. */
  ghost predicate EvidenceAgrees(t: Tables) {
    forall w :: w in t.observations ==>
                  var row := t.observations[w];
                  var k := SourceKey(row.org, row.connector, w.external);
                  && k in t.sources
                  && (forall v :: v in StrongRefs(row.org, row.hints) ==>
                                    v in t.strong && t.strong[v] == t.sources[k].asset)
  }

  /** Rows that name a snapshot name a committed one or the current one. */
  ghost predicate Provenance(t: Tables, current: string) {
    && (forall w :: w in t.observations ==> w.snapshot in t.runs || w.snapshot == current)
    && (forall id :: id in t.claims ==> id.snapshot in t.runs || id.snapshot == current)
    && (forall w :: w in t.relObservations ==> w.snapshot in t.runs || w.snapshot == current)
    && (forall c :: c in t.changes ==> c.snapshot in t.runs || c.snapshot == current)
  }

  ghost predicate Inv(t: Tables) {
    && Bindings(t) && ClaimsScoped(t) && StatusAgrees(t) && RelBindings(t) && RelStatusAgrees(t)
    && OneActiveClaim(t) && ClaimsBacked(t) && EvidenceAgrees(t)
  }

  // ---------- an asset observation ----------

  lemma TouchFacts(t: Tables, s: Snapshot, o: Observation, x: Touch)
    requires Bindings(t) && TouchAsset(t, s, o) == Ok(x)
    ensures Touched(t, s, o, x)
  {
    hide StrongRefs;
    var refs := StrongRefs(s.org, o.hints);
    if SourceOf(s, o.external) !in t.sources && Hits(t.strong, refs) != {} {
      assert forall v :: v in refs ==> v.org == s.org by { StrongRefsScoped(s.org, o.hints); }
      assert x.asset in Hits(t.strong, refs);
    }
  }

  lemma StrongRefsScoped(org: string, hints: map<string, string>)
    ensures forall v :: v in StrongRefs(org, hints) ==> v.org == org
  {
  }

  /** How resolution relates the touched asset to the tables. */
  ghost predicate Touched(t: Tables, s: Snapshot, o: Observation, x: Touch) {
    && x.asset.org == s.org && x.assets.Keys == t.assets.Keys + {x.asset}
    && (forall a :: a in t.assets && a != x.asset ==> x.assets[a] == t.assets[a])
    && (x.created <==> x.asset !in t.assets)
    && (x.created ==> Root(x.asset) == SourceOf(s, o.external) && SourceOf(s, o.external) !in t.sources)
    && (SourceOf(s, o.external) in t.sources ==> t.sources[SourceOf(s, o.external)].asset == x.asset)
  }

  /** An accepted observation, table by table. */
  ghost predicate Accepted(p: Progress, s: Snapshot, o: Observation, x: Touch, q: Progress) {
    var refs, ids := StrongRefs(s.org, o.hints), NewClaimIds(s, o, o.attributes.Keys);
    && Touched(p.t, s, o, x)
    && q.t.assets.Keys == p.t.assets.Keys + {x.asset}
    && (forall a :: a in p.t.assets && a != x.asset ==> q.t.assets[a] == p.t.assets[a])
    && q.t.assets[x.asset].status == EffectiveStatus(q.t.claims, s.org, x.asset)
    && q.t.sources == p.t.sources[SourceOf(s, o.external) := SourceRow(x.asset, true, 0)]
    && q.t.strong == BindStrong(p.t.strong, refs, x.asset)
    && (forall v :: v in refs ==> q.t.strong[v] == x.asset)
    && ObservationKey(s.id, o.external) !in p.t.observations
    && q.t.observations
       == p.t.observations[ObservationKey(s.id, o.external) := ObservationRow(s.org, s.connector, o.hints)]
    && ids !! p.t.claims.Keys
    && q.t.claims == RecordClaims(p.t.claims, s, o, x.asset, o.attributes.Keys)
    && (q.t.relationships, q.t.relSources, q.t.relObservations, q.t.runs)
       == (p.t.relationships, p.t.relSources, p.t.relObservations, p.t.runs)
    && o.external !in p.bound && q.bound == p.bound[o.external := x.asset]
  }

  lemma ObserveUnfold(p: Progress, s: Snapshot, o: Observation, q: Progress) returns (x: Touch)
    requires ObserveAsset(p, s, o) == Ok(q)
    ensures TouchAsset(p.t, s, o) == Ok(x)
    ensures q == Observed(p, s, o, x, BindStrong(p.t.strong, StrongRefs(s.org, o.hints), x.asset))
    ensures forall v :: v in StrongRefs(s.org, o.hints) ==>
                          BindStrong(p.t.strong, StrongRefs(s.org, o.hints), x.asset)[v] == x.asset
    ensures NewClaimIds(s, o, o.attributes.Keys) !! p.t.claims.Keys
    ensures ObservationKey(s.id, o.external) !in p.t.observations && o.external !in p.bound
  {
    x := TouchAsset(p.t, s, o).value;
  }

  /** What an accepted observation does, for a state with sound bindings. */
  lemma ObserveFacts(p: Progress, s: Snapshot, o: Observation, q: Progress) returns (x: Touch)
    requires Bindings(p.t) && ObserveAsset(p, s, o) == Ok(q)
    ensures TouchAsset(p.t, s, o) == Ok(x)
    ensures q == Observed(p, s, o, x, BindStrong(p.t.strong, StrongRefs(s.org, o.hints), x.asset))
    ensures Accepted(p, s, o, x, q)
  {
    x := ObserveUnfold(p, s, o, q);
    TouchFacts(p.t, s, o, x);
    ObservedAccepted(p, s, o, x, q);
  }

  lemma ObserveAccepted(p: Progress, s: Snapshot, o: Observation, q: Progress) returns (x: Touch)
    requires Bindings(p.t) && ObserveAsset(p, s, o) == Ok(q)
    ensures TouchAsset(p.t, s, o) == Ok(x) && Accepted(p, s, o, x, q)
  {
    hide ObserveAsset, TouchAsset, Accepted, Observed, Bindings, BindStrong, StrongRefs;
    x := ObserveFacts(p, s, o, q);
  }

  lemma ObservedAccepted(p: Progress, s: Snapshot, o: Observation, x: Touch, q: Progress)
    requires Touched(p.t, s, o, x)
    requires q == Observed(p, s, o, x, BindStrong(p.t.strong, StrongRefs(s.org, o.hints), x.asset))
    requires forall v :: v in StrongRefs(s.org, o.hints) ==>
                           BindStrong(p.t.strong, StrongRefs(s.org, o.hints), x.asset)[v] == x.asset
    requires NewClaimIds(s, o, o.attributes.Keys) !! p.t.claims.Keys
    requires ObservationKey(s.id, o.external) !in p.t.observations && o.external !in p.bound
    ensures Accepted(p, s, o, x, q)
  {
    hide StrongRefs, RecordClaims, HasConflict;
  }

  lemma BindingKept(p: Progress, s: Snapshot, o: Observation, x: Touch, q: Progress, k: SourceKey)
    requires Bindings(p.t) && Accepted(p, s, o, x, q)
    ensures k in q.t.sources ==> q.t.sources[k].asset in q.t.assets && q.t.sources[k].asset.org == k.org
  {
    hide StrongRefs, BindStrong, RecordClaims, NewClaimIds, HasConflict, Root;
    assert k in q.t.sources && k != SourceOf(s, o.external) ==> k in p.t.sources;
  }

  lemma StrongKept(p: Progress, s: Snapshot, o: Observation, x: Touch, q: Progress, v: StrongKey)
    requires Bindings(p.t) && Accepted(p, s, o, x, q)
    ensures v in q.t.strong ==> q.t.strong[v] in q.t.assets && q.t.strong[v].org == v.org
  {
    hide StrongRefs, RecordClaims, NewClaimIds, HasConflict, Root;
    StrongRefsScoped(s.org, o.hints);
    assert v in q.t.strong && v !in p.t.strong ==> v in StrongRefs(s.org, o.hints);
  }

  lemma RootKept(p: Progress, s: Snapshot, o: Observation, x: Touch, q: Progress, a: AssetId)
    requires Bindings(p.t) && Accepted(p, s, o, x, q)
    ensures a in q.t.assets ==> Root(a) in q.t.sources && q.t.sources[Root(a)].asset == a
  {
    hide StrongRefs, BindStrong, RecordClaims, NewClaimIds, HasConflict;
    assert a in q.t.assets && a !in p.t.assets ==> a == x.asset && x.created;
  }

  lemma ObserveBindings(p: Progress, s: Snapshot, o: Observation, x: Touch, q: Progress)
    requires Bindings(p.t) && Accepted(p, s, o, x, q)
    ensures Bindings(q.t)
  {
    hide Accepted;
    forall k { BindingKept(p, s, o, x, q, k); }
    forall v { StrongKept(p, s, o, x, q, v); }
    forall a { RootKept(p, s, o, x, q, a); }
  }

  /** A claim row is new, or an old row that at most lost its active flag; old rows on other
      assets are not touched. */
  lemma ClaimFrame(p: Progress, s: Snapshot, o: Observation, x: Touch, q: Progress, id: ClaimId)
    requires Accepted(p, s, o, x, q) && id in q.t.claims
    ensures id in NewClaimIds(s, o, o.attributes.Keys) ==>
              q.t.claims[id] == ClaimOf(s, o, x.asset, id.key) && id !in p.t.claims
    ensures id !in NewClaimIds(s, o, o.attributes.Keys) ==> id in p.t.claims
    ensures id in p.t.claims ==> q.t.claims[id] == p.t.claims[id].(active := q.t.claims[id].active)
    ensures id in p.t.claims && q.t.claims[id].active ==> p.t.claims[id].active
    ensures id in p.t.claims && p.t.claims[id].asset != x.asset ==> q.t.claims[id] == p.t.claims[id]
  {
  }

  lemma ObserveConflictFrame(p: Progress, s: Snapshot, o: Observation, x: Touch, q: Progress, a: AssetId)
    requires Accepted(p, s, o, x, q) && a != x.asset
    ensures HasConflict(q.t.claims, a.org, a) == HasConflict(p.t.claims, a.org, a)
  {
    forall id | id in q.t.claims ensures ActiveOn(q.t.claims[id], a.org, a) ==>
                                           id in p.t.claims && p.t.claims[id] == q.t.claims[id] {
      ClaimFrame(p, s, o, x, q, id);
    }
    forall id | id in p.t.claims ensures id in q.t.claims
                                         && (ActiveOn(p.t.claims[id], a.org, a) ==> p.t.claims[id] == q.t.claims[id]) {
      ClaimFrame(p, s, o, x, q, id);
    }
  }

  lemma SourceFrame(p: Progress, s: Snapshot, o: Observation, x: Touch, q: Progress, a: AssetId)
    requires Accepted(p, s, o, x, q) && a != x.asset
    ensures HasActiveSource(q.t.sources, a) == HasActiveSource(p.t.sources, a)
  {
    forall k | k in p.t.sources && p.t.sources[k].asset == a
      ensures k in q.t.sources && q.t.sources[k] == p.t.sources[k] {}
    forall k | k in q.t.sources && q.t.sources[k].asset == a
      ensures k in p.t.sources && q.t.sources[k] == p.t.sources[k] {}
  }

  lemma ObserveStatus(p: Progress, s: Snapshot, o: Observation, x: Touch, q: Progress)
    requires StatusAgrees(p.t) && Accepted(p, s, o, x, q)
    ensures StatusAgrees(q.t)
  {
    var key := SourceOf(s, o.external);
    forall a | a in q.t.assets ensures q.t.assets[a].status == SettledStatus(q.t.claims, q.t.sources, a.org, a) {
      if a == x.asset {
        assert q.t.sources[key].asset == a && q.t.sources[key].active;
      } else {
        ObserveConflictFrame(p, s, o, x, q, a);
        SourceFrame(p, s, o, x, q, a);
      }
    }
  }

  lemma ObserveClaims(p: Progress, s: Snapshot, o: Observation, x: Touch, q: Progress)
    requires ClaimsScoped(p.t) && ClaimsBacked(p.t) && Accepted(p, s, o, x, q)
    ensures ClaimsScoped(q.t) && ClaimsBacked(q.t)
  {
    var key := SourceOf(s, o.external);
    forall id | id in q.t.claims
      ensures q.t.claims[id].asset in q.t.assets && q.t.claims[id].org == q.t.claims[id].asset.org
      ensures q.t.claims[id].key == id.key
      ensures q.t.claims[id].active ==> HasActiveSourceOf(q.t.sources, q.t.claims[id].org, q.t.claims[id].connector,
                                                          q.t.claims[id].asset)
    {
      ClaimFrame(p, s, o, x, q, id);
      if id in p.t.claims && q.t.claims[id].active {
        var c := p.t.claims[id];
        var k :| k in p.t.sources && p.t.sources[k].asset == c.asset && p.t.sources[k].active && k.org == c.org
                 && k.connector == c.connector;
        assert k in q.t.sources && q.t.sources[k].asset == c.asset && q.t.sources[k].active;
      } else {
        assert key in q.t.sources;
      }
    }
  }

  lemma ObserveOneClaim(p: Progress, s: Snapshot, o: Observation, x: Touch, q: Progress)
    requires OneActiveClaim(p.t) && Accepted(p, s, o, x, q)
    ensures OneActiveClaim(q.t)
  {
    forall i, j | i in q.t.claims && j in q.t.claims && q.t.claims[i].active && q.t.claims[j].active
                  && SameClaimSlot(q.t.claims[i], q.t.claims[j])
      ensures i == j
    {
      ClaimFrame(p, s, o, x, q, i);
      ClaimFrame(p, s, o, x, q, j);
    }
  }

  lemma ObserveEvidence(p: Progress, s: Snapshot, o: Observation, x: Touch, q: Progress)
    requires EvidenceAgrees(p.t) && Accepted(p, s, o, x, q)
    ensures EvidenceAgrees(q.t)
  {
    hide StrongRefs, RecordClaims, NewClaimIds, HasConflict;
    forall w | w in q.t.observations
      ensures var row := q.t.observations[w];
              var k := SourceKey(row.org, row.connector, w.external);
              && k in q.t.sources
              && (forall v :: v in StrongRefs(row.org, row.hints) ==>
                                v in q.t.strong && q.t.strong[v] == q.t.sources[k].asset)
    {
      if w != ObservationKey(s.id, o.external) {
        assert w in p.t.observations && q.t.observations[w] == p.t.observations[w];
      }
    }
  }

  lemma ObserveRels(p: Progress, s: Snapshot, o: Observation, x: Touch, q: Progress)
    requires RelBindings(p.t) && RelStatusAgrees(p.t) && Accepted(p, s, o, x, q)
    ensures RelBindings(q.t) && RelStatusAgrees(q.t)
  {
  }

  lemma ObservePreserves(p: Progress, s: Snapshot, o: Observation, q: Progress)
    requires Inv(p.t) && ObserveAsset(p, s, o) == Ok(q)
    ensures Inv(q.t)
  {
    var x := ObserveFacts(p, s, o, q);
    ObserveBindings(p, s, o, x, q);
    ObserveStatus(p, s, o, x, q);
    ObserveClaims(p, s, o, x, q);
    ObserveOneClaim(p, s, o, x, q);
    ObserveEvidence(p, s, o, x, q);
    ObserveRels(p, s, o, x, q);
  }

  lemma ObserveStep(p: Progress, s: Snapshot, o: Observation, q: Progress) returns (x: Touch)
    requires Inv(p.t) && ObserveAsset(p, s, o) == Ok(q)
    ensures TouchAsset(p.t, s, o) == Ok(x) && Accepted(p, s, o, x, q) && Inv(q.t)
  {
    hide ObserveAsset, Accepted;
    x := ObserveFacts(p, s, o, q);
    ObservePreserves(p, s, o, q);
  }

  // ---------- a relationship observation ----------

  /** The external identifiers seen so far are the ones observed in this snapshot, and their
      source identities are bound as recorded, ACTIVE and not absent. */
  ghost predicate Listed(p: Progress, s: Snapshot) {
    && (forall e :: e in p.bound <==> ObservationKey(s.id, e) in p.t.observations)
    && (forall e :: e in p.bound ==> SourceOf(s, e) in p.t.sources
                                     && p.t.sources[SourceOf(s, e)] == SourceRow(p.bound[e], true, 0))
  }

  /** The upsert of a relationship source identity never changes its target. */
  lemma RelTargetStable(p: Progress, s: Snapshot, r: RelationshipObservation, q: Progress)
    requires RelBindings(p.t) && Listed(p, s) && ObserveRelationship(p, s, r) == Ok(q)
    ensures forall k :: k in p.t.relSources ==> k in q.t.relSources
                                                && q.t.relSources[k].relationship == p.t.relSources[k].relationship
  {
  }

  /** The invariants that do not mention relationships. */
  ghost predicate AssetInv(t: Tables) {
    && Bindings(t) && ClaimsScoped(t) && StatusAgrees(t) && OneActiveClaim(t) && ClaimsBacked(t) && EvidenceAgrees(t)
  }

  lemma AssetInvFrame(t: Tables, u: Tables)
    requires AssetInv(t)
    requires u.assets == t.assets && u.sources == t.sources && u.strong == t.strong
    requires u.observations == t.observations && u.claims == t.claims
    ensures AssetInv(u)
  {
  }

  lemma ObserveRelPreserves(p: Progress, s: Snapshot, r: RelationshipObservation, q: Progress)
    requires Inv(p.t) && Listed(p, s) && ObserveRelationship(p, s, r) == Ok(q)
    ensures Inv(q.t)
  {
    hide Bindings, ClaimsScoped, StatusAgrees, OneActiveClaim, ClaimsBacked, EvidenceAgrees, RelBindings,
      RelStatusAgrees, Listed;
    AssetInvFrame(p.t, q.t);
    ObserveRelBindings(p, s, r, q);
    ObserveRelStatus(p, s, r, q);
  }

  lemma ObserveRelBindings(p: Progress, s: Snapshot, r: RelationshipObservation, q: Progress)
    requires RelBindings(p.t) && Listed(p, s) && ObserveRelationship(p, s, r) == Ok(q)
    ensures RelBindings(q.t)
  {
  }

  lemma ObserveRelStatus(p: Progress, s: Snapshot, r: RelationshipObservation, q: Progress)
    requires RelBindings(p.t) && RelStatusAgrees(p.t) && Listed(p, s) && ObserveRelationship(p, s, r) == Ok(q)
    ensures RelStatusAgrees(q.t)
  {
    RelTargetStable(p, s, r, q);
    var id := RelationshipId(s.org, p.bound[r.from], p.bound[r.to], r.relType);
    var key := RelSourceOf(s, r);
    assert key in q.t.relSources && q.t.relSources[key] == RelSourceRow(id, true, 0);
    forall x | x in q.t.relationships && x != id ensures q.t.relationships[x] <==>
                                                         HasActiveRelSource(q.t.relSources, x) {
      assert x in p.t.relationships && q.t.relationships[x] == p.t.relationships[x];
      forall k | k in p.t.relSources && p.t.relSources[k].relationship == x
        ensures q.t.relSources[k] == p.t.relSources[k] {}
      forall k | k in q.t.relSources && q.t.relSources[k].relationship == x
        ensures k in p.t.relSources && q.t.relSources[k] == p.t.relSources[k] {}
    }
  }

  // ---------- absence ----------

  /** Marking absent assets, table by table. */
  ghost predicate Marked(p: Progress, s: Snapshot, sources: map<SourceKey, SourceRow>, expired: set<SourceKey>,
                         q: Progress) {
    var affected := AssetsOf(sources, expired);
    && sources.Keys == p.t.sources.Keys && expired <= sources.Keys
    && (forall k :: k in expired ==> OwnSource(s, k))
    && (forall k :: k in sources ==> sources[k].asset == p.t.sources[k].asset)
    && (forall k :: k in sources ==> (sources[k].active <==> p.t.sources[k].active && k !in expired))
    && q == MarkAssets(p, s, sources, expired)
  }

  lemma MarkFacts(p: Progress, s: Snapshot, threshold: int)
    returns (sources: map<SourceKey, SourceRow>, expired: set<SourceKey>)
    ensures Marked(p, s, sources, expired, MarkMissingAssets(p, s, threshold))
    ensures forall k :: k in expired ==> p.t.sources[k].active
    ensures forall k :: k in expired && ObservationKey(s.id, k.external) in p.t.observations ==>
                          p.t.sources[k].absences >= threshold
    ensures sources == Expire(CountAbsences(p.t, s), expired) && expired == Expired(CountAbsences(p.t, s), s, threshold)
  {
    var counted := CountAbsences(p.t, s);
    expired := Expired(counted, s, threshold);
    sources := Expire(counted, expired);
  }

  lemma MarkSourceFrame(p: Progress, s: Snapshot, sources: map<SourceKey, SourceRow>, expired: set<SourceKey>,
                        q: Progress, a: AssetId)
    requires Marked(p, s, sources, expired, q) && a !in AssetsOf(sources, expired)
    ensures HasActiveSource(q.t.sources, a) == HasActiveSource(p.t.sources, a)
  {
    forall k | k in sources && sources[k].asset == a ensures sources[k].active == p.t.sources[k].active {}
  }

  lemma MarkConflictFrame(p: Progress, s: Snapshot, sources: map<SourceKey, SourceRow>, expired: set<SourceKey>,
                          q: Progress, a: AssetId)
    requires Marked(p, s, sources, expired, q) && a !in AssetsOf(sources, expired)
    ensures HasConflict(q.t.claims, a.org, a) == HasConflict(p.t.claims, a.org, a)
  {
    hide HasActiveSource, HasActiveSourceOf;
    assert q.t.claims.Keys == p.t.claims.Keys;
    forall id | id in p.t.claims && p.t.claims[id].asset == a ensures q.t.claims[id] == p.t.claims[id] {}
  }

  lemma MarkStatus(p: Progress, s: Snapshot, sources: map<SourceKey, SourceRow>, expired: set<SourceKey>, q: Progress)
    requires Bindings(p.t) && StatusAgrees(p.t) && Marked(p, s, sources, expired, q)
    ensures StatusAgrees(q.t)
  {
    forall a | a in q.t.assets ensures q.t.assets[a].status == SettledStatus(q.t.claims, q.t.sources, a.org, a) {
      if a in AssetsOf(sources, expired) {
        assert a.org == s.org;
      } else {
        MarkSourceFrame(p, s, sources, expired, q, a);
        MarkConflictFrame(p, s, sources, expired, q, a);
      }
    }
  }

  /** Marking alters no claim row except its active flag, which it may only clear. */
  lemma MarkClaimFrame(p: Progress, s: Snapshot, sources: map<SourceKey, SourceRow>, expired: set<SourceKey>,
                       q: Progress)
    requires Marked(p, s, sources, expired, q)
    ensures q.t.claims.Keys == p.t.claims.Keys
    ensures forall id :: id in p.t.claims ==> q.t.claims[id] == p.t.claims[id].(active := q.t.claims[id].active)
    ensures forall id :: id in p.t.claims && q.t.claims[id].active ==> p.t.claims[id].active
  {
  }

  lemma MarkBacked(p: Progress, s: Snapshot, sources: map<SourceKey, SourceRow>, expired: set<SourceKey>, q: Progress,
                   id: ClaimId)
    requires ClaimsBacked(p.t) && Marked(p, s, sources, expired, q) && id in p.t.claims && q.t.claims[id].active
    ensures HasActiveSourceOf(sources, q.t.claims[id].org, q.t.claims[id].connector, q.t.claims[id].asset)
  {
    MarkClaimFrame(p, s, sources, expired, q);
    var c := p.t.claims[id];
    var k :| k in p.t.sources && p.t.sources[k].asset == c.asset && p.t.sources[k].active && k.org == c.org
             && k.connector == c.connector;
    if k in expired {
      assert c.asset in AssetsOf(sources, expired);
    } else {
      assert sources[k].active;
    }
  }

  lemma MarkClaims(p: Progress, s: Snapshot, sources: map<SourceKey, SourceRow>, expired: set<SourceKey>, q: Progress)
    requires ClaimsScoped(p.t) && ClaimsBacked(p.t) && OneActiveClaim(p.t) && Marked(p, s, sources, expired, q)
    ensures ClaimsScoped(q.t) && ClaimsBacked(q.t) && OneActiveClaim(q.t)
  {
    MarkClaimFrame(p, s, sources, expired, q);
    assert q.t.assets.Keys == p.t.assets.Keys;
    forall id | id in q.t.claims && q.t.claims[id].active
      ensures HasActiveSourceOf(q.t.sources, q.t.claims[id].org, q.t.claims[id].connector, q.t.claims[id].asset)
    {
      MarkBacked(p, s, sources, expired, q, id);
    }
  }

  lemma MarkPreserves(p: Progress, s: Snapshot, threshold: int)
    requires Inv(p.t)
    ensures Inv(MarkMissingAssets(p, s, threshold).t)
  {
    var sources, expired := MarkFacts(p, s, threshold);
    var q := MarkMissingAssets(p, s, threshold);
    MarkStatus(p, s, sources, expired, q);
    MarkClaims(p, s, sources, expired, q);
  }

  lemma MarkRelsPreserves(p: Progress, s: Snapshot, threshold: int)
    requires Inv(p.t)
    ensures Inv(MarkRemovedRelationships(p, s, threshold).t)
  {
    hide Bindings, ClaimsScoped, StatusAgrees, OneActiveClaim, ClaimsBacked, EvidenceAgrees, HasActiveRelSource,
      RemovedRels;
    var q := MarkRemovedRelationships(p, s, threshold);
    AssetInvFrame(p.t, q.t);
    forall r | r in q.t.relationships ensures q.t.relationships[r] <==> HasActiveRelSource(q.t.relSources, r) {
      MarkRelStatus(p, s, threshold, r);
    }
  }

  lemma MarkRelStatus(p: Progress, s: Snapshot, threshold: int, r: RelationshipId)
    requires RelBindings(p.t) && RelStatusAgrees(p.t) && r in p.t.relationships
    ensures var q := MarkRemovedRelationships(p, s, threshold);
            q.t.relationships[r] <==> HasActiveRelSource(q.t.relSources, r)
  {
    var q := MarkRemovedRelationships(p, s, threshold);
    var expired := ExpiredRels(CountRelAbsences(p.t, s), s, threshold);
    if p.t.relationships[r] {
      var k :| k in p.t.relSources && p.t.relSources[k].relationship == r && p.t.relSources[k].active;
      assert q.t.relSources[k].relationship == r;
      if k in expired {
        assert r.org == s.org;
      } else {
        assert q.t.relSources[k].active;
      }
    }
  }
}
