/** The reconciliation statements as methods that update the tables in place, proved against
    the functions of module Reconcile. Loops over Go maps and over returned rows pick their
    elements in an arbitrary order. */
module ReconcileStore {
  import opened Domain
  import opened Tables
  import opened Reconcile
  import opened ReconcileRuns
  import ReconcileSummary

  // ---------- order independence of the row loops ----------

  lemma Disagree(hits: set<AssetId>, a: AssetId, b: AssetId)
    requires a in hits && b in hits && a != b
    ensures !Agree(hits)
  {
  }

  lemma AgreeOne(hits: set<AssetId>, found: Option<AssetId>)
    requires hits == (if found.Some? then {found.value} else {})
    ensures Agree(hits)
  {
  }

  lemma HitsStep(strong: map<StrongKey, AssetId>, done: set<StrongKey>, v: StrongKey)
    ensures Hits(strong, done + {v}) == Hits(strong, done) + (if v in strong then {strong[v]} else {})
  {
  }

  lemma NoHits(strong: map<StrongKey, AssetId>)
    ensures Hits(strong, {}) == {}
  {
  }

  lemma HitsMonotone(strong: map<StrongKey, AssetId>, some: set<StrongKey>, all: set<StrongKey>)
    requires some <= all
    ensures Hits(strong, some) <= Hits(strong, all)
  {
  }

  lemma BindStrongStep(strong: map<StrongKey, AssetId>, done: set<StrongKey>, v: StrongKey, a: AssetId)
    ensures var sofar := BindStrong(strong, done, a);
            BindStrong(strong, done + {v}, a) == if v in sofar then sofar else sofar[v := a]
  {
  }

  /** Every identifier of `done` ends up bound to `a`. */
  ghost predicate BoundSoFar(strong: map<StrongKey, AssetId>, done: set<StrongKey>, a: AssetId) {
    forall v :: v in done ==> BindStrong(strong, done, a)[v] == a
  }

  lemma BindNone(strong: map<StrongKey, AssetId>, a: AssetId)
    ensures BindStrong(strong, {}, a) == strong && BoundSoFar(strong, {}, a)
  {
  }

  lemma BoundStep(strong: map<StrongKey, AssetId>, done: set<StrongKey>, v: StrongKey, a: AssetId)
    requires BoundSoFar(strong, done, a) && BindStrong(strong, done + {v}, a)[v] == a
    ensures BoundSoFar(strong, done + {v}, a)
  {
  }

  lemma BindRefused(strong: map<StrongKey, AssetId>, done: set<StrongKey>, refs: set<StrongKey>, v: StrongKey,
                    a: AssetId)
    requires v in done && done <= refs && BindStrong(strong, done, a)[v] != a
    ensures exists w :: w in refs && BindStrong(strong, refs, a)[w] != a
  {
    BindKeeps(strong, done, refs, v, a);
  }

  lemma BindAccepted(strong: map<StrongKey, AssetId>, refs: set<StrongKey>, a: AssetId)
    requires BoundSoFar(strong, refs, a)
    ensures !exists v :: v in refs && BindStrong(strong, refs, a)[v] != a
  {
  }

  lemma BindKeeps(strong: map<StrongKey, AssetId>, some: set<StrongKey>, all: set<StrongKey>, v: StrongKey, a: AssetId)
    requires some <= all && v in some
    ensures BindStrong(strong, all, a)[v] == BindStrong(strong, some, a)[v]
  {
  }

  lemma RecordClaimsStep(claims: map<ClaimId, ClaimRow>, s: Snapshot, o: Observation, a: AssetId, done: set<string>,
                         key: string)
    requires done <= o.attributes.Keys && key in o.attributes && key !in done
    requires ClaimId(s.id, o.external, key) !in claims
    ensures RecordClaims(claims, s, o, a, done + {key})
         == Deactivate(RecordClaims(claims, s, o, a, done), s, a,
                       key)[ClaimId(s.id, o.external, key) := ClaimOf(s, o, a, key)]
  {
    var id := ClaimId(s.id, o.external, key);
    assert NewClaimIds(s, o, done + {key}) == NewClaimIds(s, o, done) + {id};
  }

  lemma RecordNone(claims: map<ClaimId, ClaimRow>, s: Snapshot, o: Observation, a: AssetId)
    ensures RecordClaims(claims, s, o, a, {}) == claims
  {
  }

  lemma RecordedIds(claims: map<ClaimId, ClaimRow>, s: Snapshot, o: Observation, a: AssetId, done: set<string>,
                    key: string)
    requires done <= o.attributes.Keys
    ensures Deactivate(RecordClaims(claims, s, o, a, done), s, a, key).Keys == claims.Keys + NewClaimIds(s, o, done)
  {
    hide Superseded;
  }

  /** The statement that supersedes the connector's active claim on one attribute. */
  function Deactivate(claims: map<ClaimId, ClaimRow>, s: Snapshot, a: AssetId, key: string): map<ClaimId, ClaimRow> {
    map id | id in claims :: if Superseded(claims[id], s, a, {key}) then claims[id].(active := false) else claims[id]
  }

  lemma RetractStep(claims: map<ClaimId, ClaimRow>, sources: map<SourceKey, SourceRow>, s: Snapshot,
                    affected: set<AssetId>, a: AssetId)
    ensures RetractClaims(RetractClaims(claims, sources, s, affected), sources, s, {a})
         == RetractClaims(claims, sources, s, affected + {a})
  {
    hide HasActiveSourceOf;
  }

  lemma RetractFrame(claims: map<ClaimId, ClaimRow>, sources: map<SourceKey, SourceRow>, s: Snapshot, a: AssetId,
                     b: AssetId)
    requires a != b
    ensures HasConflict(RetractClaims(claims, sources, s, {a}), s.org, b) == HasConflict(claims, s.org, b)
  {
    hide HasActiveSourceOf;
    var after := RetractClaims(claims, sources, s, {a});
    assert after.Keys == claims.Keys;
    forall id | id in claims && claims[id].asset == b ensures after[id] == claims[id] {}
  }

  /** Settling one more asset after its claims were retracted. */
  lemma SettleStep(assets: map<AssetId, AssetRow>, claims: map<ClaimId, ClaimRow>, sources: map<SourceKey, SourceRow>,
                   s: Snapshot, affected: set<AssetId>, a: AssetId)
    ensures var after := RetractClaims(claims, sources, s, {a});
            SettleAssets(assets, after, sources, s, affected + {a})
            == SetStatus(SettleAssets(assets, claims, sources, s, affected), s.org, a,
                         SettledStatus(after, sources, s.org, a))
  {
    hide HasActiveSourceOf, HasActiveSource, HasConflict, RetractClaims;
    forall b: AssetId | b != a ensures HasConflict(RetractClaims(claims, sources, s, {a}), s.org, b)
                                    == HasConflict(claims, s.org, b) {
      RetractFrame(claims, sources, s, a, b);
    }
  }

  lemma AssetsOfStep(sources: map<SourceKey, SourceRow>, done: set<SourceKey>, k: SourceKey)
    requires k in sources
    ensures AssetsOf(sources, done + {k}) == AssetsOf(sources, done) + {sources[k].asset}
  {
  }

  predicate IsGone(t: Tables, s: Snapshot, sources: map<SourceKey, SourceRow>, a: AssetId) {
    a in t.assets && a.org == s.org && !HasActiveSource(sources, a)
  }

  lemma GoneStep(t: Tables, s: Snapshot, sources: map<SourceKey, SourceRow>, done: set<SourceKey>, k: SourceKey)
    requires k in sources && k !in done
    ensures Gone(t, s, sources, done + {k}) == Gone(t, s, sources, done)
                                               + (if IsGone(t, s, sources, sources[k].asset) then {k} else {})
    ensures |Gone(t, s, sources, done + {k})| == |Gone(t, s, sources, done)|
                                                 + Bit(IsGone(t, s, sources, sources[k].asset))
  {
    hide HasActiveSource;
    assert Gone(t, s, sources, done + {k}) == Gone(t, s, sources, done)
                                              + (if IsGone(t, s, sources, sources[k].asset) then {k} else {});
  }

  lemma MissingChangesStep(s: Snapshot, gone: set<AssetId>, a: AssetId)
    ensures MissingChanges(s, gone + {a}) == MissingChanges(s, gone) + {ChangeOf(s, a, AssetMissing)}
  {
  }

  lemma SetTwice(assets: map<AssetId, AssetRow>, org: string, a: AssetId, first: AssetStatus, second: AssetStatus)
    ensures SetStatus(assets, org, a, first).Keys == assets.Keys
    ensures a in assets && a.org == org ==> SetStatus(assets, org, a, first)[a].status == first
    ensures !(a in assets && a.org == org) ==> SetStatus(assets, org, a, first) == assets
                                            == SetStatus(assets, org, a, second)
    ensures SetStatus(SetStatus(assets, org, a, first), org, a, second) == SetStatus(assets, org, a, second)
  {
  }

  /** Processing one more expired identity. */
  function MarkOne(p: Progress, s: Snapshot, sources: map<SourceKey, SourceRow>, a: AssetId): Progress {
    var claims := RetractClaims(p.t.claims, sources, s, {a});
    var gone := IsGone(p.t, s, sources, a);
    p.(t := p.t.(claims := claims,
    assets := SetStatus(p.t.assets, s.org, a, SettledStatus(claims, sources, s.org, a)),
    changes := p.t.changes + (if gone then {ChangeOf(s, a, AssetMissing)} else {})),
    sum := p.sum.(missing := p.sum.missing + Bit(gone), changes := p.sum.changes + Bit(gone)))
  }

  lemma MarkStep(p: Progress, s: Snapshot, sources: map<SourceKey, SourceRow>, done: set<SourceKey>, k: SourceKey)
    requires k in sources && k !in done
    ensures MarkAssets(p, s, sources, done + {k})
         == MarkOne(MarkAssets(p, s, sources, done), s, sources, sources[k].asset)
  {
    hide HasActiveSource, HasConflict, HasActiveSourceOf, RetractClaims, SettleAssets, Gone, AssetsOf, MissingChanges,
      SettledStatus;
    var a := sources[k].asset;
    var affected := AssetsOf(sources, done);
    var q := MarkAssets(p, s, sources, done);
    AssetsOfStep(sources, done, k);
    RetractStep(p.t.claims, sources, s, affected, a);
    SettleStep(p.t.assets, q.t.claims, sources, s, affected, a);
    GoneStep(p.t, s, sources, done, k);
    SettleKeys(p.t.assets, q.t.claims, sources, s, affected);
    var gone := Gone(p.t, s, sources, done);
    if IsGone(p.t, s, sources, a) {
      GoneWithin(p.t, s, sources, done);
      AssetsOfStep(sources, gone, k);
      MissingChangesStep(s, AssetsOf(sources, gone), a);
    }
  }

  lemma SettleKeys(assets: map<AssetId, AssetRow>, claims: map<ClaimId, ClaimRow>, sources: map<SourceKey, SourceRow>,
                   s: Snapshot, affected: set<AssetId>)
    ensures SettleAssets(assets, claims, sources, s, affected).Keys == assets.Keys
  {
  }

  lemma GoneWithin(t: Tables, s: Snapshot, sources: map<SourceKey, SourceRow>, done: set<SourceKey>)
    ensures Gone(t, s, sources, done) <= done
  {
  }

  lemma RemovedStep(t: Tables, s: Snapshot, relSources: map<RelSourceKey, RelSourceRow>, done: set<RelSourceKey>,
                    q: RelSourceKey)
    requires q in relSources
    ensures RemovedRels(t, s, relSources, done + {q})
         == RemovedRels(t, s, relSources, done)
            + (if Removes(t, s, relSources, relSources[q].relationship) then {relSources[q].relationship} else {})
  {
    hide HasActiveRelSource;
  }

  predicate Removes(t: Tables, s: Snapshot, relSources: map<RelSourceKey, RelSourceRow>, r: RelationshipId) {
    r in t.relationships && r.org == s.org && t.relationships[r] && !HasActiveRelSource(relSources, r)
  }

  /** Processing one more expired relationship identity that points to `r`. */
  function RemoveOne(p: Progress, s: Snapshot, relSources: map<RelSourceKey, RelSourceRow>, r: RelationshipId)
    : Progress {
    if Removes(p.t, s, relSources, r)
    then p.(t := p.t.(relationships := p.t.relationships[r := false]),
            sum := p.sum.(relationshipsRemoved := p.sum.relationshipsRemoved + 1))
    else p
  }

  lemma WithoutStep(relationships: map<RelationshipId, bool>, removed: set<RelationshipId>, r: RelationshipId)
    ensures var kept := WithoutRels(relationships, removed);
            && kept.Keys == relationships.Keys
            && (r in relationships ==> (kept[r] <==> relationships[r] && r !in removed))
            && (r in relationships ==> WithoutRels(relationships, removed + {r}) == kept[r := false])
    ensures r in removed ==> removed + {r} == removed
  {
  }

  lemma RemoveStep(p: Progress, s: Snapshot, relSources: map<RelSourceKey, RelSourceRow>, done: set<RelSourceKey>,
                   q: RelSourceKey)
    requires q in relSources
    ensures MarkRelationships(p, s, relSources, done + {q})
         == RemoveOne(MarkRelationships(p, s, relSources, done), s, relSources, relSources[q].relationship)
  {
    hide HasActiveRelSource, RemovedRels, WithoutRels;
    var r := relSources[q].relationship;
    var removed := RemovedRels(p.t, s, relSources, done);
    RemovedStep(p.t, s, relSources, done, q);
    WithoutStep(p.t.relationships, removed, r);
    assert removed + {} == removed;
  }

  // ---------- the statements ----------

  class Store {
    var assets: map<AssetId, AssetRow>
    var sources: map<SourceKey, SourceRow>
    var strong: map<StrongKey, AssetId>
    var observations: map<ObservationKey, ObservationRow>
    var claims: map<ClaimId, ClaimRow>
    var relationships: map<RelationshipId, bool>
    var relSources: map<RelSourceKey, RelSourceRow>
    var relObservations: set<RelObservationKey>
    var changes: set<Change>
    var runs: map<string, Summary>

    constructor ()
      ensures View() == EMPTY
    {
      assets, sources, strong, observations, claims := map[], map[], map[], map[], map[];
      relationships, relSources, relObservations, changes, runs := map[], map[], {}, {}, map[];
    }

    function View(): Tables
      reads this
    {
      Tables(assets, sources, strong, observations, claims, relationships, relSources, relObservations, changes, runs)
    }

    /** Looks the strong identifiers up one by one, stopping when two of them disagree. */
    method LookupStrong(refs: set<StrongKey>) returns (found: Option<AssetId>, conflict: bool)
      ensures conflict <==> !Agree(Hits(strong, refs))
      ensures !conflict ==> Hits(strong, refs) == (if found.Some? then {found.value} else {})
    {
      hide Hits, Agree;
      var todo := refs;
      ghost var done: set<StrongKey> := {};
      found, conflict := None, false;
      NoHits(strong);
      while todo != {}
        invariant done + todo == refs
        invariant Hits(strong, done) == (if found.Some? then {found.value} else {})
        decreases |todo|
      {
        var v :| v in todo;
        HitsStep(strong, done, v);
        done, todo := done + {v}, todo - {v};
        if v in strong {
          if found.Some? && found.value != strong[v] {
            HitsMonotone(strong, done, refs);
            Disagree(Hits(strong, refs), strong[v], found.value);
            return found, true;
          }
          found := Some(strong[v]);
        }
      }
      assert done == refs;
      AgreeOne(Hits(strong, refs), found);
    }

    /** Finds or creates the asset of an observation. */
    method TouchAsset(s: Snapshot, o: Observation) returns (r: Outcome<Touch>)
      modifies this`assets
      ensures r.Ok? <==> Reconcile.TouchAsset(old(View()), s, o).Ok?
      ensures r.Ok? ==> Reconcile.TouchAsset(old(View()), s, o) == Ok(r.value) && assets == r.value.assets
    {
      var key := SourceOf(s, o.external);
      if key in sources {
        var a := sources[key].asset;
        if a !in assets || a.org != s.org {
          return Err(NoAssetRow);
        }
        var prior := assets[a].status;
        assets := SetStatus(assets, s.org, a, Active);
        return Ok(Touch(a, false, prior in {Missing, Stale}, assets));
      }
      var found, conflict := LookupStrong(StrongRefs(s.org, o.hints));
      if conflict {
        return Err(ConflictingAssets);
      }
      if found.Some? {
        assets := SetStatus(assets, s.org, found.value, Active);
        return Ok(Touch(found.value, false, false, assets));
      }
      var a := AssetId(s.org, s.connector, o.external);
      if a in assets {
        return Err(DuplicateRow);
      }
      assets := assets[a := AssetRow(o.assetType, Active)];
      return Ok(Touch(a, true, false, assets));
    }

    /** Binds the strong identifiers one by one, stopping at one bound to another asset. */
    method BindStrongIdentifiers(refs: set<StrongKey>, a: AssetId) returns (ok: bool)
      modifies this`strong
      ensures ok <==> !exists v :: v in refs && BindStrong(old(strong), refs, a)[v] != a
      ensures ok ==> strong == BindStrong(old(strong), refs, a)
    {
      hide BindStrong, BoundSoFar;
      ghost var before := strong;
      var todo := refs;
      ghost var done: set<StrongKey> := {};
      BindNone(strong, a);
      while todo != {}
        invariant done + todo == refs
        invariant strong == BindStrong(before, done, a) && BoundSoFar(before, done, a)
        decreases |todo|
      {
        var v :| v in todo;
        BindStrongStep(before, done, v, a);
        ghost var bound := done;
        done, todo := done + {v}, todo - {v};
        if v !in strong {
          strong := strong[v := a];
        }
        if strong[v] != a {
          BindRefused(before, done, refs, v, a);
          return false;
        }
        BoundStep(before, bound, v, a);
      }
      assert done == refs;
      BindAccepted(before, refs, a);
      return true;
    }

    /** Records the attributes one by one: each supersedes the connector's earlier claim. */
    method RecordAttributes(s: Snapshot, o: Observation, a: AssetId) returns (ok: bool)
      modifies this`claims
      ensures ok <==> !LongKey(o) && !exists id :: id in NewClaimIds(s, o, o.attributes.Keys) && id in old(claims)
      ensures ok ==> claims == RecordClaims(old(claims), s, o, a, o.attributes.Keys)
    {
      hide RecordClaims, Deactivate;
      var todo := o.attributes.Keys;
      RecordNone(claims, s, o, a);
      assert o.attributes.Keys - todo == {};
      while todo != {}
        invariant todo <= o.attributes.Keys
        invariant claims == RecordClaims(old(claims), s, o, a, o.attributes.Keys - todo)
        invariant forall k :: k in o.attributes.Keys - todo ==>
                                |k| <= 200 && ClaimId(s.id, o.external, k) !in old(claims)
        decreases |todo|
      {
        var key :| key in todo;
        if |key| > 200 {
          return false;
        }
        var id := ClaimId(s.id, o.external, key);
        RecordedIds(old(claims), s, o, a, o.attributes.Keys - todo, key);
        var updated := Deactivate(claims, s, a, key);
        if id in updated {
          assert id !in NewClaimIds(s, o, o.attributes.Keys - todo);
          assert id in NewClaimIds(s, o, o.attributes.Keys) && id in old(claims);
          return false;
        }
        RecordClaimsStep(old(claims), s, o, a, o.attributes.Keys - todo, key);
        assert o.attributes.Keys - todo + {key} == o.attributes.Keys - (todo - {key});
        claims := updated[id := ClaimOf(s, o, a, key)];
        todo := todo - {key};
      }
      assert o.attributes.Keys - todo == o.attributes.Keys;
      return true;
    }

    /** Stores CONFLICTING or ACTIVE, whatever the status was. */
    method UpdateEffectiveAsset(org: string, a: AssetId) returns (conflict: bool)
      modifies this`assets
      ensures conflict <==> HasConflict(claims, org, a)
      ensures assets == SetStatus(old(assets), org, a, EffectiveStatus(claims, org, a))
    {
      conflict := HasConflict(claims, org, a);
      assets := SetStatus(assets, org, a, if conflict then Conflicting else Active);
    }

    /** Binds the identities of a touched asset and records the observation row and its claims. */
    method RecordEvidence(s: Snapshot, o: Observation, a: AssetId) returns (ok: bool)
      modifies this`sources, this`strong, this`observations, this`claims
      ensures ok <==> Recordable(old(View()), s, o, a)
      ensures ok ==> && sources == BindSource(old(sources), SourceOf(s, o.external), a)
                     && strong == BindStrong(old(strong), StrongRefs(s.org, o.hints), a)
                     && observations
                        == old(observations)[ObservationKey(s.id, o.external) :=
                           ObservationRow(s.org, s.connector, o.hints)]
                     && claims == RecordClaims(old(claims), s, o, a, o.attributes.Keys)
    {
      hide RecordClaims, BindStrong, StrongRefs, LongKey, NewClaimIds, BindSource;
      sources := BindSource(sources, SourceOf(s, o.external), a);
      ok := BindStrongIdentifiers(StrongRefs(s.org, o.hints), a);
      if !ok { return; }
      var row := ObservationKey(s.id, o.external);
      if row in observations { return false; }
      observations := observations[row := ObservationRow(s.org, s.connector, o.hints)];
      ok := RecordAttributes(s, o, a);
    }

    /** Records an observation of a touched asset, stores the asset's status and notes the changes. */
    method Record(s: Snapshot, o: Observation, x: Touch, ghost bound: map<string, AssetId>, sum: Summary)
      returns (r: Outcome<Summary>)
      requires assets == x.assets && !(x.created && x.returned)
      modifies this`assets, this`sources, this`strong, this`observations, this`claims, this`changes
      ensures r.Ok? <==> RecordObservation(Progress(old(View()), bound, sum), s, o, x).Ok?
      ensures r.Ok? ==>
                RecordObservation(Progress(old(View()), bound, sum), s, o, x)
                == Ok(Progress(View(), bound[o.external := x.asset], r.value))
    {
      hide HasConflict, RecordClaims, BindStrong, StrongRefs, BindSource, RecordObservation, Recordable, SetStatus,
        EffectiveStatus;
      ghost var p := Progress(View(), bound, sum);
      RecordCases(p, s, o, x);
      var recorded := changes + (if x.returned then {ChangeOf(s, x.asset, AssetReturned)} else {});
      var ok := RecordEvidence(s, o, x.asset);
      if !ok { return Err(StrongConflict); }
      var conflict := UpdateEffectiveAsset(s.org, x.asset);
      recorded := recorded + (if conflict then {ChangeOf(s, x.asset, SourceConflict)} else {});
      changes := recorded + (if x.created then {ChangeOf(s, x.asset, AssetDiscovered)} else {});
      r := Ok(sum.(created := sum.created + Bit(x.created), updated := sum.updated + Bit(x.returned),
              kept := sum.kept + Bit(!x.created && !x.returned), conflicting := sum.conflicting + Bit(conflict),
              changes := sum.changes + Bit(x.returned) + Bit(conflict) + Bit(x.created)));
    }

    /** One iteration of the observation loop. */
    method Observe(s: Snapshot, o: Observation, bound: map<string, AssetId>, sum: Summary)
      returns (r: Outcome<(AssetId, Summary)>)
      modifies this`assets, this`sources, this`strong, this`observations, this`claims, this`changes
      ensures r.Ok? <==> ObserveAsset(Progress(old(View()), bound, sum), s, o).Ok?
      ensures r.Ok? ==>
                ObserveAsset(Progress(old(View()), bound, sum), s, o)
                == Ok(Progress(View(), bound[o.external := r.value.0], r.value.1))
    {
      hide Reconcile.TouchAsset, RecordObservation;
      if !WellFormed(o) { return Err(BadExternalId); }
      if o.assetType !in ASSET_TYPES { return Err(UnknownAssetType); }
      if o.external in bound { return Err(DuplicateExternalId); }
      ghost var p := Progress(View(), bound, sum);
      var x :- TouchAsset(s, o);
      ReconcileSummary.TouchOutcome(p.t, s, o, x);
      RecordFrame(p, x.assets, s, o, x);
      var tally :- Record(s, o, x, bound, sum);
      r := Ok((x.asset, tally));
    }

    /** One iteration of the relationship loop. */
    method Relate(s: Snapshot, o: RelationshipObservation, bound: map<string, AssetId>, sum: Summary)
      returns (r: Outcome<Summary>)
      modifies this`relationships, this`relSources, this`relObservations, this`changes
      ensures r.Ok? <==> ObserveRelationship(Progress(old(View()), bound, sum), s, o).Ok?
      ensures r.Ok? ==>
                ObserveRelationship(Progress(old(View()), bound, sum), s, o)
                == Ok(Progress(View(), bound, r.value))
    {
      if o.from !in bound || o.to !in bound || o.relType == "" || |o.relType| > 160 {
        return Err(BadRelationship);
      }
      var id := RelationshipId(s.org, bound[o.from], bound[o.to], o.relType);
      var tally := sum;
      var existing := id in relationships;
      relationships := relationships[id := true];
      if !existing {
        changes := changes + {ChangeOf(s, id.from, RelationshipAdded)};
        tally := tally.(relationshipsCreated := tally.relationshipsCreated + 1, changes := tally.changes + 1);
      }
      relSources := relSources[RelSourceOf(s, o) := RelSourceRow(id, true, 0)];
      var row := RelObservationKey(s.id, o.from, o.to, o.relType);
      if row in relObservations { return Err(DuplicateRow); }
      relObservations := relObservations + {row};
      assert old(changes) + {} == old(changes);
      r := Ok(tally);
    }

    /** Expires the connector's absent source identities, then processes them one by one. */
    method MarkMissingAssets(s: Snapshot, threshold: int, ghost bound: map<string, AssetId>, sum: Summary)
      returns (tally: Summary)
      modifies this`assets, this`sources, this`claims, this`changes
      ensures Progress(View(), bound, tally)
           == Reconcile.MarkMissingAssets(Progress(old(View()), bound, sum), s, threshold)
    {
      hide CountAbsences, Expire, MarkAssets, RetractClaims, HasActiveSource, HasConflict;
      ghost var p := Progress(View(), bound, sum);
      sources := CountAbsences(View(), s);
      var expired := Expired(sources, s, threshold);
      sources := Expire(sources, expired);
      ExpiredKnown(CountAbsences(p.t, s), s, threshold);
      tally := MarkExpired(s, expired, bound, sum);
      MarkFrame(p, s, sources, expired);
    }

    /** Processes expired identities one by one. */
    method MarkExpired(s: Snapshot, expired: set<SourceKey>, ghost bound: map<string, AssetId>, sum: Summary)
      returns (tally: Summary)
      requires expired <= sources.Keys
      modifies this`assets, this`claims, this`changes
      ensures Progress(View(), bound, tally) == MarkAssets(Progress(old(View()), bound, sum), s, sources, expired)
    {
      hide MarkAssets, MarkOne;
      ghost var p := Progress(View(), bound, sum);
      var todo := expired;
      ghost var done: set<SourceKey> := {};
      tally := sum;
      MarkNone(p, s, sources);
      while todo != {}
        invariant done + todo == expired && done !! todo
        invariant Progress(View(), bound, tally) == MarkAssets(p, s, sources, done)
        decreases |todo|
      {
        var k :| k in todo;
        MarkStep(p, s, sources, done, k);
        done, todo := done + {k}, todo - {k};
        tally := MarkExpiredOne(s, sources[k].asset, bound, tally);
      }
      assert done == expired;
    }

    /** Retracts the connector's claims on the asset of an expired identity and settles its status. */
    method MarkExpiredOne(s: Snapshot, a: AssetId, ghost bound: map<string, AssetId>, sum: Summary)
      returns (tally: Summary)
      modifies this`assets, this`claims, this`changes
      ensures Progress(View(), bound, tally) == MarkOne(Progress(old(View()), bound, sum), s, sources, a)
    {
      hide RetractClaims, HasActiveSource, HasConflict, SetStatus;
      SetTwice(assets, s.org, a, EffectiveStatus(RetractClaims(claims, sources, s, {a}), s.org, a), Missing);
      claims := RetractClaims(claims, sources, s, {a});
      var _ := UpdateEffectiveAsset(s.org, a);
      tally := MarkMissingRow(s, a, sum);
    }

    /** Marks the asset MISSING if no ACTIVE source identity is left, and records the change. */
    method MarkMissingRow(s: Snapshot, a: AssetId, sum: Summary) returns (tally: Summary)
      modifies this`assets, this`changes
      ensures var marks := a in old(assets) && a.org == s.org && old(assets)[a].status !in {Missing, Retired}
                           && !HasActiveSource(sources, a);
              && assets == (if marks then SetStatus(old(assets), s.org, a, Missing) else old(assets))
              && changes == old(changes) + (if marks then {ChangeOf(s, a, AssetMissing)} else {})
              && tally == sum.(missing := sum.missing + Bit(marks), changes := sum.changes + Bit(marks))
    {
      hide HasActiveSource, SetStatus;
      tally := sum;
      if a in assets && a.org == s.org && assets[a].status !in {Missing, Retired} && !HasActiveSource(sources, a) {
        assets := SetStatus(assets, s.org, a, Missing);
        changes := changes + {ChangeOf(s, a, AssetMissing)};
        tally := tally.(missing := tally.missing + 1, changes := tally.changes + 1);
      }
    }

    /** Expires the connector's absent relationship identities, then processes them one by one. */
    method MarkRemovedRelationships(s: Snapshot, threshold: int, ghost bound: map<string, AssetId>, sum: Summary)
      returns (tally: Summary)
      modifies this`relationships, this`relSources
      ensures Progress(View(), bound, tally)
           == Reconcile.MarkRemovedRelationships(Progress(old(View()), bound, sum), s, threshold)
    {
      hide CountRelAbsences, ExpireRels, RemovedRels, HasActiveRelSource;
      ghost var p := Progress(View(), bound, sum);
      relSources := CountRelAbsences(View(), s);
      var expired := ExpiredRels(relSources, s, threshold);
      relSources := ExpireRels(relSources, expired);
      ExpiredRelsKnown(CountRelAbsences(p.t, s), s, threshold);
      tally := RemoveExpired(s, expired, bound, sum);
      MarkRelFrame(p, s, relSources, expired);
    }

    /** Processes expired relationship identities one by one. */
    method RemoveExpired(s: Snapshot, expired: set<RelSourceKey>, ghost bound: map<string, AssetId>, sum: Summary)
      returns (tally: Summary)
      requires expired <= relSources.Keys
      modifies this`relationships
      ensures Progress(View(), bound, tally) == MarkRelationships(Progress(old(View()), bound, sum), s, relSources,
                                                                  expired)
    {
      hide MarkRelationships, RemoveOne;
      ghost var p := Progress(View(), bound, sum);
      var todo := expired;
      ghost var done: set<RelSourceKey> := {};
      tally := sum;
      RemoveNone(p, s, relSources);
      while todo != {}
        invariant done + todo == expired && done !! todo
        invariant Progress(View(), bound, tally) == MarkRelationships(p, s, relSources, done)
        decreases |todo|
      {
        var q :| q in todo;
        var r := relSources[q].relationship;
        RemoveStep(p, s, relSources, done, q);
        done, todo := done + {q}, todo - {q};
        tally := RemoveExpiredOne(s, r, bound, tally);
      }
      assert done == expired;
    }

    /** One row of the loop over expired relationship sources. */
    method RemoveExpiredOne(s: Snapshot, r: RelationshipId, ghost bound: map<string, AssetId>, sum: Summary)
      returns (tally: Summary)
      modifies this`relationships
      ensures Progress(View(), bound, tally) == RemoveOne(Progress(old(View()), bound, sum), s, relSources, r)
    {
      hide HasActiveRelSource;
      tally := sum;
      if r in relationships && r.org == s.org && relationships[r] && !HasActiveRelSource(relSources, r) {
        relationships := relationships[r := false];
        tally := tally.(relationshipsRemoved := tally.relationshipsRemoved + 1);
      }
    }

    /** Reconciles a snapshot in the caller's transaction. On an error the caller rolls back. */
    method ApplyPostgres(s: Snapshot, threshold: int) returns (r: Outcome<Summary>)
      modifies this
      ensures r.Ok? <==> Apply(old(View()), s, threshold).Ok?
      ensures r.Ok? ==> View() == Apply(old(View()), s, threshold).value.t
                        && r.value == Apply(old(View()), s, threshold).value.sum
    {
      hide ObserveAsset, ObserveRelationship, Reconcile.MarkMissingAssets, Reconcile.MarkRemovedRelationships;
      if !HasIdentifiers(s) { return Err(MissingIdentifiers); }
      ghost var t := View();
      var sum := ZERO_SUMMARY;
      var bound: map<string, AssetId> := map[];
      for i := 0 to |s.assets|
        invariant ObserveAssets(t, s, i) == Ok(Progress(View(), bound, sum))
      {
        var step := Observe(s, s.assets[i], bound, sum);
        if step.Err? {
          AssetsStop(t, s, i + 1, |s.assets|);
          return Err(step.error);
        }
        bound, sum := bound[s.assets[i].external := step.value.0], step.value.1;
      }
      ghost var p := Progress(View(), bound, sum);
      for i := 0 to |s.relationships|
        invariant ObserveRelationships(p, s, i) == Ok(Progress(View(), bound, sum))
      {
        var step := Relate(s, s.relationships[i], bound, sum);
        if step.Err? {
          RelationshipsStop(p, s, i + 1, |s.relationships|);
          return Err(step.error);
        }
        sum := step.value;
      }
      sum := MarkMissingAssets(s, Threshold(threshold), bound, sum);
      sum := MarkRemovedRelationships(s, Threshold(threshold), bound, sum);
      if s.id in runs { return Err(DuplicateRow); }
      runs := runs[s.id := sum];
      r := Ok(sum);
    }

    /** One attempt in its own transaction: committed as a whole or rolled back as a whole. */
    method Attempt(s: Snapshot, threshold: int) returns (r: Outcome<Summary>)
      modifies this
      ensures View() == Step(old(View()), ReconcileRuns.Attempt(s, threshold))
      ensures r.Ok? <==> Apply(old(View()), s, threshold).Ok?
      ensures r.Ok? ==> r.value == Apply(old(View()), s, threshold).value.sum
    {
      hide Apply;
      var saved := View();
      r := ApplyPostgres(s, threshold);
      if r.Err? {
        assets, sources, strong, observations := saved.assets, saved.sources, saved.strong, saved.observations;
        claims, relationships, relSources := saved.claims, saved.relationships, saved.relSources;
        relObservations, changes, runs := saved.relObservations, saved.changes, saved.runs;
      }
    }
  }

  /** Whether the identities, the observation row and the claims of an observation can be stored. */
  predicate Recordable(t: Tables, s: Snapshot, o: Observation, a: AssetId) {
    var refs := StrongRefs(s.org, o.hints);
    && (!exists v :: v in refs && BindStrong(t.strong, refs, a)[v] != a)
    && ObservationKey(s.id, o.external) !in t.observations
    && !LongKey(o) && (!exists id :: id in NewClaimIds(s, o, o.attributes.Keys) && id in t.claims)
  }

  lemma RecordCases(p: Progress, s: Snapshot, o: Observation, x: Touch)
    ensures RecordObservation(p, s, o, x).Ok? <==> Recordable(p.t, s, o, x.asset)
    ensures RecordObservation(p, s, o, x).Ok? ==>
              RecordObservation(p, s, o, x) == Ok(Observed(p, s, o, x,
                                                           BindStrong(p.t.strong, StrongRefs(s.org, o.hints), x.asset)))
  {
    hide StrongRefs, LongKey, NewClaimIds, RecordClaims, HasConflict, Observed;
  }

  /** Recording an observation does not read the asset table, only what was touched in it. */
  lemma RecordFrame(p: Progress, assets: map<AssetId, AssetRow>, s: Snapshot, o: Observation, x: Touch)
    ensures RecordObservation(p.(t := p.t.(assets := assets)), s, o, x) == RecordObservation(p, s, o, x)
  {
    hide HasConflict, RecordClaims, BindStrong, StrongRefs, LongKey, NewClaimIds;
  }

  lemma MarkFrame(p: Progress, s: Snapshot, sources: map<SourceKey, SourceRow>, done: set<SourceKey>)
    ensures MarkAssets(p.(t := p.t.(sources := sources)), s, sources, done) == MarkAssets(p, s, sources, done)
  {
  }

  lemma NothingAffected(t: Tables, s: Snapshot, sources: map<SourceKey, SourceRow>)
    ensures RetractClaims(t.claims, sources, s, {}) == t.claims
    ensures SettleAssets(t.assets, t.claims, sources, s, {}) == t.assets
  {
    hide HasActiveSourceOf, SettledStatus;
  }

  lemma NothingGone(t: Tables, s: Snapshot, sources: map<SourceKey, SourceRow>)
    ensures AssetsOf(sources, {}) == {} && Gone(t, s, sources, {}) == {} && MissingChanges(s, {}) == {}
  {
    hide HasActiveSource;
  }

  lemma MarkNone(p: Progress, s: Snapshot, sources: map<SourceKey, SourceRow>)
    ensures MarkAssets(p, s, sources, {}) == p.(t := p.t.(sources := sources))
  {
    hide RetractClaims, SettleAssets, Gone, AssetsOf, MissingChanges;
    NothingAffected(p.t, s, sources);
    NothingGone(p.t, s, sources);
    assert p.t.changes + {} == p.t.changes;
  }

  lemma ExpiredKnown(sources: map<SourceKey, SourceRow>, s: Snapshot, threshold: int)
    ensures Expired(sources, s, threshold) <= Expire(sources, Expired(sources, s, threshold)).Keys
  {
  }

  lemma ExpiredRelsKnown(relSources: map<RelSourceKey, RelSourceRow>, s: Snapshot, threshold: int)
    ensures ExpiredRels(relSources, s, threshold) <= ExpireRels(relSources, ExpiredRels(relSources, s, threshold)).Keys
  {
  }

  lemma MarkRelFrame(p: Progress, s: Snapshot, relSources: map<RelSourceKey, RelSourceRow>, done: set<RelSourceKey>)
    ensures MarkRelationships(p.(t := p.t.(relSources := relSources)), s, relSources, done)
         == MarkRelationships(p, s, relSources, done)
  {
  }

  lemma RemoveNone(p: Progress, s: Snapshot, relSources: map<RelSourceKey, RelSourceRow>)
    ensures MarkRelationships(p, s, relSources, {}) == p.(t := p.t.(relSources := relSources))
  {
    assert RemovedRels(p.t, s, relSources, {}) == {};
    assert WithoutRels(p.t.relationships, {}) == p.t.relationships;
  }

  lemma {:induction false} AssetsStop(t: Tables, s: Snapshot, i: nat, n: nat)
    requires i <= n <= |s.assets| && ObserveAssets(t, s, i).Err?
    ensures ObserveAssets(t, s, n).Err?
  {
    hide ObserveAsset;
    if i < n {
      AssetsStop(t, s, i, n - 1);
    }
  }

  lemma {:induction false} RelationshipsStop(p: Progress, s: Snapshot, i: nat, n: nat)
    requires i <= n <= |s.relationships| && ObserveRelationships(p, s, i).Err?
    ensures ObserveRelationships(p, s, n).Err?
  {
    hide ObserveRelationship;
    if i < n {
      RelationshipsStop(p, s, i, n - 1);
    }
  }
}
