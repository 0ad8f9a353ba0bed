/** What a whole accepted snapshot does: the invariants hold again, nothing recorded is lost,
    and source identities change exactly as the snapshot lists them. */
module ReconcileSteps {
  import opened Domain
  import opened Tables
  import opened Reconcile
  import opened ReconcileInvariants

  /** Every row that names a snapshot names a committed one. */
  ghost predicate Sealed(t: Tables) {
    && (forall w :: w in t.observations ==> w.snapshot in t.runs)
    && (forall id :: id in t.claims ==> id.snapshot in t.runs)
    && (forall w :: w in t.relObservations ==> w.snapshot in t.runs)
    && (forall c :: c in t.changes ==> c.snapshot in t.runs)
  }

  /** `u` keeps every row and every binding of `t`; of a claim only the active flag may change. */
  ghost predicate Extends(t: Tables, u: Tables) {
    && t.assets.Keys <= u.assets.Keys
    && (forall k :: k in t.sources ==> k in u.sources && u.sources[k].asset == t.sources[k].asset)
    && (forall v :: v in t.strong ==> v in u.strong && u.strong[v] == t.strong[v])
    && (forall w :: w in t.observations ==> w in u.observations && u.observations[w] == t.observations[w])
    && (forall id :: id in t.claims ==> id in u.claims && u.claims[id] == t.claims[id].(active := u.claims[id].active))
    && t.relationships.Keys <= u.relationships.Keys
    && (forall q :: q in t.relSources ==> q in u.relSources
                                          && u.relSources[q].relationship == t.relSources[q].relationship)
    && t.relObservations <= u.relObservations && t.changes <= u.changes
    && (forall r :: r in t.runs ==> r in u.runs && u.runs[r] == t.runs[r])
  }

  lemma ExtendsTransitive(t: Tables, u: Tables, v: Tables)
    requires Extends(t, u) && Extends(u, v)
    ensures Extends(t, v)
  {
    forall id | id in t.claims ensures id in v.claims && v.claims[id] == t.claims[id].(active := v.claims[id].active) {
      assert id in u.claims;
    }
  }

  /** The external identifiers of the first `n` observations. */
  function Externals(s: Snapshot, n: nat): set<string>
    requires n <= |s.assets|
  {
    set i | 0 <= i < n :: s.assets[i].external
  }

  /** Source identities that the snapshot has not listed are as they were. */
  ghost predicate UnlistedKept(t: Tables, s: Snapshot, p: Progress) {
    forall k :: k in p.t.sources && !(OwnSource(s, k) && k.external in p.bound) ==>
                  k in t.sources && p.t.sources[k] == t.sources[k]
  }

  /** State of the observation loop relative to the tables `t` before the snapshot. */
  ghost predicate Mid(t: Tables, s: Snapshot, n: nat, p: Progress)
    requires n <= |s.assets|
  {
    && Inv(p.t) && Provenance(p.t, s.id) && Listed(p, s) && Extends(t, p.t)
    && p.bound.Keys == Externals(s, n)
    && UnlistedKept(t, s, p)
    && (p.t.relationships, p.t.relSources, p.t.relObservations, p.t.runs)
       == (t.relationships, t.relSources, t.relObservations, t.runs)
  }

  lemma ObserveExtends(p: Progress, s: Snapshot, o: Observation, x: Touch, q: Progress)
    requires Accepted(p, s, o, x, q) && p.t.changes <= q.t.changes
    ensures Extends(p.t, q.t)
  {
    forall id | id in p.t.claims ensures id in q.t.claims
                                         && q.t.claims[id] == p.t.claims[id].(active := q.t.claims[id].active) {
      ClaimFrame(p, s, o, x, q, id);
    }
  }

  lemma ObserveProvenance(p: Progress, s: Snapshot, o: Observation, x: Touch, q: Progress)
    requires Provenance(p.t, s.id) && Accepted(p, s, o, x, q)
    requires forall c :: c in q.t.changes ==> c in p.t.changes || c.snapshot == s.id
    ensures Provenance(q.t, s.id)
  {
    forall id | id in q.t.claims ensures id.snapshot in q.t.runs || id.snapshot == s.id {
      ClaimFrame(p, s, o, x, q, id);
    }
  }

  lemma ObserveListed(t: Tables, p: Progress, s: Snapshot, o: Observation, x: Touch, q: Progress)
    requires Listed(p, s) && UnlistedKept(t, s, p) && Accepted(p, s, o, x, q)
    ensures Listed(q, s) && UnlistedKept(t, s, q) && q.bound == p.bound[o.external := x.asset]
    ensures (q.t.relationships, q.t.relSources, q.t.relObservations, q.t.runs)
         == (p.t.relationships, p.t.relSources, p.t.relObservations, p.t.runs)
  {
  }

  lemma ObserveChanges(p: Progress, s: Snapshot, o: Observation, x: Touch, q: Progress)
    requires q == Observed(p, s, o, x, BindStrong(p.t.strong, StrongRefs(s.org, o.hints), x.asset))
    ensures p.t.changes <= q.t.changes
    ensures forall c :: c in q.t.changes ==> c in p.t.changes || c.snapshot == s.id
  {
  }

  lemma ObserveMid(t: Tables, s: Snapshot, n: nat, p: Progress, q: Progress)
    requires n < |s.assets| && Mid(t, s, n, p) && ObserveAsset(p, s, s.assets[n]) == Ok(q)
    ensures Mid(t, s, n + 1, q)
  {
    hide ObserveAsset, TouchAsset, Observed, Bindings, ClaimsScoped, StatusAgrees, RelBindings, RelStatusAgrees,
      OneActiveClaim, ClaimsBacked, EvidenceAgrees, Extends, Provenance, Listed, UnlistedKept, Accepted, BindStrong;
    var o := s.assets[n];
    var x := ObserveFacts(p, s, o, q);
    ObservePreserves(p, s, o, q);
    ObserveChanges(p, s, o, x, q);
    ObserveExtends(p, s, o, x, q);
    ExtendsTransitive(t, p.t, q.t);
    ObserveProvenance(p, s, o, x, q);
    ObserveListed(t, p, s, o, x, q);
    assert Externals(s, n + 1) == Externals(s, n) + {o.external};
  }

  lemma MidStart(t: Tables, s: Snapshot)
    requires Inv(t) && Sealed(t) && s.id !in t.runs
    ensures Mid(t, s, 0, Progress(t, map[], ZERO_SUMMARY))
  {
    hide Inv;
  }

  lemma {:induction false} ObserveAssetsMid(t: Tables, s: Snapshot, n: nat, p: Progress)
    requires n <= |s.assets| && Inv(t) && Sealed(t) && s.id !in t.runs && ObserveAssets(t, s, n) == Ok(p)
    ensures Mid(t, s, n, p)
  {
    hide Inv, Mid, ObserveAsset;
    if n == 0 {
      MidStart(t, s);
    } else {
      var before := ObserveAssets(t, s, n - 1).value;
      ObserveAssetsMid(t, s, n - 1, before);
      ObserveMid(t, s, n - 1, before, p);
    }
  }

  /** The relationship triples of the first `n` relationship observations. */
  function RelTriples(s: Snapshot, n: nat): set<RelObservationKey>
    requires n <= |s.relationships|
  {
    set i | 0 <= i < n :: RelObservationKey(s.id, s.relationships[i].from, s.relationships[i].to,
                                            s.relationships[i].relType)
  }

  function SourceOfTriple(s: Snapshot, w: RelObservationKey): RelSourceKey {
    RelSourceKey(s.org, s.connector, w.from, w.to, w.relType)
  }

  /** State of the relationship loop relative to the progress `p` before it. */
  ghost predicate RelMid(p: Progress, s: Snapshot, n: nat, q: Progress)
    requires n <= |s.relationships|
  {
    var triples := RelTriples(s, n);
    && Inv(q.t) && Provenance(q.t, s.id) && Listed(q, s) && Extends(p.t, q.t) && q.bound == p.bound
    && q.t == p.t.(relationships := q.t.relationships, relSources := q.t.relSources,
              relObservations := q.t.relObservations, changes := q.t.changes)
    && q.t.relObservations == p.t.relObservations + triples && triples !! p.t.relObservations
    && RelTouched(p, s, triples, q)
  }

  lemma ObserveRelExtends(q: Progress, s: Snapshot, r: RelationshipObservation, q': Progress)
    requires RelBindings(q.t) && Listed(q, s) && ObserveRelationship(q, s, r) == Ok(q')
    ensures Extends(q.t, q'.t)
  {
    RelTargetStable(q, s, r, q');
  }

  lemma ObserveRelProvenance(q: Progress, s: Snapshot, r: RelationshipObservation, q': Progress)
    requires Provenance(q.t, s.id) && Listed(q, s) && ObserveRelationship(q, s, r) == Ok(q')
    ensures Provenance(q'.t, s.id) && Listed(q', s)
  {
  }

  /** The relationships that are new or changed status were observed in this snapshot. */
  ghost predicate RelTouched(p: Progress, s: Snapshot, triples: set<RelObservationKey>, q: Progress) {
    && (forall w :: w in triples ==> SourceOfTriple(s, w) in q.t.relSources
                                     && q.t.relSources[SourceOfTriple(s, w)].active
                                     && q.t.relSources[SourceOfTriple(s, w)].absences == 0)
    && (forall k :: k in q.t.relSources && !(OwnRelSource(s, k)
                                             && RelObservationKey(s.id, k.from, k.to, k.relType) in triples) ==>
                      k in p.t.relSources && q.t.relSources[k] == p.t.relSources[k])
    && (forall r :: r in q.t.relationships && !(r in p.t.relationships
                                                && q.t.relationships[r] == p.t.relationships[r]) ==>
                      exists w :: w in triples && q.t.relSources[SourceOfTriple(s, w)].relationship == r)
  }

  lemma ObserveRelTouched(p: Progress, s: Snapshot, triples: set<RelObservationKey>, q: Progress,
                          r: RelationshipObservation, q': Progress)
    requires RelTouched(p, s, triples, q) && RelBindings(q.t) && Listed(q, s) && ObserveRelationship(q, s, r) == Ok(q')
    ensures RelTouched(p, s, triples + {RelObservationKey(s.id, r.from, r.to, r.relType)}, q')
  {
    var w := RelObservationKey(s.id, r.from, r.to, r.relType);
    RelTargetStable(q, s, r, q');
    forall x | x in q'.t.relationships && !(x in p.t.relationships && q'.t.relationships[x] == p.t.relationships[x])
      ensures exists v :: v in triples + {w} && q'.t.relSources[SourceOfTriple(s, v)].relationship == x
    {
      if x in q.t.relationships && q.t.relationships[x] == q'.t.relationships[x] {
        var v :| v in triples && q.t.relSources[SourceOfTriple(s, v)].relationship == x;
        assert v in triples + {w} && q'.t.relSources[SourceOfTriple(s, v)].relationship == x;
      } else {
        assert w in triples + {w} && q'.t.relSources[SourceOfTriple(s, w)].relationship == x;
      }
    }
  }

  lemma ObserveRelMid(p: Progress, s: Snapshot, n: nat, q: Progress, q': Progress)
    requires n < |s.relationships| && RelMid(p, s, n, q) && ObserveRelationship(q, s, s.relationships[n]) == Ok(q')
    ensures RelMid(p, s, n + 1, q')
  {
    hide Bindings, ClaimsScoped, StatusAgrees, RelBindings, RelStatusAgrees, OneActiveClaim, ClaimsBacked,
      EvidenceAgrees,
      Extends, Provenance, Listed, RelTouched;
    var r := s.relationships[n];
    ObserveRelPreserves(q, s, r, q');
    ObserveRelExtends(q, s, r, q');
    ExtendsTransitive(p.t, q.t, q'.t);
    ObserveRelProvenance(q, s, r, q');
    ObserveRelTouched(p, s, RelTriples(s, n), q, r, q');
    assert RelTriples(s, n + 1) == RelTriples(s, n) + {RelObservationKey(s.id, r.from, r.to, r.relType)};
  }

  lemma NoRelMid(p: Progress, s: Snapshot)
    requires Inv(p.t) && Provenance(p.t, s.id) && Listed(p, s)
    ensures RelMid(p, s, 0, p)
  {
    hide Inv, Provenance, Listed;
  }

  lemma {:induction false} ObserveRelationshipsMid(p: Progress, s: Snapshot, n: nat, q: Progress)
    requires n <= |s.relationships| && Inv(p.t) && Provenance(p.t, s.id) && Listed(p, s)
    requires ObserveRelationships(p, s, n) == Ok(q)
    ensures RelMid(p, s, n, q)
  {
    hide Inv, Provenance, Listed, ObserveRelationship, RelMid;
    if n == 0 {
      NoRelMid(p, s);
    } else {
      var before := ObserveRelationships(p, s, n - 1).value;
      ObserveRelationshipsMid(p, s, n - 1, before);
      ObserveRelMid(p, s, n - 1, before, q);
    }
  }

  // ---------- the whole snapshot ----------

  /** The progress after the observations (`p`) and after the relationships (`q`) of an accepted snapshot. */
  lemma Stages(t: Tables, s: Snapshot, threshold: int, u: Progress) returns (p: Progress, q: Progress)
    requires Inv(t) && Sealed(t) && Apply(t, s, threshold) == Ok(u)
    ensures ObserveAssets(t, s, |s.assets|) == Ok(p) && Mid(t, s, |s.assets|, p)
    ensures ObserveRelationships(p, s, |s.relationships|) == Ok(q) && RelMid(p, s, |s.relationships|, q)
    ensures var m := MarkMissing(q, s, Threshold(threshold));
            u == m.(t := m.t.(runs := m.t.runs[s.id := m.sum])) && s.id !in m.t.runs
    ensures s.id !in t.runs
  {
    hide Inv, Sealed, Mid, RelMid, MarkMissing;
    p := ObserveAssets(t, s, |s.assets|).value;
    q := ObserveRelationships(p, s, |s.relationships|).value;
    RunsFrame(t, s, p, q, Threshold(threshold));
    ObserveAssetsMid(t, s, |s.assets|, p);
    MidFacts(t, s, p);
    ObserveRelationshipsMid(p, s, |s.relationships|, q);
  }

  lemma MidFacts(t: Tables, s: Snapshot, p: Progress)
    requires Mid(t, s, |s.assets|, p)
    ensures Inv(p.t) && Provenance(p.t, s.id) && Listed(p, s)
  {
  }

  lemma {:induction false} AssetRuns(t: Tables, s: Snapshot, n: nat, p: Progress)
    requires n <= |s.assets| && ObserveAssets(t, s, n) == Ok(p)
    ensures p.t.runs == t.runs
  {
    hide ObserveAsset, TouchAsset, BindStrong, StrongRefs, RecordClaims;
    if n > 0 {
      var before := ObserveAssets(t, s, n - 1).value;
      AssetRuns(t, s, n - 1, before);
      var x := ObserveUnfold(before, s, s.assets[n - 1], p);
    }
  }

  lemma {:induction false} RelRuns(p: Progress, s: Snapshot, n: nat, q: Progress)
    requires n <= |s.relationships| && ObserveRelationships(p, s, n) == Ok(q)
    ensures q.t.runs == p.t.runs
  {
    if n > 0 {
      var before := ObserveRelationships(p, s, n - 1).value;
      RelRuns(p, s, n - 1, before);
    }
  }

  lemma RunsFrame(t: Tables, s: Snapshot, p: Progress, q: Progress, threshold: int)
    requires ObserveAssets(t, s, |s.assets|) == Ok(p) && ObserveRelationships(p, s, |s.relationships|) == Ok(q)
    ensures MarkMissing(q, s, threshold).t.runs == t.runs
  {
    AssetRuns(t, s, |s.assets|, p);
    RelRuns(p, s, |s.relationships|, q);
  }

  /** An accepted snapshot keeps every invariant, loses no row and changes no binding. */
  lemma ApplyPreserves(t: Tables, s: Snapshot, threshold: int, u: Progress)
    requires Inv(t) && Sealed(t) && Apply(t, s, threshold) == Ok(u)
    ensures Inv(u.t) && Sealed(u.t) && Extends(t, u.t)
    ensures s.id !in t.runs && u.t.runs == t.runs[s.id := u.sum]
  {
    hide Inv, Sealed, Apply, ObserveAssets, ObserveRelationships, MarkMissingAssets, MarkRemovedRelationships, Extends,
      Provenance, Listed, UnlistedKept, RelTouched;
    var p, q := Stages(t, s, threshold, u);
    var m := MarkMissingAssets(q, s, Threshold(threshold));
    MarkPreserves(q, s, Threshold(threshold));
    MarkExtends(q, s, Threshold(threshold));
    var r := MarkRemovedRelationships(m, s, Threshold(threshold));
    MarkRelsPreserves(m, s, Threshold(threshold));
    MarkRelsExtends(m, s, Threshold(threshold));
    ExtendsTransitive(t, p.t, q.t);
    ExtendsTransitive(t, q.t, m.t);
    ExtendsTransitive(t, m.t, r.t);
    RunRecorded(t, r.t, u.t, s.id, u.sum);
  }

  lemma RunRecorded(t: Tables, r: Tables, u: Tables, id: string, sum: Summary)
    requires id !in r.runs && u == r.(runs := r.runs[id := sum])
    requires Inv(r) && Provenance(r, id) && Extends(t, r)
    ensures Inv(u) && Sealed(u) && Extends(t, u)
  {
    hide Bindings, ClaimsScoped, StatusAgrees, OneActiveClaim, ClaimsBacked, EvidenceAgrees;
    AssetInvFrame(r, u);
  }

  lemma MarkExtends(p: Progress, s: Snapshot, threshold: int)
    requires Provenance(p.t, s.id)
    ensures Extends(p.t, MarkMissingAssets(p, s, threshold).t) && Provenance(MarkMissingAssets(p, s, threshold).t, s.id)
    ensures MarkMissingAssets(p, s, threshold).t.runs == p.t.runs
  {
    var q := MarkMissingAssets(p, s, threshold);
    var sources, expired := MarkFacts(p, s, threshold);
    MarkClaimFrame(p, s, sources, expired, q);
  }

  lemma MarkRelsExtends(p: Progress, s: Snapshot, threshold: int)
    requires Provenance(p.t, s.id)
    ensures Extends(p.t, MarkRemovedRelationships(p, s, threshold).t)
    ensures Provenance(MarkRemovedRelationships(p, s, threshold).t, s.id)
    ensures MarkRemovedRelationships(p, s, threshold).t.runs == p.t.runs
  {
  }

  // ---------- source identities ----------

  ghost predicate ListsAsset(s: Snapshot, k: SourceKey) {
    && s.org == k.org && s.connector == k.connector
    && exists i :: 0 <= i < |s.assets| && s.assets[i].external == k.external
  }

  ghost predicate ListsRelationship(s: Snapshot, q: RelSourceKey) {
    && s.org == q.org && s.connector == q.connector
    && exists i :: 0 <= i < |s.relationships| && s.relationships[i].from == q.from
                   && s.relationships[i].to == q.to && s.relationships[i].relType == q.relType
  }

  /** How an accepted snapshot changes the source identity `k`. */
  ghost predicate SourceStep(t: Tables, s: Snapshot, threshold: int, u: Tables, k: SourceKey) {
    && (k in u.sources <==> k in t.sources || ListsAsset(s, k))
    && (k in u.sources ==>
          if ListsAsset(s, k) then u.sources[k].active && u.sources[k].absences == 0
          else if s.org == k.org && s.connector == k.connector then
            && u.sources[k].absences == t.sources[k].absences + 1
            && (u.sources[k].active <==> t.sources[k].active && u.sources[k].absences < threshold)
          else u.sources[k] == t.sources[k])
  }

  ghost predicate RelSourceStep(t: Tables, s: Snapshot, threshold: int, u: Tables, q: RelSourceKey) {
    && (q in u.relSources <==> q in t.relSources || ListsRelationship(s, q))
    && (q in u.relSources ==>
          if ListsRelationship(s, q) then u.relSources[q].active && u.relSources[q].absences == 0
          else if s.org == q.org && s.connector == q.connector then
            && u.relSources[q].absences == t.relSources[q].absences + 1
            && (u.relSources[q].active <==> t.relSources[q].active && u.relSources[q].absences < threshold)
          else u.relSources[q] == t.relSources[q])
  }

  /** Marking changes source identities only by counting and expiring them. */
  lemma MarkedSources(p: Progress, s: Snapshot, threshold: int)
    ensures MarkMissing(p, s, threshold).t.sources
         == Expire(CountAbsences(p.t, s), Expired(CountAbsences(p.t, s), s, threshold))
    ensures MarkMissing(p, s, threshold).t.relSources
         == ExpireRels(CountRelAbsences(p.t, s), ExpiredRels(CountRelAbsences(p.t, s), s, threshold))
  {
    hide CountAbsences, Expired, Expire, CountRelAbsences, ExpiredRels, ExpireRels, RetractClaims, SettleAssets, Gone,
      RemovedRels;
    var q := MarkMissingAssets(p, s, threshold);
    RelAbsencesFrame(p.t, q.t, s);
  }

  lemma RelAbsencesFrame(t: Tables, u: Tables, s: Snapshot)
    requires u.relSources == t.relSources && u.relObservations == t.relObservations
    ensures CountRelAbsences(u, s) == CountRelAbsences(t, s)
  {
  }

  lemma ApplySources(t: Tables, s: Snapshot, threshold: int, u: Progress, k: SourceKey)
    requires Inv(t) && Sealed(t) && Apply(t, s, threshold) == Ok(u)
    ensures SourceStep(t, s, Threshold(threshold), u.t, k)
  {
    hide Inv, Sealed, Apply, ObserveAssets, ObserveRelationships, Provenance, RelTouched, MarkMissing;
    var p, q := Stages(t, s, threshold, u);
    ListedIff(t, s, p, k);
    assert q.t.sources == p.t.sources && q.t.observations == p.t.observations;
    MarkedSources(q, s, Threshold(threshold));
  }

  lemma ListedIff(t: Tables, s: Snapshot, p: Progress, k: SourceKey)
    requires Mid(t, s, |s.assets|, p)
    ensures ListsAsset(s, k) <==> OwnSource(s, k) && k.external in p.bound
  {
    hide Inv, Provenance, Extends, Listed;
  }

  /** The relationship observations of the snapshot set its identities and leave the others. */
  lemma RelatedIff(p: Progress, s: Snapshot, q: Progress, k: RelSourceKey)
    requires RelMid(p, s, |s.relationships|, q)
    requires RelObservationKey(s.id, k.from, k.to, k.relType) !in p.t.relObservations
    ensures OwnRelSource(s, k) ==> (ListsRelationship(s, k) <==>
                                    RelObservationKey(s.id, k.from, k.to, k.relType) in q.t.relObservations)
    ensures ListsRelationship(s, k) ==> k in q.t.relSources && q.t.relSources[k].active
                                        && q.t.relSources[k].absences == 0
    ensures !ListsRelationship(s, k) ==>
              (k in q.t.relSources <==> k in p.t.relSources)
              && (k in q.t.relSources ==> q.t.relSources[k] == p.t.relSources[k])
  {
    hide Inv, Provenance, Listed;
    var w := RelObservationKey(s.id, k.from, k.to, k.relType);
    assert ListsRelationship(s, k) <==> OwnRelSource(s, k) && w in RelTriples(s, |s.relationships|);
  }

  lemma ApplyRelSources(t: Tables, s: Snapshot, threshold: int, u: Progress, k: RelSourceKey)
    requires Inv(t) && Sealed(t) && Apply(t, s, threshold) == Ok(u)
    ensures RelSourceStep(t, s, Threshold(threshold), u.t, k)
  {
    hide Inv, Apply, ObserveAssets, ObserveRelationships, Provenance, Listed, Extends, RelMid, ListsRelationship,
      MarkMissing;
    var p, q := Stages(t, s, threshold, u);
    assert RelObservationKey(s.id, k.from, k.to, k.relType) !in t.relObservations;
    RelatedIff(p, s, q, k);
    MarkedSources(q, s, Threshold(threshold));
  }
}
