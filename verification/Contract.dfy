/** The snapshot contract checked at ingest, and what it leaves for reconciliation to reject. */
module Contract {
  import opened Domain
  import opened Tables
  import opened Reconcile
  import opened ReconcileInvariants
  import opened ReconcileSteps
  import opened ReconcileResolving

  // ---------- the contract ----------

  predicate ValidHeader(s: Snapshot) {
    && s.id != "" && |s.id| <= 160 && s.org != "" && s.collector != "" && s.connector != "" && s.sequence >= 1
    && s.protocolVersion == "1.0" && |s.assets| <= 100000 && |s.relationships| <= 250000 && |s.warnings| <= 1000
    && |s.statistics| <= 32 && s.startedAt != 0 && s.completedAt != 0 && s.startedAt <= s.completedAt
    && (forall i :: 0 <= i < |s.warnings| ==> |s.warnings[i]| <= 2000)
    && (forall k :: k in s.statistics ==> s.statistics[k] >= 0)
  }

  predicate ValidObservation(o: Observation) {
    && o.external != "" && |o.external| <= 1024 && |o.assetType| <= 80 && o.observedAt != 0
    && |o.attributes| <= 128 && |o.hints| <= 32 && |o.fingerprint| <= 128 && o.status in {"OBSERVED", "UNKNOWN"}
  }

  predicate ValidRelationship(r: RelationshipObservation) {
    && r.from != "" && |r.from| <= 1024 && r.to != "" && |r.to| <= 1024 && r.relType != "" && |r.relType| <= 80
    && r.observedAt != 0 && |r.attributes| <= 64
  }

  /** The text that a relationship is deduplicated by. */
  function TripleText(r: RelationshipObservation): string {
    r.from + ['\0'] + r.to + ['\0'] + r.relType
  }

  predicate DistinctExternals(s: Snapshot, n: nat)
    requires n <= |s.assets|
  {
    forall i, j :: 0 <= i < j < n ==> s.assets[i].external != s.assets[j].external
  }

  predicate DistinctTriples(s: Snapshot, n: nat)
    requires n <= |s.relationships|
  {
    forall i, j :: 0 <= i < j < n ==> TripleText(s.relationships[i]) != TripleText(s.relationships[j])
  }

  predicate ValidAssets(s: Snapshot, n: nat)
    requires n <= |s.assets|
  {
    DistinctExternals(s, n) && forall i :: 0 <= i < n ==> ValidObservation(s.assets[i])
  }

  predicate ValidRelationships(s: Snapshot, n: nat)
    requires n <= |s.relationships|
  {
    && DistinctTriples(s, n)
    && forall i :: 0 <= i < n ==>
                     && ValidRelationship(s.relationships[i])
                     && s.relationships[i].from in Externals(s, |s.assets|)
                     && s.relationships[i].to in Externals(s, |s.assets|)
  }

  predicate ValidContract(s: Snapshot) {
    ValidHeader(s) && ValidAssets(s, |s.assets|) && ValidRelationships(s, |s.relationships|)
  }

  method CheckAssets(s: Snapshot) returns (ok: bool, seen: set<string>)
    ensures ok <==> ValidAssets(s, |s.assets|)
    ensures ok ==> seen == Externals(s, |s.assets|)
  {
    seen := {};
    for i := 0 to |s.assets|
      invariant seen == Externals(s, i) && ValidAssets(s, i)
    {
      var o := s.assets[i];
      if !ValidObservation(o) || o.external in seen {
        return false, seen;
      }
      seen := seen + {o.external};
      assert Externals(s, i + 1) == Externals(s, i) + {o.external};
    }
    ok := true;
  }

  function Texts(s: Snapshot, n: nat): set<string>
    requires n <= |s.relationships|
  {
    set i | 0 <= i < n :: TripleText(s.relationships[i])
  }

  method CheckRelationships(s: Snapshot, seen: set<string>) returns (ok: bool)
    requires seen == Externals(s, |s.assets|)
    ensures ok <==> ValidRelationships(s, |s.relationships|)
  {
    hide TripleText, ValidRelationship, Externals;
    var texts: set<string> := {};
    for i := 0 to |s.relationships|
      invariant texts == Texts(s, i) && ValidRelationships(s, i)
    {
      var r := s.relationships[i];
      var text := TripleText(r);
      if !ValidRelationship(r) || r.from !in seen || r.to !in seen || text in texts {
        return false;
      }
      texts := texts + {text};
      assert Texts(s, i + 1) == Texts(s, i) + {text};
    }
    ok := true;
  }

  /** Validation accepts exactly the snapshots that satisfy the contract. */
  method CheckContract(s: Snapshot) returns (ok: bool)
    ensures ok <==> ValidContract(s)
  {
    ok := ValidHeader(s);
    if ok {
      var seen;
      ok, seen := CheckAssets(s);
      if ok {
        ok := CheckRelationships(s, seen);
      }
    }
  }

  // ---------- what can still be rejected ----------

  predicate ShortKeyed(o: Observation) {
    forall k :: k in o.attributes ==> |k| <= 200
  }

  /** Requirements of reconciliation that the contract does not cover. */
  predicate Reconcilable(s: Snapshot) {
    forall i :: 0 <= i < |s.assets| ==> s.assets[i].assetType in ASSET_TYPES && ShortKeyed(s.assets[i])
  }

  /** No row of this snapshot exists for an external identifier that has not been reached yet. */
  ghost predicate RowsReached(p: Progress, s: Snapshot) {
    && Bindings(p.t)
    && (forall w :: w in p.t.observations && w.snapshot == s.id ==> w.external in p.bound)
    && (forall id :: id in p.t.claims && id.snapshot == s.id ==> id.external in p.bound)
  }

  /** A valid observation is rejected exactly when it would join two assets. */
  lemma ObserveRejectedIff(p: Progress, s: Snapshot, o: Observation)
    requires RowsReached(p, s)
    requires ValidObservation(o) && o.assetType in ASSET_TYPES && !LongKey(o) && o.external !in p.bound
    ensures ObserveAsset(p, s, o).Err? <==> !Agree(Candidates(p.t, s, o))
    ensures ObserveAsset(p, s, o).Err? ==> ObserveAsset(p, s, o).error in {ConflictingAssets, StrongConflict}
  {
    hide StrongRefs, LongKey, Observed, TouchAsset, Hits, BindStrong, Candidates, Bindings, Agree;
    var touch := TouchAsset(p.t, s, o);
    TouchRejectedIff(p.t, s, o);
    if touch.Ok? {
      BindConflictIff(p.t, StrongRefs(s.org, o.hints), touch.value.asset);
      assert forall id :: id in NewClaimIds(s, o, o.attributes.Keys) ==> id !in p.t.claims;
      CandidatesAgree(p.t, s, o, touch.value);
    }
  }

  lemma TouchRejectedIff(t: Tables, s: Snapshot, o: Observation)
    requires Bindings(t)
    ensures TouchAsset(t, s, o).Err? ==> !Agree(Candidates(t, s, o)) && TouchAsset(t, s, o).error == ConflictingAssets
  {
    hide StrongRefs;
    var key := SourceOf(s, o.external);
    if key !in t.sources {
      assert Candidates(t, s, o) == Hits(t.strong, StrongRefs(s.org, o.hints));
      assert Root(AssetId(s.org, s.connector, o.external)) == key;
    }
  }

  /** Binding the strong identifiers fails exactly when one of them is bound to another asset. */
  lemma BindConflictIff(t: Tables, refs: set<StrongKey>, a: AssetId)
    ensures (exists v :: v in refs && BindStrong(t.strong, refs, a)[v] != a) <==>
            exists b :: b in Hits(t.strong, refs) && b != a
  {
    if v :| v in refs && BindStrong(t.strong, refs, a)[v] != a {
      assert v in t.strong && t.strong[v] in Hits(t.strong, refs);
    }
    if b :| b in Hits(t.strong, refs) && b != a {
      var v :| v in refs && v in t.strong && t.strong[v] == b;
      assert BindStrong(t.strong, refs, a)[v] != a;
    }
  }

  lemma CandidatesAgree(t: Tables, s: Snapshot, o: Observation, x: Touch)
    requires TouchAsset(t, s, o) == Ok(x)
    ensures Agree(Candidates(t, s, o)) <==> !exists b :: b in Hits(t.strong, StrongRefs(s.org, o.hints)) && b != x.asset
  {
    hide StrongRefs;
    var key, refs := SourceOf(s, o.external), StrongRefs(s.org, o.hints);
    if key in t.sources {
      assert x.asset in Candidates(t, s, o);
    } else {
      assert Candidates(t, s, o) == Hits(t.strong, refs);
      if Hits(t.strong, refs) != {} { assert x.asset in Hits(t.strong, refs); }
    }
  }

  lemma ObserveReached(p: Progress, s: Snapshot, o: Observation, q: Progress)
    requires RowsReached(p, s) && ObserveAsset(p, s, o) == Ok(q)
    ensures RowsReached(q, s)
  {
    hide ObserveAsset, TouchAsset, Observed, Bindings, BindStrong, StrongRefs;
    var x := ObserveFacts(p, s, o, q);
    ObserveBindings(p, s, o, x, q);
    forall id | id in q.t.claims && id.snapshot == s.id ensures id.external in q.bound {
      ClaimFrame(p, s, o, x, q, id);
    }
  }

  /** The first observation that joins two assets stops the loop; without one it succeeds. */
  ghost predicate JoinsInLoop(t: Tables, s: Snapshot, i: nat)
    requires i < |s.assets|
  {
    ObserveAssets(t, s, i).Ok? && !Agree(Candidates(ObserveAssets(t, s, i).value.t, s, s.assets[i]))
  }

  lemma ShortKeys(o: Observation)
    requires ShortKeyed(o)
    ensures !LongKey(o)
  {
  }

  lemma {:induction false} AssetsRejectedIff(t: Tables, s: Snapshot, n: nat)
    requires n <= |s.assets| && Bindings(t) && Sealed(t) && s.id !in t.runs && ValidAssets(s, |s.assets|)
    requires Reconcilable(s)
    ensures ObserveAssets(t, s, n).Err? <==> exists i :: 0 <= i < n && JoinsInLoop(t, s, i)
    ensures ObserveAssets(t, s, n).Err? ==> ObserveAssets(t, s, n).error in {ConflictingAssets, StrongConflict}
    ensures ObserveAssets(t, s, n).Ok? ==>
              RowsReached(ObserveAssets(t, s, n).value, s) && ObserveAssets(t, s, n).value.bound.Keys == Externals(s, n)
              && ObserveAssets(t, s, n).value.t.relObservations == t.relObservations
  {
    hide ObserveAsset, LongKey, ShortKeyed, Bindings, Candidates, Agree, ValidObservation;
    if n > 0 {
      AssetsRejectedIff(t, s, n - 1);
      var before := ObserveAssets(t, s, n - 1);
      if before.Ok? {
        var p, o := before.value, s.assets[n - 1];
        assert o.external !in p.bound by {
          assert DistinctExternals(s, |s.assets|);
        }
        assert !LongKey(o) by { ShortKeys(o); }
        ObserveRejectedIff(p, s, o);
        if ObserveAsset(p, s, o).Ok? {
          var q := ObserveAsset(p, s, o).value;
          ObserveReached(p, s, o, q);
          AcceptedShape(p, s, o, q);
          assert Externals(s, n) == Externals(s, n - 1) + {o.external};
        }
        assert ObserveAsset(p, s, o).Err? <==> JoinsInLoop(t, s, n - 1);
      }
    }
  }

  lemma AcceptedShape(p: Progress, s: Snapshot, o: Observation, q: Progress)
    requires Bindings(p.t) && ObserveAsset(p, s, o) == Ok(q)
    ensures q.bound.Keys == p.bound.Keys + {o.external} && q.t.relObservations == p.t.relObservations
  {
    hide ObserveAsset, TouchAsset, Observed;
    var x := ObserveFacts(p, s, o, q);
  }

  /** The relationship observations stored for the snapshot are among its first `n`. */
  ghost predicate TriplesReached(p: Progress, s: Snapshot, n: nat)
    requires n <= |s.relationships|
  {
    forall w :: w in p.t.relObservations && w.snapshot == s.id ==> w in RelTriples(s, n)
  }

  lemma RelationshipAccepted(q: Progress, s: Snapshot, n: nat)
    requires 0 < n <= |s.relationships| && q.bound.Keys == Externals(s, |s.assets|)
    requires ValidRelationships(s, |s.relationships|)
    requires TriplesReached(q, s, n - 1)
    ensures var r := ObserveRelationship(q, s, s.relationships[n - 1]);
            r.Ok? && r.value.bound == q.bound && TriplesReached(r.value, s, n)
  {
    var r := s.relationships[n - 1];
    var w := RelObservationKey(s.id, r.from, r.to, r.relType);
    assert r.from in Externals(s, |s.assets|);
    assert w !in RelTriples(s, n - 1);
  }

  lemma {:induction false} RelationshipsAccepted(p: Progress, s: Snapshot, n: nat)
    requires n <= |s.relationships| && p.bound.Keys == Externals(s, |s.assets|)
    requires ValidRelationships(s, |s.relationships|)
    requires forall w :: w in p.t.relObservations ==> w.snapshot != s.id
    ensures var r := ObserveRelationships(p, s, n);
            r.Ok? && r.value.bound == p.bound && TriplesReached(r.value, s, n)
  {
    hide ObserveRelationship, Externals, RelTriples, ValidRelationships;
    if n > 0 {
      hide TriplesReached;
      RelationshipsAccepted(p, s, n - 1);
      RelationshipAccepted(ObserveRelationships(p, s, n - 1).value, s, n);
    }
  }

  lemma RejectedInLoop(t: Tables, s: Snapshot, threshold: int)
    requires Inv(t) && Sealed(t) && s.id !in t.runs && ValidContract(s) && Reconcilable(s)
    ensures Apply(t, s, threshold).Err? <==> exists i :: 0 <= i < |s.assets| && JoinsInLoop(t, s, i)
    ensures Apply(t, s, threshold).Err? ==> Apply(t, s, threshold).error in {ConflictingAssets, StrongConflict}
  {
    hide ClaimsScoped, StatusAgrees, OneActiveClaim, ClaimsBacked, EvidenceAgrees, RelBindings, RelStatusAgrees,
      MarkMissing, JoinsInLoop, ObserveAssets, ObserveRelationships, ValidAssets, ValidRelationships;
    AssetsRejectedIff(t, s, |s.assets|);
    if ObserveAssets(t, s, |s.assets|).Ok? {
      var p := ObserveAssets(t, s, |s.assets|).value;
      RelationshipsAccepted(p, s, |s.relationships|);
      RunsFrame(t, s, p, ObserveRelationships(p, s, |s.relationships|).value, Threshold(threshold));
    }
  }

  // ---------- rejection decided before the call ----------

  /** The `i`-th observation is evidence for two assets: by the tables before the snapshot, or
      through earlier observations that share a strong identifier with it. */
  ghost predicate JoinsAt(t: Tables, s: Snapshot, i: nat)
    requires i < |s.assets|
  {
    !Agree(Leads(t, s, i))
  }

  /** Where the loop arrives, its candidates are the leads. */
  lemma JoinsWhereReached(t: Tables, s: Snapshot, i: nat)
    requires i < |s.assets| && Inv(t) && Sealed(t) && s.id !in t.runs && ValidAssets(s, |s.assets|) && Reconcilable(s)
    requires ObserveAssets(t, s, i).Ok?
    ensures JoinsInLoop(t, s, i) <==> JoinsAt(t, s, i)
  {
    hide Inv, Sealed, ObserveAssets, Agree, Candidates, Leads, Predicted, Mid, Reconcilable, ValidObservation;
    var p := ObserveAssets(t, s, i).value;
    LoopResolves(t, s, i, p);
    assert p.bound.Keys == Externals(s, i) by { MidBound(t, s, i, p); }
    CandidatesAreLeads(t, s, i, p);
  }

  lemma MidBound(t: Tables, s: Snapshot, n: nat, p: Progress)
    requires n <= |s.assets| && Mid(t, s, n, p)
    ensures p.bound.Keys == Externals(s, n)
  {
  }

  lemma {:induction false} JoinsSame(t: Tables, s: Snapshot, n: nat)
    requires n <= |s.assets| && Inv(t) && Sealed(t) && s.id !in t.runs && ValidAssets(s, |s.assets|) && Reconcilable(s)
    ensures (exists i :: 0 <= i < n && JoinsInLoop(t, s, i)) <==> exists i :: 0 <= i < n && JoinsAt(t, s, i)
  {
    hide Inv, Sealed, ObserveAssets, JoinsInLoop, JoinsAt, ValidAssets, Reconcilable, RowsReached;
    if n > 0 {
      JoinsSame(t, s, n - 1);
      assert Bindings(t) by { InvBindings(t); }
      AssetsRejectedIff(t, s, n - 1);
      if ObserveAssets(t, s, n - 1).Ok? {
        JoinsWhereReached(t, s, n - 1);
      }
    }
  }

  lemma InvBindings(t: Tables)
    requires Inv(t)
    ensures Bindings(t)
  {
  }

  /** A new snapshot that satisfies the contract, with known asset types and bounded attribute
      keys, is rejected exactly when one of its observations is evidence for two assets. Every
      other failure (duplicate identifiers, missing rows, unknown endpoints, violated unique
      constraints) is unreachable. */
  lemma RejectedIffJoins(t: Tables, s: Snapshot, threshold: int)
    requires Inv(t) && Sealed(t) && s.id !in t.runs && ValidContract(s) && Reconcilable(s)
    ensures Apply(t, s, threshold).Err? <==> exists i :: 0 <= i < |s.assets| && JoinsAt(t, s, i)
    ensures Apply(t, s, threshold).Err? ==> Apply(t, s, threshold).error in {ConflictingAssets, StrongConflict}
  {
    hide Inv, Sealed, Apply, JoinsInLoop, JoinsAt, ValidAssets, ValidRelationships, ValidHeader, Reconcilable;
    RejectedInLoop(t, s, threshold);
    JoinsSame(t, s, |s.assets|);
  }
}
