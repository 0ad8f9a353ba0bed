/** Which assets a snapshot is about, decided before it is applied. */
module ReconcileMentions {
  import opened Domain
  import opened Tables
  import opened Reconcile
  import opened ReconcileInvariants
  import opened ReconcileSteps

  type Sources = map<SourceKey, SourceRow>

  /** In the tables before the snapshot, the `i`-th observation's source identity or one of its
      strong identifiers is bound to `a`. */
  predicate Mentions(t: Tables, s: Snapshot, i: nat, a: AssetId)
    requires i < |s.assets|
  {
    a in Candidates(t, s, s.assets[i])
  }

  ghost predicate Mentioned(t: Tables, s: Snapshot, n: nat, a: AssetId)
    requires n <= |s.assets|
  {
    exists i :: 0 <= i < n && Mentions(t, s, i, a)
  }

  /** The first mention of `a` is by a source identity that the tables know. */
  ghost predicate FirstMentionKnown(t: Tables, s: Snapshot, n: nat, a: AssetId)
    requires n <= |s.assets|
  {
    exists i :: 0 <= i < n && Mentions(t, s, i, a) && SourceOf(s, s.assets[i].external) in t.sources
                && forall j :: 0 <= j < i ==> !Mentions(t, s, j, a)
  }

  /** The `i`-th observation is of asset `a`, by the bindings after it. */
  predicate Observes(sources: Sources, s: Snapshot, i: nat, a: AssetId)
    requires i < |s.assets|
  {
    var k := SourceOf(s, s.assets[i].external);
    k in sources && sources[k].asset == a
  }

  /** Some of the first `n` observations is of `a`. */
  ghost predicate Seen(sources: Sources, s: Snapshot, n: nat, a: AssetId)
    requires n <= |s.assets|
  {
    exists i :: 0 <= i < n && Observes(sources, s, i, a)
  }

  /** The first observation of `a` is by a source identity that was known before the snapshot. */
  ghost predicate FirstSeenByKnown(known: Sources, sources: Sources, s: Snapshot, n: nat, a: AssetId)
    requires n <= |s.assets|
  {
    exists i :: 0 <= i < n && Observes(sources, s, i, a) && SourceOf(s, s.assets[i].external) in known
                && forall j :: 0 <= j < i ==> !Observes(sources, s, j, a)
  }

  // ---------- every observation of an old asset follows a mention ----------

  /** New bindings to `a` come after a mention of it; mentions are observations of it, and
      observations of it have a mention no later. */
  ghost predicate Explained(t: Tables, s: Snapshot, n: nat, p: Tables, a: AssetId)
    requires n <= |s.assets|
  {
    && (forall k :: k in p.sources && p.sources[k].asset == a && k !in t.sources ==> Mentioned(t, s, n, a))
    && (forall v :: v in p.strong && p.strong[v] == a && v !in t.strong ==> Mentioned(t, s, n, a))
    && (forall i | 0 <= i < n :: Mentions(t, s, i, a) ==> Observes(p.sources, s, i, a))
    && (forall i | 0 <= i < n :: Observes(p.sources, s, i, a) ==> Mentioned(t, s, i + 1, a))
  }

  lemma MentionedMonotone(t: Tables, s: Snapshot, m: nat, n: nat, a: AssetId)
    requires m <= n <= |s.assets| && Mentioned(t, s, m, a)
    ensures Mentioned(t, s, n, a)
  {
    hide Mentions;
  }

  /** What the loop state owes to the tables before the snapshot. */
  ghost predicate Grown(t: Tables, p: Tables) {
    && t.assets.Keys <= p.assets.Keys
    && (forall k :: k in t.sources ==> k in p.sources && p.sources[k].asset == t.sources[k].asset)
    && (forall v :: v in t.strong ==> v in p.strong && p.strong[v] == t.strong[v])
  }

  lemma MidGrown(t: Tables, s: Snapshot, n: nat, p: Progress)
    requires n <= |s.assets| && Mid(t, s, n, p)
    ensures Grown(t, p.t) && Bindings(p.t)
    ensures forall i :: 0 <= i < n ==> SourceOf(s, s.assets[i].external) in p.t.sources
  {
    hide ClaimsScoped, StatusAgrees, OneActiveClaim, ClaimsBacked, EvidenceAgrees, RelBindings, RelStatusAgrees,
      Provenance, UnlistedKept;
    forall i | 0 <= i < n ensures SourceOf(s, s.assets[i].external) in p.t.sources {
      assert s.assets[i].external in p.bound;
    }
  }

  /** An observation that resolves to `a` mentions it, or something before it did. */
  lemma ResolvedMentions(t: Tables, s: Snapshot, n: nat, p: Tables, x: Touch, a: AssetId)
    requires n < |s.assets| && a in t.assets && Grown(t, p) && Explained(t, s, n, p, a)
    requires TouchAsset(p, s, s.assets[n]) == Ok(x) && x.asset == a
    ensures Mentioned(t, s, n + 1, a)
  {
    hide StrongRefs, Mentioned, SetStatus;
    var key, refs := SourceOf(s, s.assets[n].external), StrongRefs(s.org, s.assets[n].hints);
    if key in p.sources {
      ByBinding(t, s, n, p, a);
    } else if Hits(p.strong, refs) != {} {
      assert a in Hits(p.strong, refs);
      var v :| v in refs && v in p.strong && p.strong[v] == a;
      ByStrong(t, s, n, p, a, v);
    }
  }

  lemma ByBinding(t: Tables, s: Snapshot, n: nat, p: Tables, a: AssetId)
    requires n < |s.assets| && Grown(t, p) && Explained(t, s, n, p, a)
    requires var key := SourceOf(s, s.assets[n].external); key in p.sources && p.sources[key].asset == a
    ensures Mentioned(t, s, n + 1, a)
  {
    hide StrongRefs, Hits;
    if SourceOf(s, s.assets[n].external) in t.sources {
      assert Mentions(t, s, n, a);
    } else {
      MentionedMonotone(t, s, n, n + 1, a);
    }
  }

  lemma ByStrong(t: Tables, s: Snapshot, n: nat, p: Tables, a: AssetId, v: StrongKey)
    requires n < |s.assets| && Grown(t, p) && Explained(t, s, n, p, a)
    requires v in StrongRefs(s.org, s.assets[n].hints) && v in p.strong && p.strong[v] == a
    ensures Mentioned(t, s, n + 1, a)
  {
    hide StrongRefs;
    if v in t.strong {
      assert t.strong[v] in Hits(t.strong, StrongRefs(s.org, s.assets[n].hints));
      assert Mentions(t, s, n, a);
    } else {
      MentionedMonotone(t, s, n, n + 1, a);
    }
  }

  /** An accepted observation that mentions `a` is of `a`. */
  lemma MentionResolves(t: Tables, s: Snapshot, n: nat, p: Progress, x: Touch, q: Progress, a: AssetId)
    requires n < |s.assets| && Grown(t, p.t) && Accepted(p, s, s.assets[n], x, q) && Mentions(t, s, n, a)
    ensures x.asset == a
  {
    hide StrongRefs, RecordClaims, NewClaimIds, HasConflict;
    var refs := StrongRefs(s.org, s.assets[n].hints);
    if a in Hits(t.strong, refs) {
      var v :| v in refs && v in t.strong && t.strong[v] == a;
      assert q.t.strong[v] == x.asset && q.t.strong[v] == p.t.strong[v];
    }
  }

  /** An accepted observation binds its source identity, and otherwise only adds strong bindings. */
  lemma AcceptedBindings(p: Progress, s: Snapshot, o: Observation, x: Touch, q: Progress)
    requires Accepted(p, s, o, x, q)
    ensures SourceOf(s, o.external) in q.t.sources && q.t.sources[SourceOf(s, o.external)].asset == x.asset
    ensures forall k :: k in q.t.sources && k != SourceOf(s, o.external) ==> k in p.t.sources
    ensures forall k :: k in p.t.sources ==> k in q.t.sources && q.t.sources[k].asset == p.t.sources[k].asset
    ensures forall v :: v in q.t.strong ==> (v in p.t.strong && q.t.strong[v] == p.t.strong[v])
                                            || q.t.strong[v] == x.asset
  {
    hide StrongRefs, RecordClaims, NewClaimIds, HasConflict;
  }

  lemma ExplainedStep(t: Tables, s: Snapshot, n: nat, p: Progress, x: Touch, q: Progress, a: AssetId)
    requires n < |s.assets| && a in t.assets && Grown(t, p.t) && Explained(t, s, n, p.t, a)
    requires forall i :: 0 <= i < n ==> SourceOf(s, s.assets[i].external) in p.t.sources
    requires TouchAsset(p.t, s, s.assets[n]) == Ok(x) && Accepted(p, s, s.assets[n], x, q)
    ensures Explained(t, s, n + 1, q.t, a)
  {
    hide TouchAsset, Mentioned, Mentions, Grown, Accepted;
    AcceptedBindings(p, s, s.assets[n], x, q);
    if x.asset == a {
      ResolvedMentions(t, s, n, p.t, x, a);
    }
    if Mentions(t, s, n, a) {
      MentionResolves(t, s, n, p, x, q, a);
    }
    if Mentioned(t, s, n, a) {
      MentionedMonotone(t, s, n, n + 1, a);
    }
    assert forall i :: 0 <= i < n ==> (Observes(q.t.sources, s, i, a) ==> Observes(p.t.sources, s, i, a));
    assert forall i :: 0 <= i < n ==> (Observes(p.t.sources, s, i, a) ==> Observes(q.t.sources, s, i, a));
  }

  lemma {:induction false} ExplainedInv(t: Tables, s: Snapshot, n: nat, p: Progress, a: AssetId)
    requires n <= |s.assets| && Inv(t) && Sealed(t) && s.id !in t.runs && ObserveAssets(t, s, n) == Ok(p)
    requires a in t.assets
    ensures Explained(t, s, n, p.t, a) && Mid(t, s, n, p)
  {
    hide Inv, Mid, ObserveAsset, TouchAsset, Accepted, Sealed, Bindings, Grown;
    ObserveAssetsMid(t, s, n, p);
    if n > 0 {
      hide Explained;
      var b := ObserveAssets(t, s, n - 1).value;
      ExplainedInv(t, s, n - 1, b, a);
      MidGrown(t, s, n - 1, b);
      var x := ObserveAccepted(b, s, s.assets[n - 1], p);
      ExplainedStep(t, s, n - 1, b, x, p, a);
    }
  }

  /** An asset that existed before an accepted snapshot is observed exactly when it is
      mentioned, and its first observation is its first mention. */
  lemma SeenIffMentioned(t: Tables, s: Snapshot, p: Progress, a: AssetId)
    requires Inv(t) && Sealed(t) && s.id !in t.runs && ObserveAssets(t, s, |s.assets|) == Ok(p) && a in t.assets
    ensures Seen(p.t.sources, s, |s.assets|, a) <==> Mentioned(t, s, |s.assets|, a)
    ensures FirstSeenByKnown(t.sources, p.t.sources, s, |s.assets|, a) <==> FirstMentionKnown(t, s, |s.assets|, a)
  {
    hide Inv, Sealed, Mid, ObserveAssets, Mentions, Observes;
    ExplainedInv(t, s, |s.assets|, p, a);
    FirstIsFirst(t, s, |s.assets|, p.t, a);
  }

  lemma FirstIsFirst(t: Tables, s: Snapshot, n: nat, p: Tables, a: AssetId)
    requires n <= |s.assets| && Explained(t, s, n, p, a)
    ensures Seen(p.sources, s, n, a) <==> Mentioned(t, s, n, a)
    ensures FirstSeenByKnown(t.sources, p.sources, s, n, a) <==> FirstMentionKnown(t, s, n, a)
  {
    hide Mentions, Observes, Explained;
    assert forall i | 0 <= i < n :: Mentions(t, s, i, a) ==>
                                      Observes(p.sources, s, i, a) by { MentionsObserve(t, s, n, p, a); }
    if i :| 0 <= i < n && Observes(p.sources, s, i, a) {
      var m := EarliestMention(t, s, n, p, a, i);
    }
    if i :| 0 <= i < n && Observes(p.sources, s, i, a) && SourceOf(s, s.assets[i].external) in t.sources
            && forall j :: 0 <= j < i ==> !Observes(p.sources, s, j, a) {
      var m := EarliestMention(t, s, n, p, a, i);
      assert m == i;
    }
    if i :| 0 <= i < n && Mentions(t, s, i, a) && SourceOf(s, s.assets[i].external) in t.sources
            && forall j :: 0 <= j < i ==> !Mentions(t, s, j, a) {
      forall j | 0 <= j < i ensures !Observes(p.sources, s, j, a) {
        if Observes(p.sources, s, j, a) {
          var m := EarliestMention(t, s, n, p, a, j);
        }
      }
    }
  }

  lemma MentionsObserve(t: Tables, s: Snapshot, n: nat, p: Tables, a: AssetId)
    requires n <= |s.assets| && Explained(t, s, n, p, a)
    ensures forall i | 0 <= i < n :: Mentions(t, s, i, a) ==> Observes(p.sources, s, i, a)
  {
    hide Mentions, Observes;
  }

  lemma EarliestMention(t: Tables, s: Snapshot, n: nat, p: Tables, a: AssetId, i: nat) returns (m: nat)
    requires n <= |s.assets| && Explained(t, s, n, p, a) && i < n && Observes(p.sources, s, i, a)
    ensures m <= i && Mentions(t, s, m, a)
  {
    hide Mentions, Observes;
    m :| 0 <= m < i + 1 && Mentions(t, s, m, a);
  }
}
