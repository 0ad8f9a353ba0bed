/** Whole runs: any sequence of reconciliation attempts from empty tables, by any connectors,
    executed one after the other. A rejected attempt leaves the tables as they were. */
module ReconcileRuns {
  import opened Domain
  import opened Tables
  import opened Reconcile
  import opened ReconcileInvariants
  import opened ReconcileSteps

  datatype Attempt = Attempt(snapshot: Snapshot, threshold: int)

  ghost function Step(t: Tables, e: Attempt): Tables {
    match Apply(t, e.snapshot, e.threshold)
    case Ok(u) => u.t
    case Err(_) => t
  }

  /** The tables after the attempts `es`. */
  ghost function Run(es: seq<Attempt>): Tables {
    if es == [] then EMPTY else Step(Run(es[..|es| - 1]), es[|es| - 1])
  }

  /** The attempts of `es` that were committed. */
  ghost function History(es: seq<Attempt>): seq<Attempt> {
    if es == [] then []
    else
      var e := es[|es| - 1];
      var h := History(es[..|es| - 1]);
      if Apply(Run(es[..|es| - 1]), e.snapshot, e.threshold).Ok? then h + [e] else h
  }

  lemma {:induction false} RunInv(es: seq<Attempt>)
    ensures Inv(Run(es)) && Sealed(Run(es))
  {
    if es != [] {
      hide Inv, Sealed, Apply;
      var e, t := es[|es| - 1], Run(es[..|es| - 1]);
      RunInv(es[..|es| - 1]);
      if Apply(t, e.snapshot, e.threshold).Ok? {
        ApplyPreserves(t, e.snapshot, e.threshold, Apply(t, e.snapshot, e.threshold).value);
      }
    }
  }

  /** In every reachable state an asset is MISSING exactly when no source identity bound to it
      is ACTIVE, otherwise CONFLICTING exactly when two active claims disagree on an
      attribute, otherwise ACTIVE. */
  lemma StoredStatus(es: seq<Attempt>, a: AssetId)
    requires a in Run(es).assets
    ensures var t := Run(es);
            var status := t.assets[a].status;
            var present := exists k :: k in t.sources && t.sources[k].asset == a && t.sources[k].active;
            var contested := exists i, j :: i in t.claims && j in t.claims
                                            && t.claims[i].asset == t.claims[j].asset == a
                                            && t.claims[i].active && t.claims[j].active
                                            && t.claims[i].key == t.claims[j].key
                                            && t.claims[i].value != t.claims[j].value;
            && (status == Missing <==> !present)
            && (status == Conflicting <==> present && contested)
            && (status == Active <==> present && !contested)
  {
    RunInv(es);
  }

  /** In every reachable state a relationship is ACTIVE exactly when some relationship source
      identity that points to it is ACTIVE. */
  lemma RelationshipStatus(es: seq<Attempt>, r: RelationshipId)
    requires r in Run(es).relationships
    ensures Run(es).relationships[r] <==>
            exists q :: q in Run(es).relSources && Run(es).relSources[q].relationship == r
                        && Run(es).relSources[q].active
  {
    hide Bindings, ClaimsScoped, StatusAgrees, OneActiveClaim, ClaimsBacked, EvidenceAgrees, Sealed;
    RunInv(es);
  }

  lemma ExtendsReflexive(t: Tables)
    ensures Extends(t, t)
  {
  }

  /** No later attempt deletes a row, changes a binding, retargets a relationship source
      identity, or alters a claim other than its active flag. */
  lemma {:induction false} RunExtends(es: seq<Attempt>, more: seq<Attempt>)
    ensures Extends(Run(es), Run(es + more))
  {
    hide Extends, Apply;
    if more == [] {
      assert es + more == es;
      ExtendsReflexive(Run(es));
    } else {
      var n := |more| - 1;
      var e, t := more[n], Run(es + more[..n]);
      RunExtends(es, more[..n]);
      assert (es + more)[..|es + more| - 1] == es + more[..n];
      if Apply(t, e.snapshot, e.threshold).Ok? {
        RunInv(es + more[..n]);
        ApplyPreserves(t, e.snapshot, e.threshold, Apply(t, e.snapshot, e.threshold).value);
        ExtendsTransitive(Run(es), t, Run(es + more));
      }
    }
  }

  // ---------- absence counters ----------

  /** The snapshot is one of this connector. */
  predicate Sends(s: Snapshot, org: string, connector: string) {
    s.org == org && s.connector == connector
  }

  /** Committed snapshots of the identity's connector since the last one that lists it. */
  ghost function AbsencesSince(h: seq<Attempt>, k: SourceKey): nat {
    if h == [] then 0
    else
      var s, rest := h[|h| - 1].snapshot, h[..|h| - 1];
      if ListsAsset(s, k) then 0
      else AbsencesSince(rest, k) + if Sends(s, k.org, k.connector) then 1 else 0
  }

  /** Whether some committed snapshot lists the identity. */
  ghost predicate EverListed(h: seq<Attempt>, k: SourceKey) {
    exists i :: 0 <= i < |h| && ListsAsset(h[i].snapshot, k)
  }

  /** Whether `absences` reach the threshold configured for an attempt: two when none is configured. */
  predicate Enough(absences: nat, configured: int) {
    (configured >= 1 && absences >= configured) || (configured <= 0 && absences >= 2)
  }

  /** Whether, since the last listing, some committed snapshot found the counter at its threshold. */
  ghost predicate ReachedThreshold(h: seq<Attempt>, k: SourceKey) {
    if h == [] then false
    else
      var e, rest := h[|h| - 1], h[..|h| - 1];
      if ListsAsset(e.snapshot, k) then false
      else if Sends(e.snapshot, k.org, k.connector)
      then ReachedThreshold(rest, k) || Enough(AbsencesSince(h, k), e.threshold)
      else ReachedThreshold(rest, k)
  }

  /** In every reachable state, a source identity exists exactly when a committed snapshot
      listed it; its counter is the number of committed snapshots of its connector since the
      last listing; and it is MISSING exactly when the counter reached a threshold since then. */
  lemma {:induction false} AbsenceCounters(es: seq<Attempt>, k: SourceKey)
    ensures k in Run(es).sources <==> EverListed(History(es), k)
    ensures k in Run(es).sources ==>
              && Run(es).sources[k].absences == AbsencesSince(History(es), k)
              && (Run(es).sources[k].active <==> !ReachedThreshold(History(es), k))
  {
    hide Apply, ListsAsset, AbsencesSince, ReachedThreshold, EverListed;
    if es == [] {
      NeverListed(k);
    } else {
      hide Inv, Sealed;
      var e, before := es[|es| - 1], es[..|es| - 1];
      AbsenceCounters(before, k);
      if Apply(Run(before), e.snapshot, e.threshold).Ok? {
        var u := Apply(Run(before), e.snapshot, e.threshold).value;
        RunInv(before);
        ApplySources(Run(before), e.snapshot, e.threshold, u, k);
        var h := History(before);
        assert History(es) == h + [e];
        EverListedSnoc(h, e, k);
        ListedSnoc(h, e, k);
      }
    }
  }

  lemma NeverListed(k: SourceKey)
    ensures !EverListed([], k)
  {
  }

  lemma ListedSnoc(h: seq<Attempt>, e: Attempt, k: SourceKey)
    ensures AbsencesSince(h + [e], k)
         == if ListsAsset(e.snapshot, k) then 0 else if Sends(e.snapshot, k.org, k.connector)
            then 1 + AbsencesSince(h, k)
            else AbsencesSince(h, k)
    ensures ReachedThreshold(h + [e], k)
       <==> !ListsAsset(e.snapshot, k)
            && (ReachedThreshold(h, k) || (Sends(e.snapshot, k.org, k.connector)
                                           && Enough(AbsencesSince(h + [e], k), e.threshold)))
  {
    hide ListsAsset;
    assert (h + [e])[..|h|] == h;
  }

  lemma EverListedSnoc(h: seq<Attempt>, e: Attempt, k: SourceKey)
    ensures EverListed(h + [e], k) <==> EverListed(h, k) || ListsAsset(e.snapshot, k)
  {
    hide ListsAsset;
    if EverListed(h, k) {
      var i :| 0 <= i < |h| && ListsAsset(h[i].snapshot, k);
      assert (h + [e])[i] == h[i];
    }
    if ListsAsset(e.snapshot, k) {
      assert (h + [e])[|h|] == e;
    }
  }

  lemma {:induction false} FixedThreshold(h: seq<Attempt>, k: SourceKey, threshold: int)
    requires forall e :: e in h ==> e.threshold == threshold || (e.threshold < 1 && threshold == 2)
    requires threshold >= 1
    ensures ReachedThreshold(h, k) <==> AbsencesSince(h, k) >= threshold
  {
    if h != [] {
      FixedThreshold(h[..|h| - 1], k, threshold);
      assert h[|h| - 1] in h;
    }
  }

  lemma {:induction false} HistoryOfAttempts(es: seq<Attempt>)
    ensures forall e :: e in History(es) ==> e in es
  {
    if es != [] {
      HistoryOfAttempts(es[..|es| - 1]);
    }
  }

  /** Under one configured threshold, an identity is MISSING exactly when that many committed
      snapshots of its connector, or more, have followed the last one that lists it. */
  lemma MissingAtThreshold(es: seq<Attempt>, threshold: int, k: SourceKey)
    requires threshold >= 1 && (forall e :: e in es ==> e.threshold == threshold)
    requires k in Run(es).sources
    ensures Run(es).sources[k].active <==> Run(es).sources[k].absences < threshold
    ensures Run(es).sources[k].active <==> AbsencesSince(History(es), k) < threshold
  {
    AbsenceCounters(es, k);
    HistoryOfAttempts(es);
    FixedThreshold(History(es), k, threshold);
  }

  /** When none is configured, two such snapshots make an identity MISSING. */
  lemma MissingByDefault(es: seq<Attempt>, k: SourceKey)
    requires (forall e :: e in es ==> e.threshold < 1) && k in Run(es).sources
    ensures Run(es).sources[k].active <==> Run(es).sources[k].absences < 2
    ensures Run(es).sources[k].active <==> AbsencesSince(History(es), k) < 2
  {
    AbsenceCounters(es, k);
    HistoryOfAttempts(es);
    FixedThreshold(History(es), k, 2);
  }

  ghost function RelAbsencesSince(h: seq<Attempt>, q: RelSourceKey): nat {
    if h == [] then 0
    else
      var s, rest := h[|h| - 1].snapshot, h[..|h| - 1];
      if ListsRelationship(s, q) then 0
      else RelAbsencesSince(rest, q) + if Sends(s, q.org, q.connector) then 1 else 0
  }

  ghost predicate EverRelated(h: seq<Attempt>, q: RelSourceKey) {
    exists i :: 0 <= i < |h| && ListsRelationship(h[i].snapshot, q)
  }

  lemma EverRelatedSnoc(h: seq<Attempt>, e: Attempt, q: RelSourceKey)
    ensures EverRelated(h + [e], q) <==> EverRelated(h, q) || ListsRelationship(e.snapshot, q)
  {
    hide ListsRelationship;
    if EverRelated(h, q) {
      var i :| 0 <= i < |h| && ListsRelationship(h[i].snapshot, q);
      assert (h + [e])[i] == h[i];
    }
    if ListsRelationship(e.snapshot, q) {
      assert (h + [e])[|h|] == e;
    }
  }

  ghost predicate RelReachedThreshold(h: seq<Attempt>, q: RelSourceKey) {
    if h == [] then false
    else
      var e, rest := h[|h| - 1], h[..|h| - 1];
      if ListsRelationship(e.snapshot, q) then false
      else if Sends(e.snapshot, q.org, q.connector) then RelReachedThreshold(rest, q)
                                                         || Enough(RelAbsencesSince(h, q), e.threshold)
      else RelReachedThreshold(rest, q)
  }

  lemma NeverRelated(q: RelSourceKey)
    ensures !EverRelated([], q)
  {
  }

  lemma RelatedSnoc(h: seq<Attempt>, e: Attempt, q: RelSourceKey)
    ensures RelAbsencesSince(h + [e], q)
         == if ListsRelationship(e.snapshot, q) then 0
            else if Sends(e.snapshot, q.org, q.connector) then 1 + RelAbsencesSince(h, q) else RelAbsencesSince(h, q)
    ensures RelReachedThreshold(h + [e], q)
       <==> !ListsRelationship(e.snapshot, q)
            && (|| RelReachedThreshold(h, q)
                || (Sends(e.snapshot, q.org, q.connector) && Enough(RelAbsencesSince(h + [e], q), e.threshold)))
  {
    hide ListsRelationship;
    assert (h + [e])[..|h|] == h;
  }

  /** The same for relationship source identities, which are REMOVED instead of MISSING. */
  lemma {:induction false} RelAbsenceCounters(es: seq<Attempt>, q: RelSourceKey)
    ensures q in Run(es).relSources <==> EverRelated(History(es), q)
    ensures q in Run(es).relSources ==>
              && Run(es).relSources[q].absences == RelAbsencesSince(History(es), q)
              && (Run(es).relSources[q].active <==> !RelReachedThreshold(History(es), q))
  {
    hide Apply, ListsRelationship, RelAbsencesSince, RelReachedThreshold, EverRelated;
    if es == [] {
      NeverRelated(q);
    } else {
      hide Inv, Sealed;
      var e, before := es[|es| - 1], es[..|es| - 1];
      RelAbsenceCounters(before, q);
      if Apply(Run(before), e.snapshot, e.threshold).Ok? {
        var u := Apply(Run(before), e.snapshot, e.threshold).value;
        RunInv(before);
        ApplyRelSources(Run(before), e.snapshot, e.threshold, u, q);
        var h := History(before);
        assert History(es) == h + [e];
        EverRelatedSnoc(h, e, q);
        RelatedSnoc(h, e, q);
      }
    }
  }

  lemma {:induction false} FixedRelThreshold(h: seq<Attempt>, q: RelSourceKey, threshold: int)
    requires forall e :: e in h ==> e.threshold == threshold || (e.threshold < 1 && threshold == 2)
    requires threshold >= 1
    ensures RelReachedThreshold(h, q) <==> RelAbsencesSince(h, q) >= threshold
  {
    if h != [] {
      FixedRelThreshold(h[..|h| - 1], q, threshold);
      assert h[|h| - 1] in h;
    }
  }

  /** Under one configured threshold, a relationship source identity is REMOVED exactly when
      that many committed snapshots of its connector, or more, have followed the last one that
      lists it. */
  lemma RemovedAtThreshold(es: seq<Attempt>, threshold: int, q: RelSourceKey)
    requires threshold >= 1 && (forall e :: e in es ==> e.threshold == threshold)
    requires q in Run(es).relSources
    ensures Run(es).relSources[q].active <==> Run(es).relSources[q].absences < threshold
    ensures Run(es).relSources[q].active <==> RelAbsencesSince(History(es), q) < threshold
  {
    RelAbsenceCounters(es, q);
    HistoryOfAttempts(es);
    FixedRelThreshold(History(es), q, threshold);
  }

  /** When none is configured, two such snapshots make it REMOVED. */
  lemma RemovedByDefault(es: seq<Attempt>, q: RelSourceKey)
    requires (forall e :: e in es ==> e.threshold < 1) && q in Run(es).relSources
    ensures Run(es).relSources[q].active <==> Run(es).relSources[q].absences < 2
    ensures Run(es).relSources[q].active <==> RelAbsencesSince(History(es), q) < 2
  {
    RelAbsenceCounters(es, q);
    HistoryOfAttempts(es);
    FixedRelThreshold(History(es), q, 2);
  }
}
