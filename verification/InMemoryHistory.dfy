/** What any run of deliveries leaves in memory, in terms of the deliveries: which identities are
    bound, how often each was absent, and which relationships are ACTIVE. */
module InMemoryHistory {
  import opened Domain
  import opened InMemory
  import opened InMemoryRuns

  // ---------- what the deliveries say ----------

  /** The deliveries that are applied: successful, and the first with their snapshot identifier. */
  function Applied(ds: seq<Delivery>): seq<Delivery> {
    if ds == [] then []
    else
      var n := |ds| - 1;
      Applied(ds[..n]) + (if ds[n].succeeded && !Delivered(ds[..n], ds[n].snapshot.id) then [ds[n]] else [])
  }

  /** The delivery comes from the connector of the identity. */
  predicate Owns(d: Delivery, k: Key) {
    d.snapshot.org == k.org && d.snapshot.connector == k.connector
  }

  predicate Reports(d: Delivery, k: Key) {
    Owns(d, k) && exists i :: 0 <= i < |d.snapshot.assets| && d.snapshot.assets[i].external == k.external
  }

  predicate EverReported(h: seq<Delivery>, k: Key) {
    exists i :: 0 <= i < |h| && Reports(h[i], k)
  }

  /** Deliveries of the identity's connector since the last one that lists it. */
  function AbsencesSince(h: seq<Delivery>, k: Key): nat {
    if h == [] || Reports(h[|h| - 1], k) then 0
    else AbsencesSince(h[..|h| - 1], k) + (if Owns(h[|h| - 1], k) then 1 else 0)
  }

  /** The delivery lists a relationship of this key between identities that its connector has
      listed, in this delivery or before. */
  predicate Relates(h: seq<Delivery>, i: nat, k: RelKey)
    requires i < |h|
  {
    var s := h[i].snapshot;
    && s.org == k.org && s.connector == k.connector
    && exists j :: 0 <= j < |s.relationships| && Names(h[..i + 1], s.relationships[j], k)
  }

  predicate Names(h: seq<Delivery>, r: RelationshipObservation, k: RelKey) {
    && r.relType == k.relType && NewAssetId(r.from) == k.from && NewAssetId(r.to) == k.to
    && EverReported(h, Key(k.org, k.connector, r.from)) && EverReported(h, Key(k.org, k.connector, r.to))
  }

  predicate EverRelated(h: seq<Delivery>, k: RelKey) {
    exists i :: 0 <= i < |h| && Relates(h, i, k)
  }

  /** The last delivery of the key's connector lists the relationship. */
  ghost predicate LastRelates(h: seq<Delivery>, k: RelKey) {
    exists i :: LastAt(h, i, k)
  }

  predicate LastAt(h: seq<Delivery>, i: int, k: RelKey) {
    0 <= i < |h| && Relates(h, i, k) && forall j :: i < j < |h| ==> !OwnsRel(h[j], k)
  }

  /** The delivery comes from the connector of the relationship. */
  predicate OwnsRel(d: Delivery, k: RelKey) {
    d.snapshot.org == k.org && d.snapshot.connector == k.connector
  }

  // ---------- asset names ----------

  predicate Outer(v: string, n: nat, m: nat) {
    n + m <= |v| && (forall i :: 0 <= i < n ==> v[i] == '-') && (forall i :: |v| - m <= i < |v| ==> v[i] == '-')
  }

  lemma {:induction false} TrimmedDashes(v: string) returns (n: nat, m: nat)
    ensures Outer(v, n, m) && TrimDashes(v) == v[n..|v| - m]
    ensures TrimDashes(v) != "" ==> TrimDashes(v)[0] != '-' && TrimDashes(v)[|TrimDashes(v)| - 1] != '-'
    decreases |v|
  {
    n, m := 0, 0;
    if v != "" && v[0] == '-' {
      n, m := TrimmedDashes(v[1..]);
      assert forall i :: 1 <= i < |v| ==> v[i] == v[1..][i - 1];
      n := n + 1;
    } else if v != "" && v[|v| - 1] == '-' {
      n, m := TrimmedDashes(v[..|v| - 1]);
      assert forall i :: 0 <= i < |v| - 1 ==> v[i] == v[..|v| - 1][i];
      m := m + 1;
    }
  }

  /** The text `w` stands for `v` in a name: capitals in lower case, small letters, digits and
      dashes kept, everything else a dash. */
  predicate StandsFor(w: string, v: string) {
    |w| == |v| && forall i :: 0 <= i < |v| ==>
                                && ('A' <= v[i] <= 'Z' ==> w[i] as int == v[i] as int + 32)
                                && ('a' <= v[i] <= 'z' || '0' <= v[i] <= '9' || v[i] == '-' ==> w[i] == v[i])
                                && (!('A' <= v[i] <= 'Z' || 'a' <= v[i] <= 'z' || '0' <= v[i] <= '9') ==> w[i] == '-')
  }

  /** A safe text stands for a part of the original; what is left out at either end would be
      dashes, and no dash is left there. */
  lemma SafeText(v: string) returns (n: nat, m: nat, w: string)
    ensures StandsFor(w, v) && Outer(w, n, m) && Safe(v) == w[n..|w| - m]
    ensures Safe(v) != "" ==> Safe(v)[0] != '-' && Safe(v)[|Safe(v)| - 1] != '-'
  {
    hide TrimDashes;
    w := seq(|v|, i requires 0 <= i < |v| => SafeChar(v[i]));
    n, m := TrimmedDashes(w);
  }

  // ---------- one observation, one relationship ----------

  /** Recording a change touches neither the identities nor the assets. */
  lemma AddChangeKeeps(p: Progress, key: ChangeKey, c: Change)
    ensures var q := AddChange(p, key, c);
            && q.st.bound == p.st.bound && q.st.absences == p.st.absences && q.st.relationships == p.st.relationships
            && q.st.claims == p.st.claims && q.st.assets == p.st.assets && q.st.processed == p.st.processed
  {
    hide AddTo, Bit;
  }

  lemma TouchKeeps(p: Progress, d: Delivery, o: Observation)
    ensures var q := Touch(p, d, o).0;
            var key := KeyOf(d, o.external);
            && q.st.bound == (if key in p.st.bound then p.st.bound else p.st.bound[key := NewAssetId(o.external)])
            && q.st.absences == p.st.absences && q.st.relationships == p.st.relationships
            && q.st.claims == p.st.claims && Touch(p, d, o).1 == q.st.bound[key]
  {
    hide AddChange, NewAssetId, AssetAt, ChangeAt, ChangeOf, KeyOf;
    var key := KeyOf(d, o.external);
    if key !in p.st.bound {
      var id := NewAssetId(o.external);
      var a := Asset(d.snapshot.org, o.assetType, Active, d.now, d.now, d.now);
      var q := Progress(p.st.(bound := p.st.bound[key := id], assets := p.st.assets[id := a]),
                        p.sum.(created := p.sum.created + 1));
      AddChangeKeeps(q, ChangeAt(d, id, Discovered), ChangeOf(d, Nothing, OfAsset(a)));
    } else {
      var id := p.st.bound[key];
      var a := AssetAt(p.st.assets, id);
      var st := p.st.(assets := p.st.assets[id := a.(lastSeen := d.now, updated := d.now, status := Active)]);
      AddChangeKeeps(p.(st := st), ChangeAt(d, id, Returned), ChangeOf(d, OfStatus(Missing), OfStatus(Active)));
    }
  }

  lemma StatingKeeps(p: Progress, d: Delivery, o: Observation, id: string)
    ensures var q := StateAttributes(p, d, o, id, o.attributes.Keys);
            q.st.bound == p.st.bound && q.st.absences == p.st.absences && q.st.relationships == p.st.relationships
  {
    hide StateClaims, Conflicts, SetConflicting, AddTo, ChangeAt, ChangeOf;
  }

  lemma ObserveKeeps(p: Progress, d: Delivery, o: Observation)
    ensures var q := Observe(p, d, o);
            var key := KeyOf(d, o.external);
            && q.st.bound == (if key in p.st.bound then p.st.bound else p.st.bound[key := NewAssetId(o.external)])
            && q.st.absences == p.st.absences[key := 0] && q.st.relationships == p.st.relationships
  {
    hide Touch, StateAttributes, NewAssetId, KeyOf;
    TouchKeeps(p, d, o);
    var (q, id) := Touch(p, d, o);
    StatingKeeps(q.(st := q.st.(absences := q.st.absences[KeyOf(d, o.external) := 0])), d, o, id);
  }

  lemma {:induction false} ObserveAllKeeps(p: Progress, d: Delivery, n: nat, k: Key)
    requires n <= |d.snapshot.assets|
    ensures var q := ObserveAll(p, d, n);
            && q.st.relationships == p.st.relationships
            && (k in q.st.bound <==> k in p.st.bound || k in SeenKeys(d, n))
            && (k in p.st.bound ==> q.st.bound[k] == p.st.bound[k])
            && (k in q.st.bound && k !in p.st.bound ==> q.st.bound[k] == NewAssetId(k.external))
            && (k in SeenKeys(d, n) ==> k in q.st.absences && q.st.absences[k] == 0)
            && (k !in SeenKeys(d, n) ==> AbsencesAt(q.st.absences, k) == AbsencesAt(p.st.absences, k))
            && (k !in SeenKeys(d, n) ==> (k in q.st.absences <==> k in p.st.absences))
  {
    hide Observe, NewAssetId;
    if n > 0 {
      ObserveAllKeeps(p, d, n - 1, k);
      ObserveKeeps(ObserveAll(p, d, n - 1), d, d.snapshot.assets[n - 1]);
      InMemoryStore.SeenKeysStep(d, n - 1);
    }
  }

  /** Relating changes relationships and changes only. */
  predicate RelatesOnly(p: Progress, q: Progress) {
    && q.st.bound == p.st.bound && q.st.absences == p.st.absences && q.st.assets == p.st.assets
    && q.st.claims == p.st.claims && q.st.processed == p.st.processed
  }

  lemma RelateKeeps(p: Progress, d: Delivery, r: RelationshipObservation, k: RelKey)
    ensures var q := Relate(p, d, r);
            && RelatesOnly(p, q)
            && (k in q.st.relationships <==> k in p.st.relationships || RelKeyOf(p.st, d, r) == Some(k))
            && (RelKeyOf(p.st, d, r) == Some(k) ==> q.st.relationships[k].active)
            && (k in p.st.relationships && RelKeyOf(p.st, d, r) != Some(k) ==>
                  q.st.relationships[k] == p.st.relationships[k])
  {
    hide AddChange, ChangeAt, ChangeOf, RelKeyOf;
    match RelKeyOf(p.st, d, r) {
      case None =>
      case Some(key) =>
        if key !in p.st.relationships {
          var rel := Relationship(key.from, true, d.now, d.now, d.now);
          var q := Progress(p.st.(relationships := p.st.relationships[key := rel]),
                            p.sum.(relationshipsCreated := p.sum.relationshipsCreated + 1));
          AddChangeKeeps(q, ChangeAt(d, key.from, RelationshipAdded), ChangeOf(d, Nothing, OfRelationship(rel)));
        }
    }
  }

  lemma {:induction false} RelateAllKeeps(p: Progress, d: Delivery, n: nat, k: RelKey)
    requires n <= |d.snapshot.relationships|
    ensures var q := RelateAll(p, d, n);
            && RelatesOnly(p, q)
            && (k in q.st.relationships <==> k in p.st.relationships || k in SeenRels(p.st, d, n))
            && (k in SeenRels(p.st, d, n) ==> q.st.relationships[k].active)
            && (k in p.st.relationships && k !in SeenRels(p.st, d, n) ==>
                  q.st.relationships[k] == p.st.relationships[k])
  {
    hide Relate, RelKeyOf;
    if n > 0 {
      RelateAllKeeps(p, d, n - 1, k);
      var q := RelateAll(p, d, n - 1);
      RelateKeeps(q, d, d.snapshot.relationships[n - 1], k);
      InMemoryStore.SeenRelsStep(p.st, q.st, d, n - 1);
    }
  }

  // ---------- one delivery ----------

  /** The identities and counters after a delivery. */
  lemma AppliedKey(st: State, d: Delivery, k: Key)
    ensures var u := ApplySucceeded(st, d).st;
            && (k in u.bound <==> k in st.bound || Reports(d, k))
            && (k in st.bound ==> u.bound[k] == st.bound[k])
            && (k in u.bound && k !in st.bound ==> u.bound[k] == NewAssetId(k.external))
            && (Reports(d, k) ==> AbsencesAt(u.absences, k) == 0)
            && (!Reports(d, k) && k in st.bound ==>
                  AbsencesAt(u.absences, k) == AbsencesAt(st.absences, k) + if Owns(d, k) then 1 else 0)
  {
    hide ObserveAll, RelateAll, NewAssetId, RelKeyOf, Lost, WithoutRels, WithRemovals, RemovalKeys, MarkLost,
      WithLosses, LossKeys;
    var n, m := |d.snapshot.assets|, |d.snapshot.relationships|;
    var p := ObserveAll(Progress(st, ZERO_SUMMARY), d, n);
    ObserveAllKeeps(Progress(st, ZERO_SUMMARY), d, n, k);
    RelateAllKeeps(p, d, m, RelKey("", "", "", "", ""));
    SeenIsReported(d, k);
  }

  lemma SeenIsReported(d: Delivery, k: Key)
    ensures k in SeenKeys(d, |d.snapshot.assets|) <==> Reports(d, k)
  {
    if Reports(d, k) {
      var i :| 0 <= i < |d.snapshot.assets| && d.snapshot.assets[i].external == k.external;
      assert KeyOf(d, d.snapshot.assets[i].external) == k;
    }
  }

  /** The relationships after a delivery, given the bindings after it. */
  lemma AppliedRel(st: State, d: Delivery, k: RelKey)
    ensures var u := ApplySucceeded(st, d).st;
            var seen := SeenRels(u, d, |d.snapshot.relationships|);
            && (k in u.relationships <==> k in st.relationships || k in seen)
            && (k in seen ==> u.relationships[k].active)
            && (k in st.relationships && k !in seen ==>
                  (u.relationships[k].active <==>
                   st.relationships[k].active && !OwnsRel(d, k)))
  {
    hide ObserveAll, RelateAll, RelKeyOf, Lost, WithRemovals, RemovalKeys, MarkLost, WithLosses, LossKeys, SeenKeys,
      CountAbsent;
    var n, m := |d.snapshot.assets|, |d.snapshot.relationships|;
    var p := ObserveAll(Progress(st, ZERO_SUMMARY), d, n);
    ObserveAllKeeps(Progress(st, ZERO_SUMMARY), d, n, Key("", "", ""));
    RelateAllKeeps(p, d, m, k);
    var q := RelateAll(p, d, m);
    InMemoryStore.SeenRelsSame(p.st, q.st, d, m);
    InMemoryStore.SeenRelsSame(p.st, ApplySucceeded(st, d).st, d, m);
  }

  /** What one more delivery does to a run. */
  lemma RunSnoc(ds: seq<Delivery>)
    requires ds != []
    ensures var n := |ds| - 1;
            var st, d := Run(ds[..n]), ds[n];
            if d.succeeded && !Delivered(ds[..n], d.snapshot.id)
            then Run(ds) == Process(ApplySucceeded(st, d).st, d) && Applied(ds) == Applied(ds[..n]) + [d]
            else Run(ds).(processed := map[]) == st.(processed := map[]) && Applied(ds) == Applied(ds[..n])
  {
    hide ApplySucceeded, Delivered;
    ProcessedIsDelivered(ds[..|ds| - 1], ds[|ds| - 1].snapshot.id);
  }

  // ---------- identities ----------

  lemma EverReportedSnoc(h: seq<Delivery>, d: Delivery, k: Key)
    ensures EverReported(h + [d], k) <==> EverReported(h, k) || Reports(d, k)
  {
    hide Reports;
    if EverReported(h, k) {
      var i :| 0 <= i < |h| && Reports(h[i], k);
      assert (h + [d])[i] == h[i];
    }
    assert (h + [d])[|h|] == d;
  }

  lemma AbsencesSnoc(h: seq<Delivery>, d: Delivery, k: Key)
    ensures AbsencesSince(h + [d], k)
         == if Reports(d, k) then 0 else AbsencesSince(h, k) + if Owns(d, k) then 1 else 0
  {
    hide Reports;
    assert (h + [d])[..|h|] == h;
  }

  /** In every reachable state, an identity is bound exactly when an applied delivery listed it,
      to the asset named after it; and its counter is the number of applied deliveries of its
      connector since the last one that listed it. */
  lemma {:induction false} AbsenceCounters(ds: seq<Delivery>, k: Key)
    ensures k in Run(ds).bound <==> EverReported(Applied(ds), k)
    ensures k in Run(ds).bound ==>
              && Run(ds).bound[k] == NewAssetId(k.external)
              && AbsencesAt(Run(ds).absences, k) == AbsencesSince(Applied(ds), k)
  {
    hide Run, Applied, EverReported, AbsencesSince, Reports, NewAssetId, ApplySucceeded;
    if ds == [] {
      NothingYet(k);
    } else {
      var n := |ds| - 1;
      AbsenceCounters(ds[..n], k);
      RunSnoc(ds);
      if ds[n].succeeded && !Delivered(ds[..n], ds[n].snapshot.id) {
        AppliedKey(Run(ds[..n]), ds[n], k);
        EverReportedSnoc(Applied(ds[..n]), ds[n], k);
        AbsencesSnoc(Applied(ds[..n]), ds[n], k);
      } else {
        assert Run(ds).bound == Run(ds[..n]).bound && Run(ds).absences == Run(ds[..n]).absences;
      }
    }
  }

  lemma NothingYet(k: Key)
    ensures Run([]) == EMPTY && Applied([]) == [] && !EverReported([], k)
  {
  }

  // ---------- relationships ----------

  /** The keys that a delivery sees, given the identities bound after it, are those it relates. */
  lemma SeenIsRelated(h: seq<Delivery>, d: Delivery, u: State, k: RelKey)
    requires forall x :: x in u.bound <==> EverReported(h + [d], x)
    requires forall x :: x in u.bound ==> u.bound[x] == NewAssetId(x.external)
    ensures k in SeenRels(u, d, |d.snapshot.relationships|) <==> Relates(h + [d], |h|, k)
  {
    hide EverReported, NewAssetId;
    var all := h + [d];
    assert all[..|h| + 1] == all && all[|h|] == d;
    forall i | 0 <= i < |d.snapshot.relationships|
      ensures RelKeyOf(u, d, d.snapshot.relationships[i]) == Some(k) <==>
              && d.snapshot.org == k.org && d.snapshot.connector == k.connector
              && Names(all, d.snapshot.relationships[i], k)
    {
      SeenNames(all, d, u, d.snapshot.relationships[i], k);
    }
    if k in SeenRels(u, d, |d.snapshot.relationships|) {
      var i :| 0 <= i < |d.snapshot.relationships| && RelKeyOf(u, d, d.snapshot.relationships[i]) == Some(k);
      assert Names(all, d.snapshot.relationships[i], k);
    }
    if Relates(all, |h|, k) {
      var i :| 0 <= i < |d.snapshot.relationships| && Names(all, d.snapshot.relationships[i], k);
      assert RelKeyOf(u, d, d.snapshot.relationships[i]) == Some(k);
    }
  }

  lemma SeenNames(all: seq<Delivery>, d: Delivery, u: State, r: RelationshipObservation, k: RelKey)
    requires forall x :: x in u.bound <==> EverReported(all, x)
    requires forall x :: x in u.bound ==> u.bound[x] == NewAssetId(x.external)
    ensures RelKeyOf(u, d, r) == Some(k) <==>
            d.snapshot.org == k.org && d.snapshot.connector == k.connector && Names(all, r, k)
  {
    hide EverReported, NewAssetId;
  }

  lemma RelatesPrefix(h: seq<Delivery>, d: Delivery, i: nat, k: RelKey)
    requires i < |h|
    ensures Relates(h + [d], i, k) <==> Relates(h, i, k)
  {
    hide Names;
    assert (h + [d])[..i + 1] == h[..i + 1] && (h + [d])[i] == h[i];
  }

  lemma EverRelatedSnoc(h: seq<Delivery>, d: Delivery, k: RelKey)
    ensures EverRelated(h + [d], k) <==> EverRelated(h, k) || Relates(h + [d], |h|, k)
  {
    hide Relates;
    var all := h + [d];
    forall i | 0 <= i < |h| ensures Relates(all, i, k) <==> Relates(h, i, k) {
      RelatesPrefix(h, d, i, k);
    }
    if EverRelated(h, k) {
      var i :| 0 <= i < |h| && Relates(h, i, k);
      assert Relates(all, i, k);
    }
  }

  lemma LastRelatesSnoc(h: seq<Delivery>, d: Delivery, k: RelKey)
    ensures LastRelates(h + [d], k) <==> if OwnsRel(d, k) then Relates(h + [d], |h|, k) else LastRelates(h, k)
  {
    hide Relates, OwnsRel;
    var all := h + [d];
    assert all[|h|] == d;
    if Relates(all, |h|, k) {
      RelatesOwn(all, |h|, k);
      assert LastAt(all, |h|, k);
    } else if LastRelates(all, k) {
      var i :| LastAt(all, i, k);
      RelatesPrefix(h, d, i, k);
      assert LastAt(h, i, k) by {
        forall j | i < j < |h| ensures !OwnsRel(h[j], k) {
          assert all[j] == h[j];
        }
      }
    }
    if LastRelates(h, k) && !OwnsRel(d, k) {
      var i :| LastAt(h, i, k);
      RelatesPrefix(h, d, i, k);
      assert LastAt(all, i, k);
    }
  }

  /** In every reachable state, a relationship exists exactly when an applied delivery listed it,
      and is ACTIVE exactly when the last applied delivery of its connector did. */
  lemma {:induction false} RelationshipStates(ds: seq<Delivery>, k: RelKey)
    ensures k in Run(ds).relationships <==> EverRelated(Applied(ds), k)
    ensures k in Run(ds).relationships ==> (Run(ds).relationships[k].active <==> LastRelates(Applied(ds), k))
  {
    hide Run, Applied, EverRelated, LastRelates, ApplySucceeded, Relates, SeenRels;
    if ds == [] {
      NothingRelated(k);
    } else {
      var n := |ds| - 1;
      var d, h := ds[n], Applied(ds[..n]);
      RelationshipStates(ds[..n], k);
      RunSnoc(ds);
      if d.succeeded && !Delivered(ds[..n], d.snapshot.id) {
        var u := ApplySucceeded(Run(ds[..n]), d).st;
        AppliedRel(Run(ds[..n]), d, k);
        SeenHere(ds, h, d, u, k);
        EverRelatedSnoc(h, d, k);
        LastRelatesSnoc(h, d, k);
        if Relates(h + [d], |h|, k) {
          RelatesOwn(h + [d], |h|, k);
          assert (h + [d])[|h|] == d;
        }
        assert Run(ds).relationships == u.relationships;
      } else {
        assert Run(ds).relationships == Run(ds[..n]).relationships;
      }
    }
  }

  lemma RelatesOwn(h: seq<Delivery>, i: nat, k: RelKey)
    requires i < |h| && Relates(h, i, k)
    ensures OwnsRel(h[i], k)
  {
  }

  lemma SeenHere(ds: seq<Delivery>, h: seq<Delivery>, d: Delivery, u: State, k: RelKey)
    requires Applied(ds) == h + [d] && Run(ds) == Process(u, d)
    ensures k in SeenRels(u, d, |d.snapshot.relationships|) <==> Relates(h + [d], |h|, k)
  {
    hide Run, Applied, EverReported, NewAssetId, Relates, SeenRels;
    forall x ensures x in u.bound <==> EverReported(h + [d], x)
      ensures x in u.bound ==> u.bound[x] == NewAssetId(x.external)
    {
      AbsenceCounters(ds, x);
    }
    SeenIsRelated(h, d, u, k);
  }

  lemma NothingRelated(k: RelKey)
    ensures Run([]) == EMPTY && Applied([]) == [] && !EverRelated([], k)
  {
  }
}
