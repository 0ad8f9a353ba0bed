/** When each asset was first and last seen, in terms of the deliveries. */
module InMemoryTimes {
  import opened Domain
  import opened InMemory
  import opened InMemoryRuns
  import opened InMemoryHistory
  import opened InMemoryStatus
  import opened InMemoryChanges

  /** The time of the last delivery that observes the asset. */
  function LastSeen(h: seq<Delivery>, id: string): int {
    if h == [] then 0 else if Observes(h[|h| - 1], id) then h[|h| - 1].now else LastSeen(h[..|h| - 1], id)
  }

  /** The time of the last delivery that reports a new identity of the asset. */
  ghost function FirstSeen(h: seq<Delivery>, id: string): int {
    if h == [] then 0
    else if NewlyReported(h[..|h| - 1], h[|h| - 1], id) then h[|h| - 1].now
    else FirstSeen(h[..|h| - 1], id)
  }

  /** Times after some steps of a delivery. */
  ghost predicate TimesStep(before: map<string, Asset>, d: Delivery, seen: bool, discovered: bool,
                            after: map<string, Asset>, id: string) {
    && AssetAt(after, id).lastSeen == (if seen then d.now else AssetAt(before, id).lastSeen)
    && AssetAt(after, id).firstSeen == (if discovered then d.now else AssetAt(before, id).firstSeen)
  }

  lemma TouchTimes(p: Progress, d: Delivery, o: Observation, id: string)
    requires Named(p.st.bound)
    ensures var own := id == NewAssetId(o.external);
            TimesStep(p.st.assets, d, own, own && KeyOf(d, o.external) !in p.st.bound, Touch(p, d, o).0.st.assets, id)
  {
    hide AddChange, NewAssetId, ChangeAt, ChangeOf;
    var key := KeyOf(d, o.external);
    if key !in p.st.bound {
      var own := NewAssetId(o.external);
      var a := Asset(d.snapshot.org, o.assetType, Active, d.now, d.now, d.now);
      var q := Progress(p.st.(bound := p.st.bound[key := own], assets := p.st.assets[own := a]),
                        p.sum.(created := p.sum.created + 1));
      AddChangeKeeps(q, ChangeAt(d, own, Discovered), ChangeOf(d, Nothing, OfAsset(a)));
    } else {
      var own := p.st.bound[key];
      var a := AssetAt(p.st.assets, own);
      var st := p.st.(assets := p.st.assets[own := a.(lastSeen := d.now, updated := d.now, status := Active)]);
      AddChangeKeeps(p.(st := st), ChangeAt(d, own, Returned), ChangeOf(d, OfStatus(Missing), OfStatus(Active)));
    }
  }

  lemma StatingTimes(p: Progress, d: Delivery, o: Observation, own: string, id: string)
    ensures TimesStep(p.st.assets, d, false, false,
                      StateAttributes(p, d, o, own, o.attributes.Keys).st.assets, id)
  {
    hide StateClaims, Conflicts, AddTo, ChangeAt, ChangeOf;
  }

  lemma {:induction false} ObserveAllTimes(p: Progress, d: Delivery, n: nat, ss: seq<Sighting>, id: string)
    requires n <= |d.snapshot.assets| && Named(p.st.bound) && ClaimsMatch(p.st.claims, ss)
    ensures var q := ObserveAll(p, d, n);
            TimesStep(p.st.assets, d, ObservesBy(d, n, id), NewKey(p.st.bound, q.st.bound, id), q.st.assets, id)
  {
    hide Touch, StateAttributes, NewAssetId, ClaimsMatch, Named, AssetAt, NewKey, StatusStep, KeyOf;
    if n == 0 {
      assert !NewKey(p.st.bound, p.st.bound, id) by { NoNewKey(p.st.bound, id); }
    } else {
      ObserveAllTimes(p, d, n - 1, ss, id);
      ObserveAllStatus(p, d, n - 1, ss);
      var r, o := ObserveAll(p, d, n - 1), d.snapshot.assets[n - 1];
      var key := KeyOf(d, o.external);
      TouchTimes(r, d, o, id);
      var (q, own) := Touch(r, d, o);
      StatingTimes(q.(st := q.st.(absences := q.st.absences[key := 0])), d, o, own, id);
      ObserveKeeps(r, d, o);
      ObserveAllKeeps(p, d, n - 1, key);
      assert key.external == o.external by { KeyNames(d, o); }
      NewKeyStep(p.st.bound, r.st.bound, key, id);
      assert ObservesBy(d, n, id) <==> ObservesBy(d, n - 1, id) || id == NewAssetId(o.external);
    }
  }

  lemma NoNewKey(bound: map<Key, string>, id: string)
    ensures !NewKey(bound, bound, id)
  {
  }

  lemma MarkedTimes(st: State, d: Delivery, id: string)
    ensures TimesStep(AfterAssets(st, d).st.assets, d, false, false, ApplySucceeded(st, d).st.assets, id)
  {
    hide ObserveAll, RelateAll, RemovedBy, Lost, Absent, WithLosses, LossKeys, CountAbsent, RemoveRels, MarkAbsent;
    SameAssets(st, d);
    Phases(st, d);
    MarkLostTimes(AfterRemovals(st, d), d, id);
  }

  lemma MarkLostTimes(q: Progress, d: Delivery, id: string)
    ensures TimesStep(q.st.assets, d, false, false, MarkAbsent(q, d, Absent(q.st, d)).st.assets, id)
  {
    hide Lost, Absent, WithLosses, LossKeys, CountAbsent;
  }

  /** In every reachable state an asset was last seen by the last applied delivery that observes it,
      and counts as first seen by the last one that reports a new identity of it. */
  lemma {:induction false} AssetTimes(ds: seq<Delivery>, id: string)
    ensures AssetAt(Run(ds).assets, id).lastSeen == LastSeen(Applied(ds), id)
    ensures AssetAt(Run(ds).assets, id).firstSeen == FirstSeen(Applied(ds), id)
  {
    hide Run, Applied, ApplySucceeded, Delivered, ClaimsMatch, Named, FromKeys, Kept, AssetAt, NewlyReported, NewKey,
      AfterAssets, ObserveAll;
    if ds == [] {
      NoTimes(id);
    } else {
      var n := |ds| - 1;
      var st, d, h := Run(ds[..n]), ds[n], Applied(ds[..n]);
      AssetTimes(ds[..n], id);
      RunSnoc(ds);
      if d.succeeded && !Delivered(ds[..n], d.snapshot.id) {
        OneMore(ds[..n], d);
        ObserveAllTimes(Progress(st, ZERO_SUMMARY), d, |d.snapshot.assets|, Sightings(h), id);
        DiscoveredIff(ds[..n], d, id);
        MarkedTimes(st, d, id);
        AfterIs(st, d);
        TimesSnoc(h, d, id);
      } else {
        assert Run(ds).assets == st.assets by { SameAssetTable(ds, st); }
      }
    }
  }

  lemma AfterIs(st: State, d: Delivery)
    ensures AfterAssets(st, d) == ObserveAll(Progress(st, ZERO_SUMMARY), d, |d.snapshot.assets|)
  {
    hide ObserveAll;
  }

  lemma SameAssetTable(ds: seq<Delivery>, st: State)
    requires Run(ds).(processed := map[]) == st.(processed := map[])
    ensures Run(ds).assets == st.assets
  {
    hide Run;
  }

  lemma NoTimes(id: string)
    ensures Run([]) == EMPTY && Applied([]) == [] && AssetAt(EMPTY.assets, id).lastSeen == 0
    ensures AssetAt(EMPTY.assets, id).firstSeen == 0
  {
  }

  lemma TimesSnoc(h: seq<Delivery>, d: Delivery, id: string)
    ensures LastSeen(h + [d], id) == if ObservesBy(d, |d.snapshot.assets|, id) then d.now else LastSeen(h, id)
    ensures FirstSeen(h + [d], id) == if NewlyReported(h, d, id) then d.now else FirstSeen(h, id)
  {
    hide NewAssetId, NewlyReported;
    assert (h + [d])[..|h|] == h;
  }
}
