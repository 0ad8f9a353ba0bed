/** What any run of deliveries says about each asset: the claims that are active and the status
    they and the absences lead to. */
module InMemoryStatus {
  import opened Domain
  import opened InMemory
  import opened InMemoryRuns
  import opened InMemoryHistory

  // ---------- what the deliveries say ----------

  /** One observation, with the connector that made it. */
  datatype Sighting = Sighting(connector: string, o: Observation)

  /** The first `n` observations of a delivery. */
  function SightingsOf(d: Delivery, n: nat): seq<Sighting>
    requires n <= |d.snapshot.assets|
  {
    if n == 0 then [] else SightingsOf(d, n - 1) + [Sighting(d.snapshot.connector, d.snapshot.assets[n - 1])]
  }

  /** The observations of some deliveries, in order. */
  function Sightings(h: seq<Delivery>): seq<Sighting> {
    if h == [] then [] else Sightings(h[..|h| - 1]) + SightingsOf(h[|h| - 1], |h[|h| - 1].snapshot.assets|)
  }

  /** The observation is of the asset. */
  predicate Sees(s: Sighting, id: string) {
    NewAssetId(s.o.external) == id
  }

  /** The value that the connector last stated for an attribute of the asset. */
  function Latest(ss: seq<Sighting>, id: string, k: string, connector: string): Option<string> {
    if ss == [] then None
    else
      var s := ss[|ss| - 1];
      if Sees(s, id) && s.connector == connector && k in s.o.attributes then Some(s.o.attributes[k])
      else Latest(ss[..|ss| - 1], id, k, connector)
  }

  /** The attributes that the last observation of the asset states. */
  function LastStated(ss: seq<Sighting>, id: string): Option<set<string>> {
    if ss == [] then None
    else if Sees(ss[|ss| - 1], id) then Some(ss[|ss| - 1].o.attributes.Keys)
    else LastStated(ss[..|ss| - 1], id)
  }

  /** Two connectors last stated different values for the attribute. */
  ghost predicate Disagree(ss: seq<Sighting>, id: string, k: string) {
    exists b, c :: Latest(ss, id, k, b).Some? && Latest(ss, id, k, c).Some?
                   && Latest(ss, id, k, b) != Latest(ss, id, k, c)
  }

  /** Connectors disagree on an attribute that the last observation of the asset states. */
  ghost predicate Contested(ss: seq<Sighting>, id: string) {
    LastStated(ss, id).Some? && exists k :: k in LastStated(ss, id).value && Disagree(ss, id, k)
  }

  /** The last delivery loses the asset: an identity of it is absent, for at least as many
      deliveries in a row as the last one asks for. */
  ghost predicate Loses(h: seq<Delivery>, id: string)
    requires h != []
  {
    exists k :: Expires(h, k, id)
  }

  ghost predicate Expires(h: seq<Delivery>, k: Key, id: string)
    requires h != []
  {
    var d := h[|h| - 1];
    && NewAssetId(k.external) == id && EverReported(h, k) && Owns(d, k) && !Reports(d, k)
    && AbsencesSince(h, k) >= d.threshold
  }

  predicate Observes(d: Delivery, id: string) {
    exists i :: 0 <= i < |d.snapshot.assets| && NewAssetId(d.snapshot.assets[i].external) == id
  }

  /** Some delivery lost the asset and none has observed it since. */
  ghost predicate Gone(h: seq<Delivery>, id: string) {
    exists i :: GoneSince(h, i, id)
  }

  ghost predicate GoneSince(h: seq<Delivery>, i: int, id: string) {
    0 <= i < |h| && Loses(h[..i + 1], id) && forall j :: i < j < |h| ==> !Observes(h[j], id)
  }

  // ---------- claims ----------

  ghost predicate Claimed(cs: seq<Effective.Claim>, connector: string, value: string) {
    exists c :: c in cs && c.active && c.connector == connector && c.value == value
  }

  /** The active claims on one attribute are the latest statements of each connector. */
  ghost predicate SlotMatches(cs: seq<Effective.Claim>, ss: seq<Sighting>, id: string, k: string) {
    && (forall c :: c in cs ==> c.key == k)
    && (forall b, v :: Claimed(cs, b, v) <==> Latest(ss, id, k, b) == Some(v))
  }

  ghost predicate ClaimsMatch(claims: map<Slot, seq<Effective.Claim>>, ss: seq<Sighting>) {
    forall id, k :: SlotMatches(ClaimsAt(claims, Slot(id, k)), ss, id, k)
  }

  lemma LatestSnoc(ss: seq<Sighting>, s: Sighting, id: string, k: string, b: string)
    ensures Latest(ss + [s], id, k, b)
         == if Sees(s, id) && s.connector == b && k in s.o.attributes then Some(s.o.attributes[k])
            else Latest(ss, id, k, b)
  {
    hide Sees;
    assert (ss + [s])[..|ss|] == ss;
  }

  lemma LastStatedSnoc(ss: seq<Sighting>, s: Sighting, id: string)
    ensures LastStated(ss + [s], id) == if Sees(s, id) then Some(s.o.attributes.Keys) else LastStated(ss, id)
  {
    hide Sees;
    assert (ss + [s])[..|ss|] == ss;
  }

  lemma RetireClaims(cs: seq<Effective.Claim>, connector: string, last: Effective.Claim, b: string, v: string)
    requires last.active && last.connector == connector
    ensures Claimed(Retire(cs, connector) + [last], b, v) <==>
            if b == connector then v == last.value else Claimed(cs, b, v)
  {
    var after := Retire(cs, connector) + [last];
    assert after[|cs|] == last;
    if Claimed(after, b, v) {
      var i :| 0 <= i < |after| && after[i].active && after[i].connector == b && after[i].value == v;
      assert i < |cs| ==> after[i] == Retire(cs, connector)[i];
      assert i < |cs| && b != connector ==> after[i] == cs[i];
    }
    if b == connector {
      assert v == last.value ==> last in after;
    } else if Claimed(cs, b, v) {
      var i :| 0 <= i < |cs| && cs[i].active && cs[i].connector == b && cs[i].value == v;
      assert after[i] == cs[i];
    }
  }

  lemma RetireKeys(cs: seq<Effective.Claim>, connector: string, k: string)
    requires forall c :: c in cs ==> c.key == k
    ensures forall c :: c in Retire(cs, connector) ==> c.key == k
  {
    forall c | c in Retire(cs, connector) ensures c.key == k {
      var i :| 0 <= i < |cs| && Retire(cs, connector)[i] == c;
      assert cs[i] in cs;
    }
  }

  /** Stating an attribute makes the observation's value the connector's latest. */
  lemma StatedMatches(claims: map<Slot, seq<Effective.Claim>>, ss: seq<Sighting>, d: Delivery, o: Observation,
                      id: string, k: string)
    requires k in o.attributes && NewAssetId(o.external) == id
    requires SlotMatches(ClaimsAt(claims, Slot(id, k)), ss, id, k)
    ensures SlotMatches(Stated(claims, d, o, id, k), ss + [Sighting(d.snapshot.connector, o)], id, k)
  {
    hide Retire, Latest, Claimed, NewAssetId;
    var cs, s := ClaimsAt(claims, Slot(id, k)), Sighting(d.snapshot.connector, o);
    RetireKeys(cs, d.snapshot.connector, k);
    forall b, v ensures Claimed(Stated(claims, d, o, id, k), b, v) <==> Latest(ss + [s], id, k, b) == Some(v) {
      RetireClaims(cs, d.snapshot.connector, NewClaim(d, o, k), b, v);
      LatestSnoc(ss, s, id, k, b);
    }
  }

  /** An observation leaves the claims on everything it does not state. */
  lemma UnstatedMatches(cs: seq<Effective.Claim>, ss: seq<Sighting>, s: Sighting, id: string, k: string)
    requires SlotMatches(cs, ss, id, k) && !(Sees(s, id) && k in s.o.attributes)
    ensures SlotMatches(cs, ss + [s], id, k)
  {
    hide Latest, Claimed, Sees;
    forall b, v ensures Claimed(cs, b, v) <==> Latest(ss + [s], id, k, b) == Some(v) {
      LatestSnoc(ss, s, id, k, b);
    }
  }

  lemma StateClaimsMatch(claims: map<Slot, seq<Effective.Claim>>, ss: seq<Sighting>, d: Delivery, o: Observation)
    requires ClaimsMatch(claims, ss)
    ensures ClaimsMatch(StateClaims(claims, d, o, NewAssetId(o.external), o.attributes.Keys),
                        ss + [Sighting(d.snapshot.connector, o)])
  {
    hide SlotMatches, Stated, NewAssetId;
    var own, s := NewAssetId(o.external), Sighting(d.snapshot.connector, o);
    var after := StateClaims(claims, d, o, own, o.attributes.Keys);
    forall id, k ensures SlotMatches(ClaimsAt(after, Slot(id, k)), ss + [s], id, k) {
      assert SlotMatches(ClaimsAt(claims, Slot(id, k)), ss, id, k);
      if id == own && k in o.attributes {
        assert Slot(id, k) in SlotsOf(own, o.attributes.Keys);
        StatedMatches(claims, ss, d, o, id, k);
      } else {
        assert Slot(id, k) !in SlotsOf(own, o.attributes.Keys);
        UnstatedMatches(ClaimsAt(claims, Slot(id, k)), ss, s, id, k);
      }
    }
  }

  /** The claims on an attribute conflict exactly when two latest statements differ. */
  lemma ConflictIffDisagree(cs: seq<Effective.Claim>, ss: seq<Sighting>, id: string, k: string,
                            policy: Effective.Policy)
    requires SlotMatches(cs, ss, id, k)
    ensures Effective.EffectiveOf(cs, k, policy).conflict <==> Disagree(ss, id, k)
  {
    hide Effective.EffectiveOf, Latest;
    Effective.AuthorityDecides(cs, k, policy);
    if c, d :| Effective.Counts(cs, k, c) && Effective.Counts(cs, k, d) && c.value != d.value {
      assert Claimed(cs, c.connector, c.value) && Claimed(cs, d.connector, d.value);
    }
    if Disagree(ss, id, k) {
      var b, c :| Latest(ss, id, k, b).Some? && Latest(ss, id, k, c).Some?
                  && Latest(ss, id, k, b) != Latest(ss, id, k, c);
      assert Claimed(cs, b, Latest(ss, id, k, b).value) && Claimed(cs, c, Latest(ss, id, k, c).value);
      var x :| x in cs && x.active && x.connector == b && x.value == Latest(ss, id, k, b).value;
      var y :| y in cs && y.active && y.connector == c && y.value == Latest(ss, id, k, c).value;
      assert Effective.Counts(cs, k, x) && Effective.Counts(cs, k, y);
    }
  }

  lemma ConflictsIffContested(claims: map<Slot, seq<Effective.Claim>>, ss: seq<Sighting>, d: Delivery, o: Observation)
    requires ClaimsMatch(claims, ss)
    ensures var id := NewAssetId(o.external);
            Conflicts(claims, d, o, id, o.attributes.Keys) != {} <==>
            Contested(ss + [Sighting(d.snapshot.connector, o)], id)
  {
    hide Stated, SlotMatches, Disagree, NewAssetId, LastStated;
    var id, s := NewAssetId(o.external), Sighting(d.snapshot.connector, o);
    LastStatedSnoc(ss, s, id);
    forall k | k in o.attributes ensures EffectOf(claims, d, o, id, k).conflict <==> Disagree(ss + [s], id, k) {
      assert SlotMatches(ClaimsAt(claims, Slot(id, k)), ss, id, k);
      StatedMatches(claims, ss, d, o, id, k);
      ConflictIffDisagree(Stated(claims, d, o, id, k), ss + [s], id, k, d.policy);
    }
    hide EffectOf;
    if Contested(ss + [s], id) {
      var k :| k in o.attributes && Disagree(ss + [s], id, k);
      assert k in Conflicts(claims, d, o, id, o.attributes.Keys);
    }
  }

  // ---------- statuses ----------

  /** The status that observations alone lead to. */
  ghost function ObservedStatus(ss: seq<Sighting>, id: string): AssetStatus {
    if Contested(ss, id) then Conflicting else Active
  }

  /** An observation of another asset does not matter. */
  lemma ContestedFrame(ss: seq<Sighting>, s: Sighting, id: string)
    requires !Sees(s, id)
    ensures Contested(ss + [s], id) <==> Contested(ss, id)
  {
    hide Latest, LastStated, Sees;
    LastStatedSnoc(ss, s, id);
    forall k ensures Disagree(ss + [s], id, k) <==> Disagree(ss, id, k) {
      forall b ensures Latest(ss + [s], id, k, b) == Latest(ss, id, k, b) {
        LatestSnoc(ss, s, id, k, b);
      }
      if Disagree(ss, id, k) {
        var b, c :| Latest(ss, id, k, b).Some? && Latest(ss, id, k, c).Some?
                    && Latest(ss, id, k, b) != Latest(ss, id, k, c);
        assert Latest(ss + [s], id, k, b) != Latest(ss + [s], id, k, c);
      }
    }
    hide Disagree;
  }

  /** Every identity is bound to the asset named after it. */
  ghost predicate Named(bound: map<Key, string>) {
    forall k :: k in bound ==> bound[k] == NewAssetId(k.external)
  }

  lemma TouchAssets(p: Progress, d: Delivery, o: Observation)
    requires Named(p.st.bound)
    ensures var q := Touch(p, d, o).0;
            var id := NewAssetId(o.external);
            && Touch(p, d, o).1 == id && id in q.st.assets && q.st.assets[id].status == Active
            && q.st.assets == p.st.assets[id := q.st.assets[id]]
  {
    hide AddChange, NewAssetId, AssetAt, ChangeAt, ChangeOf;
    var key := KeyOf(d, o.external);
    if key !in p.st.bound {
      var id := NewAssetId(o.external);
      var a := Asset(d.snapshot.org, o.assetType, Active, d.now, d.now, d.now);
      var q := Progress(p.st.(bound := p.st.bound[key := id], assets := p.st.assets[id := a]),
                        p.sum.(created := p.sum.created + 1));
      AddChangeKeeps(q, ChangeAt(d, id, Discovered), ChangeOf(d, Nothing, OfAsset(a)));
    } else {
      var id := p.st.bound[key];
      var a := AssetAt(p.st.assets, id);
      var st := p.st.(assets := p.st.assets[id := a.(lastSeen := d.now, updated := d.now, status := Active)]);
      AddChangeKeeps(p.(st := st), ChangeAt(d, id, Returned), ChangeOf(d, OfStatus(Missing), OfStatus(Active)));
    }
  }

  lemma StatingAssets(p: Progress, d: Delivery, o: Observation, id: string)
    requires id in p.st.assets
    ensures var q := StateAttributes(p, d, o, id, o.attributes.Keys);
            && q.st.claims == StateClaims(p.st.claims, d, o, id, o.attributes.Keys)
            && id in q.st.assets && q.st.assets == p.st.assets[id := q.st.assets[id]]
            && q.st.assets[id].status == (if Conflicts(p.st.claims, d, o, id, o.attributes.Keys) != {} then Conflicting
                                          else p.st.assets[id].status)
  {
    hide StateClaims, Conflicts, AddTo, ChangeAt, ChangeOf;
  }

  /** One observation: its asset gets the status that the observations so far lead to. */
  lemma ObserveStatus(p: Progress, d: Delivery, o: Observation, ss: seq<Sighting>)
    requires Named(p.st.bound) && ClaimsMatch(p.st.claims, ss)
    ensures var q := Observe(p, d, o);
            var id, more := NewAssetId(o.external), ss + [Sighting(d.snapshot.connector, o)];
            && Named(q.st.bound) && ClaimsMatch(q.st.claims, more)
            && id in q.st.assets && q.st.assets[id].status == ObservedStatus(more, id)
            && q.st.assets == p.st.assets[id := q.st.assets[id]]
  {
    hide Touch, StateAttributes, NewAssetId, ClaimsMatch, Contested, Conflicts, StateClaims, KeyOf;
    TouchKeeps(p, d, o);
    TouchAssets(p, d, o);
    ObserveKeeps(p, d, o);
    var (q, id) := Touch(p, d, o);
    StatingAssets(q.(st := q.st.(absences := q.st.absences[KeyOf(d, o.external) := 0])), d, o, id);
    StateClaimsMatch(p.st.claims, ss, d, o);
    ConflictsIffContested(p.st.claims, ss, d, o);
    assert Named(Observe(p, d, o).st.bound) by { StillNamed(p.st.bound, d, o); }
  }

  lemma StillNamed(bound: map<Key, string>, d: Delivery, o: Observation)
    requires Named(bound)
    ensures Named(bound[KeyOf(d, o.external) := NewAssetId(o.external)])
  {
    hide NewAssetId;
  }

  predicate ObservesBy(d: Delivery, n: nat, id: string)
    requires n <= |d.snapshot.assets|
  {
    exists i :: 0 <= i < n && NewAssetId(d.snapshot.assets[i].external) == id
  }

  /** The first `n` observations of a delivery. */
  lemma {:induction false} ObserveAllStatus(p: Progress, d: Delivery, n: nat, ss: seq<Sighting>)
    requires n <= |d.snapshot.assets| && Named(p.st.bound) && ClaimsMatch(p.st.claims, ss)
    ensures var q, more := ObserveAll(p, d, n), ss + SightingsOf(d, n);
            && Named(q.st.bound) && ClaimsMatch(q.st.claims, more)
            && forall id :: StatusStep(p.st.assets, d, n, more, q.st.assets, id)
  {
    hide Observe, Named, ClaimsMatch, Contested, ObservesBy, StatusStep;
    if n == 0 {
      assert ss + SightingsOf(d, 0) == ss;
      forall id ensures StatusStep(p.st.assets, d, 0, ss, p.st.assets, id) {
        NoStatusStep(p.st.assets, d, ss, id);
      }
    } else {
      var o, before := d.snapshot.assets[n - 1], ss + SightingsOf(d, n - 1);
      ObserveAllStatus(p, d, n - 1, ss);
      var q := ObserveAll(p, d, n - 1);
      ObserveStatus(q, d, o, before);
      assert before + [Sighting(d.snapshot.connector, o)] == ss + SightingsOf(d, n);
      forall id ensures StatusStep(p.st.assets, d, n, ss + SightingsOf(d, n), Observe(q, d, o).st.assets, id) {
        NextStatusStep(p.st.assets, d, n - 1, before, q.st.assets, Observe(q, d, o).st.assets, id);
      }
    }
  }

  /** Observed assets have the status that the observations lead to; the others are as before. */
  ghost predicate StatusStep(prior: map<string, Asset>, d: Delivery, n: nat, ss: seq<Sighting>,
                             assets: map<string, Asset>,
                             id: string)
    requires n <= |d.snapshot.assets|
  {
    if ObservesBy(d, n, id) then id in assets && assets[id].status == ObservedStatus(ss, id)
    else (id in assets <==> id in prior) && (id in assets ==> assets[id] == prior[id])
  }

  lemma NoStatusStep(assets: map<string, Asset>, d: Delivery, ss: seq<Sighting>, id: string)
    ensures StatusStep(assets, d, 0, ss, assets, id)
  {
  }

  lemma NextStatusStep(prior: map<string, Asset>, d: Delivery, n: nat, ss: seq<Sighting>, before: map<string, Asset>,
                       after: map<string, Asset>, id: string)
    requires n < |d.snapshot.assets| && StatusStep(prior, d, n, ss, before, id)
    requires var own := NewAssetId(d.snapshot.assets[n].external);
             && own in after && after == before[own := after[own]]
             && after[own].status == ObservedStatus(ss + [Sighting(d.snapshot.connector, d.snapshot.assets[n])], own)
    ensures StatusStep(prior, d, n + 1, ss + [Sighting(d.snapshot.connector, d.snapshot.assets[n])], after, id)
  {
    hide NewAssetId, Contested;
    var s := Sighting(d.snapshot.connector, d.snapshot.assets[n]);
    if Sees(s, id) {
      assert ObservesBy(d, n + 1, id);
    } else {
      ContestedFrame(ss, s, id);
      assert ObservesBy(d, n + 1, id) <==> ObservesBy(d, n, id);
    }
  }

  /** An identity of the asset is absent from the delivery and has reached its threshold. */
  ghost predicate Reached(u: State, d: Delivery, id: string) {
    exists k :: k in u.bound && u.bound[k] == id && Owns(d, k) && !Reports(d, k)
                && AbsencesAt(u.absences, k) >= Threshold(d.threshold)
  }

  /** No asset is RETIRED, and every identity has an asset. */
  ghost predicate Kept(st: State) {
    && (forall k :: k in st.bound ==> st.bound[k] in st.assets)
    && (forall id :: id in st.assets ==> st.assets[id].status != Retired)
  }

  /** The last step of a delivery makes exactly the assets with such an identity MISSING. */
  lemma MarkedStatus(q: Progress, d: Delivery, id: string)
    requires Kept(q.st)
    ensures var u := MarkAbsent(q, d, Absent(q.st, d)).st;
            && u.bound == q.st.bound && u.claims == q.st.claims && (id in u.assets <==> id in q.st.assets)
            && (id in u.assets ==>
                  u.assets[id].status == (if Reached(u, d, id) then Missing else q.st.assets[id].status))
  {
    hide SeenKeys, WithLosses, LossKeys, Reports;
    var u := MarkAbsent(q, d, Absent(q.st, d)).st;
    forall k: Key ensures k in Absent(q.st, d) <==> k in q.st.bound && Owns(d, k) && !Reports(d, k) {
      SeenIsReported(d, k);
    }
    hide Absent;
    if Reached(u, d, id) {
      var k :| k in u.bound && u.bound[k] == id && Owns(d, k) && !Reports(d, k)
               && AbsencesAt(u.absences, k) >= Threshold(d.threshold);
      assert k in Absent(q.st, d);
    }
    if id in Lost(q.st, d, Absent(q.st, d)) {
      var k :| k in Absent(q.st, d) && k in q.st.bound && q.st.bound[k] == id
               && AbsencesAt(q.st.absences, k) + 1 >= Threshold(d.threshold);
      assert AbsencesAt(u.absences, k) >= Threshold(d.threshold);
    }
  }

  /** A whole delivery: observations decide, then absences. */
  lemma AppliedStatus(st: State, d: Delivery, id: string)
    requires Kept(ObserveAll(Progress(st, ZERO_SUMMARY), d, |d.snapshot.assets|).st)
    ensures var p, u := ObserveAll(Progress(st, ZERO_SUMMARY), d, |d.snapshot.assets|), ApplySucceeded(st, d).st;
            && u.bound == p.st.bound && u.claims == p.st.claims && (id in u.assets <==> id in p.st.assets)
            && (id in u.assets ==>
                  u.assets[id].status == (if Reached(u, d, id) then Missing else p.st.assets[id].status))
  {
    hide ObserveAll, RelateAll, MarkAbsent, WithoutRels, WithRemovals, RemovalKeys, Reached, SeenRels, Absent, Kept;
    var m := |d.snapshot.relationships|;
    var p := ObserveAll(Progress(st, ZERO_SUMMARY), d, |d.snapshot.assets|);
    RelateAllKeeps(p, d, m, RelKey("", "", "", "", ""));
    var q := RelateAll(p, d, m);
    var r := RemoveRels(q, d, Unlisted(q.st, d, SeenRels(q.st, d, m)));
    assert Kept(r.st) by { KeptSame(p.st, r.st); }
    MarkedStatus(r, d, id);
  }

  lemma KeptSame(st: State, other: State)
    requires Kept(st) && st.bound == other.bound && st.assets == other.assets
    ensures Kept(other)
  {
  }

  // ---------- runs ----------

  /** The status of an asset after the deliveries `h`. */
  ghost function StatusAfter(h: seq<Delivery>, id: string): AssetStatus {
    if Gone(h, id) then Missing else ObservedStatus(Sightings(h), id)
  }

  ghost predicate Sighted(ss: seq<Sighting>, id: string) {
    exists i :: 0 <= i < |ss| && Sees(ss[i], id)
  }

  ghost predicate AssetIs(assets: map<string, Asset>, h: seq<Delivery>, id: string) {
    && (id in assets <==> Sighted(Sightings(h), id))
    && (id in assets ==> assets[id].status == StatusAfter(h, id))
  }

  lemma SightingsSnoc(h: seq<Delivery>, d: Delivery)
    ensures Sightings(h + [d]) == Sightings(h) + SightingsOf(d, |d.snapshot.assets|)
  {
    assert (h + [d])[..|h|] == h;
  }

  lemma {:induction false} SightedMore(ss: seq<Sighting>, d: Delivery, n: nat, id: string)
    requires n <= |d.snapshot.assets|
    ensures Sighted(ss + SightingsOf(d, n), id) <==> Sighted(ss, id) || ObservesBy(d, n, id)
    ensures !ObservesBy(d, n, id) ==> ObservedStatus(ss + SightingsOf(d, n), id) == ObservedStatus(ss, id)
  {
    hide Contested, NewAssetId;
    if n == 0 {
      assert ss + SightingsOf(d, 0) == ss;
    } else {
      var s := Sighting(d.snapshot.connector, d.snapshot.assets[n - 1]);
      SightedMore(ss, d, n - 1, id);
      assert ss + SightingsOf(d, n) == ss + SightingsOf(d, n - 1) + [s];
      SightedSnoc(ss + SightingsOf(d, n - 1), s, id);
      if !Sees(s, id) {
        ContestedFrame(ss + SightingsOf(d, n - 1), s, id);
      }
      assert ObservesBy(d, n, id) <==> ObservesBy(d, n - 1, id) || Sees(s, id);
    }
  }

  lemma SightedSnoc(ss: seq<Sighting>, s: Sighting, id: string)
    ensures Sighted(ss + [s], id) <==> Sighted(ss, id) || Sees(s, id)
  {
    hide Sees;
    assert (ss + [s])[|ss|] == s;
    if i :| 0 <= i < |ss| && Sees(ss[i], id) {
      assert (ss + [s])[i] == ss[i];
    }
  }

  lemma GoneSnoc(h: seq<Delivery>, d: Delivery, id: string)
    ensures Gone(h + [d], id) <==> Loses(h + [d], id) || (Gone(h, id) && !Observes(d, id))
  {
    hide Loses, Observes;
    var all := h + [d];
    assert all[..|h| + 1] == all && all[|h|] == d;
    if Loses(all, id) {
      assert GoneSince(all, |h|, id);
    } else if Gone(all, id) {
      var i :| GoneSince(all, i, id);
      assert i < |h| && !Observes(all[|h|], id);
      forall j | i < j < |h| ensures !Observes(h[j], id) {
        assert all[j] == h[j];
      }
      assert all[..i + 1] == h[..i + 1];
      assert GoneSince(h, i, id);
    } else if Gone(h, id) {
      var i :| GoneSince(h, i, id);
      assert all[..i + 1] == h[..i + 1];
      assert forall j :: i < j < |h| ==> all[j] == h[j];
      assert Observes(d, id) || GoneSince(all, i, id);
    }
  }

  /** An identity that some delivery reports is sighted. */
  lemma {:induction false} ReportedIsSighted(h: seq<Delivery>, k: Key)
    requires EverReported(h, k)
    ensures Sighted(Sightings(h), NewAssetId(k.external))
  {
    hide NewAssetId, Sightings, Sighted;
    var n := |h| - 1;
    var d, id := h[n], NewAssetId(k.external);
    assert h == h[..n] + [d];
    SightingsSnoc(h[..n], d);
    SightedMore(Sightings(h[..n]), d, |d.snapshot.assets|, id);
    if !Reports(d, k) {
      EverReportedSnoc(h[..n], d, k);
      ReportedIsSighted(h[..n], k);
    }
  }

  /** The absences that the state counts are those of the deliveries. */
  lemma ReachedIffLoses(ds: seq<Delivery>, h: seq<Delivery>, d: Delivery, u: State, id: string)
    requires Applied(ds) == h + [d] && Run(ds) == Process(u, d)
    ensures Reached(u, d, id) <==> Loses(h + [d], id)
  {
    hide Run, Applied, EverReported, NewAssetId, Reports, AbsencesSince;
    var all := h + [d];
    assert all[|all| - 1] == d;
    forall k
      ensures k in u.bound <==> EverReported(all, k)
      ensures k in u.bound ==> u.bound[k] == NewAssetId(k.external)
      ensures k in u.bound && Owns(d, k) && !Reports(d, k) ==>
                (AbsencesAt(u.absences, k) >= Threshold(d.threshold) <==> AbsencesSince(all, k) >= d.threshold)
    {
      AbsenceCounters(ds, k);
      AbsencesSnoc(h, d, k);
    }
    if Loses(all, id) {
      var k :| Expires(all, k, id);
      assert k in u.bound;
    }
    if Reached(u, d, id) {
      var k :| k in u.bound && u.bound[k] == id && Owns(d, k) && !Reports(d, k)
               && AbsencesAt(u.absences, k) >= Threshold(d.threshold);
      assert Expires(all, k, id);
    }
  }

  /** Once its observations are in, a delivery meets what its last step needs. */
  lemma KeptAfter(ds: seq<Delivery>, d: Delivery)
    requires ClaimsMatch(Run(ds).claims, Sightings(Applied(ds)))
    requires forall id :: AssetIs(Run(ds).assets, Applied(ds), id)
    ensures Kept(ObserveAll(Progress(Run(ds), ZERO_SUMMARY), d, |d.snapshot.assets|).st)
    ensures Named(Run(ds).bound)
  {
    hide Run, Applied, Sightings, Contested, ClaimsMatch, NewAssetId, ObserveAll, SeenKeys, EverReported, Gone, Sighted,
      SightingsOf;
    var st, n := Run(ds), |d.snapshot.assets|;
    var p := Progress(st, ZERO_SUMMARY);
    forall k | k in st.bound ensures st.bound[k] == NewAssetId(k.external) && st.bound[k] in st.assets {
      AbsenceCounters(ds, k);
      ReportedIsSighted(Applied(ds), k);
      assert AssetIs(st.assets, Applied(ds), st.bound[k]);
    }
    ObserveAllStatus(p, d, n, Sightings(Applied(ds)));
    var q := ObserveAll(p, d, n);
    forall k | k in q.st.bound ensures q.st.bound[k] in q.st.assets {
      ObserveAllKeeps(p, d, n, k);
      SeenObserves(d, k);
      assert StatusStep(st.assets, d, n, Sightings(Applied(ds)) + SightingsOf(d, n), q.st.assets, q.st.bound[k]);
    }
    forall id | id in q.st.assets ensures q.st.assets[id].status != Retired {
      assert StatusStep(st.assets, d, n, Sightings(Applied(ds)) + SightingsOf(d, n), q.st.assets, id);
      assert AssetIs(st.assets, Applied(ds), id);
    }
  }

  lemma SeenObserves(d: Delivery, k: Key)
    ensures k in SeenKeys(d, |d.snapshot.assets|) ==> ObservesBy(d, |d.snapshot.assets|, NewAssetId(k.external))
  {
    hide NewAssetId;
  }

  /** In every reachable state an asset exists exactly when an applied delivery observed it. It is
      MISSING exactly when a delivery lost it that no later one observed; otherwise CONFLICTING
      exactly when connectors disagree on an attribute of its last observation; otherwise ACTIVE.
      The active claims on it are the latest statements of each connector. */
  lemma {:induction false} AssetStates(ds: seq<Delivery>)
    ensures ClaimsMatch(Run(ds).claims, Sightings(Applied(ds)))
    ensures forall id :: AssetIs(Run(ds).assets, Applied(ds), id)
  {
    hide Run, Applied, ApplySucceeded, ClaimsMatch, AssetIs, Delivered;
    if ds == [] {
      NothingSighted();
    } else {
      var n := |ds| - 1;
      var d, h := ds[n], Applied(ds[..n]);
      AssetStates(ds[..n]);
      RunSnoc(ds);
      if d.succeeded && !Delivered(ds[..n], d.snapshot.id) {
        var u := ApplySucceeded(Run(ds[..n]), d).st;
        KeptAfter(ds[..n], d);
        DeliveryStatus(ds, h, d, u);
      } else {
        assert Run(ds).claims == Run(ds[..n]).claims && Run(ds).assets == Run(ds[..n]).assets;
      }
    }
  }

  lemma NothingSighted()
    ensures ClaimsMatch(Run([]).claims, Sightings(Applied([])))
    ensures forall id :: AssetIs(Run([]).assets, Applied([]), id)
  {
    hide Contested, Gone;
  }

  /** One more applied delivery. */
  lemma DeliveryStatus(ds: seq<Delivery>, h: seq<Delivery>, d: Delivery, u: State)
    requires ds != [] && ds[|ds| - 1] == d && Applied(ds[..|ds| - 1]) == h && Applied(ds) == h + [d]
    requires var st := Run(ds[..|ds| - 1]);
             && ClaimsMatch(st.claims, Sightings(h)) && (forall id :: AssetIs(st.assets, h, id)) && Named(st.bound)
             && Kept(ObserveAll(Progress(st, ZERO_SUMMARY), d, |d.snapshot.assets|).st)
             && u == ApplySucceeded(st, d).st && Run(ds) == Process(u, d)
    ensures ClaimsMatch(u.claims, Sightings(h + [d])) && forall id :: AssetIs(u.assets, h + [d], id)
  {
    hide Run, Applied, ApplySucceeded, ClaimsMatch, AssetIs, Named, Kept, ObserveAll, Sightings, SightingsOf, Reached,
      StatusStep;
    var st, m := Run(ds[..|ds| - 1]), |d.snapshot.assets|;
    ObserveAllStatus(Progress(st, ZERO_SUMMARY), d, m, Sightings(h));
    SightingsSnoc(h, d);
    var p := ObserveAll(Progress(st, ZERO_SUMMARY), d, m);
    AppliedStatus(st, d, "");
    forall id ensures AssetIs(u.assets, h + [d], id) {
      AppliedStatus(st, d, id);
      ReachedIffLoses(ds, h, d, u, id);
      assert StatusStep(st.assets, d, m, Sightings(h) + SightingsOf(d, m), p.st.assets, id);
      AssetStep(st.assets, p.st.assets, u.assets, h, d, id);
    }
  }

  lemma AssetStep(before: map<string, Asset>, observed: map<string, Asset>, after: map<string, Asset>,
                  h: seq<Delivery>, d: Delivery, id: string)
    requires AssetIs(before, h, id)
    requires StatusStep(before, d, |d.snapshot.assets|, Sightings(h) + SightingsOf(d, |d.snapshot.assets|), observed,
                        id)
    requires id in after <==> id in observed
    requires id in after ==> after[id].status == if Loses(h + [d], id) then Missing else observed[id].status
    ensures AssetIs(after, h + [d], id)
  {
    hide Contested, Loses, Sightings, SightingsOf, Sighted, Gone, NewAssetId;
    SightingsSnoc(h, d);
    SightedMore(Sightings(h), d, |d.snapshot.assets|, id);
    GoneSnoc(h, d, id);
    assert Observes(d, id) <==> ObservesBy(d, |d.snapshot.assets|, id);
  }

  // ---------- an asset that two connectors report ----------

  function Report(id: string, connector: string, assets: seq<Observation>): Delivery {
    Delivery(Snapshot("1.0", id, "o", "c", connector, 1, 2, 1, assets, [], [], map[]), "", true, map[], 1, 2)
  }

  const SEEN := Observation("x", "SERVICE", 1, map[], map[], "", "OBSERVED")

  /** Two connectors report the same asset, then the first no longer does. */
  function TwoReports(): seq<Delivery> {
    [Report("1", "a", [SEEN]), Report("2", "b", [SEEN]), Report("3", "a", [])]
  }

  lemma TwoApplied()
    ensures Applied(TwoReports()) == TwoReports()
  {
    hide Delivered;
    var ds := TwoReports();
    assert "1"[0] != "2"[0] && "1"[0] != "3"[0] && "2"[0] != "3"[0];
    assert ds[..3] == ds && ds[..2][..1] == ds[..1] && ds[..1][..0] == [];
    assert !Delivered(ds[..0], "1") && !Delivered(ds[..1], "2") && !Delivered(ds[..2], "3") by {
      NotDelivered(ds[..0], "1");
      NotDelivered(ds[..1], "2");
      NotDelivered(ds[..2], "3");
    }
    assert Applied(ds[..0]) == [];
    assert Applied(ds[..1]) == ds[..1];
    assert Applied(ds[..2]) == ds[..2];
  }

  lemma NotDelivered(ds: seq<Delivery>, id: string)
    requires forall i :: 0 <= i < |ds| ==> ds[i].snapshot.id != id
    ensures !Delivered(ds, id)
  {
  }

  /** An absence at one connector makes an asset MISSING although the last delivery of another
      reports it: one identity that expires is enough, whatever the others. */
  lemma MissingWhileReported()
    ensures var ds, id := TwoReports(), NewAssetId("x");
            && id in Run(ds).assets && Run(ds).assets[id].status == Missing
            && Reports(ds[1], Key("o", "b", "x")) && !Owns(ds[2], Key("o", "b", "x"))
  {
    hide Run, NewAssetId, Contested, Sightings, Sighted, Applied, AbsencesSince;
    var ds, id, k := TwoReports(), NewAssetId("x"), Key("o", "a", "x");
    assert "a"[0] != "b"[0];
    TwoApplied();
    AssetStates(ds);
    assert AssetIs(Run(ds).assets, ds, id);
    assert ds[0].snapshot.assets[0].external == "x" && ds[1].snapshot.assets[0].external == "x";
    assert Reports(ds[0], k);
    assert EverReported(ds, k);
    ReportedIsSighted(ds, k);
    OneAbsence(ds, k);
    assert ds[..3] == ds;
    assert Expires(ds[..3], k, id);
    assert GoneSince(ds, 2, id);
  }

  lemma OneAbsence(ds: seq<Delivery>, k: Key)
    requires ds != [] && Owns(ds[|ds| - 1], k) && !Reports(ds[|ds| - 1], k)
    ensures AbsencesSince(ds, k) >= 1
  {
  }
}
