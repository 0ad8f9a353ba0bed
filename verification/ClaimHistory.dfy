/** Which claims are active, in terms of the committed snapshots. */
module ClaimHistory {
  import opened Domain
  import opened Tables
  import opened Reconcile
  import opened ReconcileInvariants
  import opened ReconcileSteps
  import opened ReconcileRuns
  import opened ReconcileResolving

  type Sources = map<SourceKey, SourceRow>

  /** Where an attribute value was stated: the row identifier of the statement and the value. */
  datatype Statement = Statement(id: ClaimId, value: string)

  /** The attribute of an asset that one connector makes claims about. */
  datatype Slot = Slot(org: string, connector: string, asset: AssetId, key: string)

  function SlotOf(c: ClaimRow): Slot {
    Slot(c.org, c.connector, c.asset, c.key)
  }

  /** Whether observation `o` of snapshot `s` states the attribute, given the bindings. */
  predicate States(sources: Sources, s: Snapshot, o: Observation, slot: Slot) {
    && s.org == slot.org && s.connector == slot.connector && slot.key in o.attributes
    && SourceOf(s, o.external) in sources && sources[SourceOf(s, o.external)].asset == slot.asset
  }

  /** The last statement among the first `n` observations of `s`. */
  ghost function LastIn(sources: Sources, s: Snapshot, n: nat, slot: Slot): Option<Statement>
    requires n <= |s.assets|
  {
    if n == 0 then None
    else
      var o := s.assets[n - 1];
      if States(sources, s, o, slot) then Some(Statement(ClaimId(s.id, o.external, slot.key), o.attributes[slot.key]))
      else LastIn(sources, s, n - 1, slot)
  }

  function OrElse(x: Option<Statement>, y: Option<Statement>): Option<Statement> {
    if x.Some? then x else y
  }

  /** The connector's latest accepted statement of the attribute. */
  ghost function Latest(sources: Sources, h: seq<Attempt>, slot: Slot): Option<Statement> {
    if h == [] then None
    else
      var s := h[|h| - 1].snapshot;
      OrElse(LastIn(sources, s, |s.assets|, slot), Latest(sources, h[..|h| - 1], slot))
  }

  /** Every observation in the history has its source identity in the tables. */
  ghost predicate Known(sources: Sources, h: seq<Attempt>) {
    forall i, j :: 0 <= i < |h| && 0 <= j < |h[i].snapshot.assets| ==>
                     SourceOf(h[i].snapshot, h[i].snapshot.assets[j].external) in sources
  }

  ghost predicate SameBindings(sources: Sources, later: Sources) {
    forall k :: k in sources ==> k in later && later[k].asset == sources[k].asset
  }

  lemma {:induction false} LastInStable(sources: Sources, later: Sources, s: Snapshot, n: nat, slot: Slot)
    requires n <= |s.assets| && SameBindings(sources, later)
    requires forall j :: 0 <= j < n ==> SourceOf(s, s.assets[j].external) in sources
    ensures LastIn(later, s, n, slot) == LastIn(sources, s, n, slot)
  {
    if n > 0 {
      LastInStable(sources, later, s, n - 1, slot);
    }
  }

  lemma {:induction false} LatestStable(sources: Sources, later: Sources, h: seq<Attempt>, slot: Slot)
    requires SameBindings(sources, later) && Known(sources, h)
    ensures Latest(later, h, slot) == Latest(sources, h, slot)
  {
    if h != [] {
      var n := |h| - 1;
      forall i, j | 0 <= i < n && 0 <= j < |h[..n][i].snapshot.assets|
        ensures SourceOf(h[..n][i].snapshot, h[..n][i].snapshot.assets[j].external) in sources
      {
        assert h[..n][i] == h[i];
      }
      LatestStable(sources, later, h[..n], slot);
      LastInStable(sources, later, h[n].snapshot, |h[n].snapshot.assets|, slot);
    }
  }

  /** Every active claim is the latest statement of its attribute, where the first `n`
      observations of `s` follow the history `h`. */
  ghost predicate ActiveIsLatest(t: Tables, h: seq<Attempt>, s: Snapshot, n: nat)
    requires n <= |s.assets|
  {
    forall id :: id in t.claims && t.claims[id].active ==> IsLatest(t, h, s, n, id)
  }

  ghost predicate IsLatest(t: Tables, h: seq<Attempt>, s: Snapshot, n: nat, id: ClaimId)
    requires n <= |s.assets| && id in t.claims
  {
    var slot := SlotOf(t.claims[id]);
    OrElse(LastIn(t.sources, s, n, slot), Latest(t.sources, h, slot)) == Some(Statement(id, t.claims[id].value))
  }

  lemma ObserveLatest(p: Progress, s: Snapshot, n: nat, h: seq<Attempt>, x: Touch, q: Progress)
    requires n < |s.assets| && ActiveIsLatest(p.t, h, s, n) && Known(p.t.sources, h)
    requires forall j :: 0 <= j < n ==> SourceOf(s, s.assets[j].external) in p.t.sources
    requires Accepted(p, s, s.assets[n], x, q)
    ensures ActiveIsLatest(q.t, h, s, n + 1)
  {
    var o := s.assets[n];
    hide Accepted;
    forall id | id in q.t.claims && q.t.claims[id].active ensures IsLatest(q.t, h, s, n + 1, id) {
      ClaimFrame(p, s, o, x, q, id);
      BindingFrame(p, s, o, x, q);
      if id in p.t.claims {
        var slot := SlotOf(p.t.claims[id]);
        assert IsLatest(p.t, h, s, n, id);
        LastInStable(p.t.sources, q.t.sources, s, n, slot);
        LatestStable(p.t.sources, q.t.sources, h, slot);
        NotSuperseded(p, s, o, x, q, id);
      } else {
        assert States(q.t.sources, s, o, SlotOf(q.t.claims[id]));
      }
    }
  }

  lemma BindingFrame(p: Progress, s: Snapshot, o: Observation, x: Touch, q: Progress)
    requires Accepted(p, s, o, x, q)
    ensures SameBindings(p.t.sources, q.t.sources)
    ensures SourceOf(s, o.external) in q.t.sources && q.t.sources[SourceOf(s, o.external)].asset == x.asset
  {
  }

  lemma NotSuperseded(p: Progress, s: Snapshot, o: Observation, x: Touch, q: Progress, id: ClaimId)
    requires Accepted(p, s, o, x, q) && id in p.t.claims && id in q.t.claims && q.t.claims[id].active
    ensures !States(q.t.sources, s, o, SlotOf(p.t.claims[id]))
  {
    ClaimFrame(p, s, o, x, q, id);
    assert !Superseded(p.t.claims[id], s, x.asset, o.attributes.Keys);
  }

  lemma KnownMonotone(sources: Sources, later: Sources, h: seq<Attempt>)
    requires Known(sources, h) && SameBindings(sources, later)
    ensures Known(later, h)
  {
  }

  lemma {:induction false} ObserveAssetsLatest(t: Tables, s: Snapshot, n: nat, h: seq<Attempt>, p: Progress)
    requires n <= |s.assets| && Inv(t) && Known(t.sources, h) && ActiveIsLatest(t, h, s, 0)
    requires ObserveAssets(t, s, n) == Ok(p)
    ensures Inv(p.t) && ActiveIsLatest(p.t, h, s, n) && Known(p.t.sources, h)
    ensures forall j :: 0 <= j < n ==> SourceOf(s, s.assets[j].external) in p.t.sources
  {
    hide Inv, ActiveIsLatest, Known, ObserveAsset, TouchAsset, Observed, Accepted;
    if n > 0 {
      var b := ObserveAssets(t, s, n - 1).value;
      ObserveAssetsLatest(t, s, n - 1, h, b);
      var x := ObserveStep(b, s, s.assets[n - 1], p);
      ObserveLatest(b, s, n - 1, h, x, p);
      BindingFrame(b, s, s.assets[n - 1], x, p);
      KnownMonotone(b.t.sources, p.t.sources, h);
    }
  }

  /** Steps that keep bindings and claim rows and only clear active flags keep the claims latest. */
  lemma LatestFrame(t: Tables, u: Tables, h: seq<Attempt>, s: Snapshot)
    requires ActiveIsLatest(t, h, s, |s.assets|) && Known(t.sources, h)
    requires forall j :: 0 <= j < |s.assets| ==> SourceOf(s, s.assets[j].external) in t.sources
    requires SameBindings(t.sources, u.sources) && u.claims.Keys == t.claims.Keys
    requires forall id :: id in t.claims ==> u.claims[id] == t.claims[id].(active := u.claims[id].active)
    requires forall id :: id in t.claims && u.claims[id].active ==> t.claims[id].active
    ensures ActiveIsLatest(u, h, s, |s.assets|)
  {
    forall id | id in u.claims && u.claims[id].active ensures IsLatest(u, h, s, |s.assets|, id) {
      assert IsLatest(t, h, s, |s.assets|, id);
      var slot := SlotOf(t.claims[id]);
      LastInStable(t.sources, u.sources, s, |s.assets|, slot);
      LatestStable(t.sources, u.sources, h, slot);
    }
  }

  lemma ApplyLatest(t: Tables, e: Attempt, h: seq<Attempt>, u: Progress)
    requires Inv(t) && Sealed(t) && Known(t.sources, h) && ActiveIsLatest(t, h, e.snapshot, 0)
    requires Apply(t, e.snapshot, e.threshold) == Ok(u)
    ensures ActiveIsLatest(u.t, h, e.snapshot, |e.snapshot.assets|) && Known(u.t.sources, h + [e])
  {
    hide Inv, Sealed, ActiveIsLatest, Known, Apply, ObserveAssets, ObserveRelationships, Mid, Listed, Provenance,
      Extends, RelTouched,
      SettleAssets, Gone;
    var s := e.snapshot;
    var p, q := Stages(t, s, e.threshold, u);
    ObserveAssetsLatest(t, s, |s.assets|, h, p);
    MarkedFrame(q, s, Threshold(e.threshold));
    LatestFrame(p.t, u.t, h, s);
    KnownMonotone(p.t.sources, u.t.sources, h);
    KnownSnoc(u.t.sources, h, e);
  }

  lemma MarkedFrame(p: Progress, s: Snapshot, threshold: int)
    ensures var u := MarkMissing(p, s, threshold).t;
            && SameBindings(p.t.sources, u.sources) && u.claims.Keys == p.t.claims.Keys
            && (forall id :: id in p.t.claims ==> u.claims[id] == p.t.claims[id].(active := u.claims[id].active))
            && (forall id :: id in p.t.claims && u.claims[id].active ==> p.t.claims[id].active)
  {
    var sources, expired := MarkFacts(p, s, threshold);
    MarkClaimFrame(p, s, sources, expired, MarkMissingAssets(p, s, threshold));
  }

  lemma KnownSnoc(sources: Sources, h: seq<Attempt>, e: Attempt)
    requires Known(sources, h)
    requires forall j :: 0 <= j < |e.snapshot.assets| ==> SourceOf(e.snapshot, e.snapshot.assets[j].external) in sources
    ensures Known(sources, h + [e])
  {
  }

  ghost predicate LatestInv(t: Tables, h: seq<Attempt>) {
    && Known(t.sources, h)
    && forall id :: id in t.claims && t.claims[id].active ==>
                      Latest(t.sources, h, SlotOf(t.claims[id])) == Some(Statement(id, t.claims[id].value))
  }

  lemma LatestInvStep(t: Tables, h: seq<Attempt>, e: Attempt, u: Progress)
    requires Inv(t) && Sealed(t) && LatestInv(t, h) && Apply(t, e.snapshot, e.threshold) == Ok(u)
    ensures LatestInv(u.t, h + [e])
  {
    hide Inv, Sealed, Apply, Known;
    ApplyLatest(t, e, h, u);
    assert (h + [e])[..|h|] == h;
    forall id | id in u.t.claims && u.t.claims[id].active
      ensures Latest(u.t.sources, h + [e], SlotOf(u.t.claims[id])) == Some(Statement(id, u.t.claims[id].value))
    {
      assert IsLatest(u.t, h, e.snapshot, |e.snapshot.assets|, id);
    }
  }

  lemma {:induction false} RunLatest(es: seq<Attempt>)
    ensures LatestInv(Run(es), History(es))
  {
    if es != [] {
      hide LatestInv, Inv, Sealed, Apply;
      var e, t := es[|es| - 1], Run(es[..|es| - 1]);
      RunLatest(es[..|es| - 1]);
      RunInv(es[..|es| - 1]);
      if Apply(t, e.snapshot, e.threshold).Ok? {
        LatestInvStep(t, History(es[..|es| - 1]), e, Apply(t, e.snapshot, e.threshold).value);
      }
    }
  }

  /** In every reachable state an active claim carries the identifier and value of its
      connector's latest accepted statement of that attribute for that asset, it is the only
      active claim there, and its connector has an ACTIVE identity on the asset. */
  lemma ActiveClaims(es: seq<Attempt>, id: ClaimId)
    requires id in Run(es).claims && Run(es).claims[id].active
    ensures var t := Run(es);
            var c := t.claims[id];
            && Latest(t.sources, History(es), SlotOf(c)) == Some(Statement(id, c.value))
            && (exists k :: k in t.sources && k.org == c.org && k.connector == c.connector && t.sources[k].active
                            && t.sources[k].asset == c.asset)
            && (forall j :: j in t.claims && t.claims[j].active && SlotOf(t.claims[j]) == SlotOf(c) ==> j == id)
  {
    hide Run, Bindings, StatusAgrees, RelBindings, RelStatusAgrees, EvidenceAgrees, Sealed;
    RunLatest(es);
    RunInv(es);
    var t := Run(es);
    forall j | j in t.claims && t.claims[j].active && SlotOf(t.claims[j]) == SlotOf(t.claims[id]) ensures j == id {
      assert SameClaimSlot(t.claims[j], t.claims[id]);
    }
  }

  // ---------- when a claim stops being active ----------

  lemma ObserveKeeps(p: Progress, s: Snapshot, o: Observation, x: Touch, q: Progress, id: ClaimId)
    requires Accepted(p, s, o, x, q) && id in p.t.claims
    ensures id in q.t.claims && SlotOf(q.t.claims[id]) == SlotOf(p.t.claims[id])
    ensures q.t.claims[id].active <==> p.t.claims[id].active && !States(q.t.sources, s, o, SlotOf(p.t.claims[id]))
  {
    ClaimFrame(p, s, o, x, q, id);
    BindingFrame(p, s, o, x, q);
  }

  lemma {:induction false} ObserveAssetsKeep(t: Tables, s: Snapshot, n: nat, p: Progress, id: ClaimId)
    requires n <= |s.assets| && Inv(t) && ObserveAssets(t, s, n) == Ok(p) && id in t.claims && t.claims[id].active
    ensures Inv(p.t) && id in p.t.claims && SlotOf(p.t.claims[id]) == SlotOf(t.claims[id])
    ensures forall j :: 0 <= j < n ==> SourceOf(s, s.assets[j].external) in p.t.sources
    ensures p.t.claims[id].active <==> LastIn(p.t.sources, s, n, SlotOf(t.claims[id])) == None
  {
    hide Inv, ObserveAsset, TouchAsset, Observed, Accepted, States, BindStrong, StrongRefs;
    if n > 0 {
      var b := ObserveAssets(t, s, n - 1).value;
      var slot := SlotOf(t.claims[id]);
      ObserveAssetsKeep(t, s, n - 1, b, id);
      var x := ObserveStep(b, s, s.assets[n - 1], p);
      ObserveKeeps(b, s, s.assets[n - 1], x, p, id);
      BindingFrame(b, s, s.assets[n - 1], x, p);
      LastInStable(b.t.sources, p.t.sources, s, n - 1, slot);
    }
  }

  /** An active claim survives an accepted snapshot exactly when the snapshot does not state
      its attribute again and its connector still has an ACTIVE identity on the asset. */
  lemma ClaimSurvives(t: Tables, s: Snapshot, threshold: int, u: Progress, id: ClaimId)
    requires Inv(t) && Sealed(t) && Apply(t, s, threshold) == Ok(u) && id in t.claims && t.claims[id].active
    ensures var c := t.claims[id];
            id in u.t.claims && (u.t.claims[id].active <==>
                                 && LastIn(u.t.sources, s, |s.assets|, SlotOf(c)) == None
                                 && exists k :: k in u.t.sources && k.org == c.org && k.connector == c.connector
                                                && u.t.sources[k].active && u.t.sources[k].asset == c.asset)
  {
    hide Inv, Sealed, Apply, ObserveAssets, ObserveRelationships, Mid, Listed, Provenance, Extends, RelTouched,
      SettleAssets, Gone, LastIn;
    var p, q := Stages(t, s, threshold, u);
    var slot := SlotOf(t.claims[id]);
    ObserveAssetsKeep(t, s, |s.assets|, p, id);
    MarkedFrame(q, s, Threshold(threshold));
    assert SameBindings(p.t.sources, u.t.sources);
    LastInStable(p.t.sources, u.t.sources, s, |s.assets|, slot);
    ApplyPreserves(t, s, threshold, u);
    if u.t.claims[id].active {
      InvBacked(u.t, id);
    }
    if q.t.claims[id].active {
      RetractedOnlyUnbacked(q, s, Threshold(threshold), id);
    }
  }

  lemma InvBacked(t: Tables, id: ClaimId)
    requires Inv(t) && id in t.claims && t.claims[id].active
    ensures HasActiveSourceOf(t.sources, t.claims[id].org, t.claims[id].connector, t.claims[id].asset)
  {
  }

  lemma RetractedOnlyUnbacked(p: Progress, s: Snapshot, threshold: int, id: ClaimId)
    requires id in p.t.claims && p.t.claims[id].active
    ensures var u := MarkMissing(p, s, threshold).t;
            var c := p.t.claims[id];
            HasActiveSourceOf(u.sources, c.org, c.connector, c.asset) ==> u.claims[id].active
  {
  }

  // ---------- conflicts in terms of statements ----------

  /** Claim `id` is the active claim of the slot and has this value. */
  predicate Claims(claims: map<ClaimId, ClaimRow>, slot: Slot, id: ClaimId, value: string) {
    id in claims && claims[id].active && SlotOf(claims[id]) == slot && claims[id].value == value
  }

  /** The `i`-th observation states the attribute, by what it resolves to. */
  ghost predicate StatedBy(t: Tables, s: Snapshot, i: nat, slot: Slot)
    requires i < |s.assets|
  {
    && s.org == slot.org && s.connector == slot.connector && slot.key in s.assets[i].attributes
    && Resolves(t, s, i) == slot.asset
  }

  /** The last statement among the first `n` observations, by what they resolve to. */
  ghost function LastStated(t: Tables, s: Snapshot, n: nat, slot: Slot): Option<Statement>
    requires n <= |s.assets|
  {
    if n == 0 then None
    else
      var o := s.assets[n - 1];
      if StatedBy(t, s, n - 1, slot)
      then Some(Statement(ClaimId(s.id, o.external, slot.key), o.attributes[slot.key]))
      else LastStated(t, s, n - 1, slot)
  }

  /** What the slot holds after `n` observations: their last statement, or else the active claim before them. */
  ghost predicate Holds(t: Tables, s: Snapshot, n: nat, slot: Slot, value: string)
    requires n <= |s.assets|
  {
    match LastStated(t, s, n, slot)
    case Some(st) => st.value == value
    case None => exists id :: Claims(t.claims, slot, id, value)
  }

  /** Two connectors hold different values for one attribute of `a` after `n` observations. */
  ghost predicate Disagree(t: Tables, s: Snapshot, n: nat, a: AssetId)
    requires n <= |s.assets|
  {
    exists j, k, v, w :: Holds(t, s, n, j, v) && Holds(t, s, n, k, w) && v != w
                         && j.org == k.org == s.org && j.asset == k.asset == a && j.key == k.key
  }

  /** The bindings after the observations give the statements that the prediction gives. */
  lemma {:induction false} LastStatedIs(t: Tables, s: Snapshot, n: nat, sources: Sources, slot: Slot)
    requires n <= |s.assets|
    requires forall i :: 0 <= i < n ==> SourceOf(s, s.assets[i].external) in sources
    requires forall i | 0 <= i < n :: sources[SourceOf(s, s.assets[i].external)].asset == Resolves(t, s, i)
    ensures LastStated(t, s, n, slot) == LastIn(sources, s, n, slot)
  {
    hide Resolves;
    if n > 0 {
      LastStatedIs(t, s, n - 1, sources, slot);
    }
  }

  /** The claims of a slot after an observation that does not state its attribute. */
  lemma UnstatedKept(p: Progress, s: Snapshot, o: Observation, x: Touch, q: Progress, slot: Slot, id: ClaimId,
                     value: string)
    requires Accepted(p, s, o, x, q) && !States(q.t.sources, s, o, slot)
    ensures Claims(q.t.claims, slot, id, value) <==> Claims(p.t.claims, slot, id, value)
  {
    hide Accepted;
    BindingFrame(p, s, o, x, q);
    if id in q.t.claims {
      ClaimFrame(p, s, o, x, q, id);
    }
    if id in p.t.claims {
      ObserveKeeps(p, s, o, x, q, id);
      ClaimFrame(p, s, o, x, q, id);
    }
  }

  lemma StatedHeld(p: Progress, s: Snapshot, o: Observation, x: Touch, q: Progress, slot: Slot)
    requires Accepted(p, s, o, x, q) && States(q.t.sources, s, o, slot)
    ensures Claims(q.t.claims, slot, ClaimId(s.id, o.external, slot.key), o.attributes[slot.key])
  {
    hide BindStrong, StrongRefs, HasConflict;
    var id := ClaimId(s.id, o.external, slot.key);
    assert id in NewClaimIds(s, o, o.attributes.Keys);
  }

  /** Each slot's active claim is the last statement of the observations, or else the one before them. */
  lemma {:induction false} SlotAfter(t: Tables, s: Snapshot, n: nat, p: Progress, slot: Slot)
    requires n <= |s.assets| && Inv(t) && ObserveAssets(t, s, n) == Ok(p)
    ensures Inv(p.t) && forall j :: 0 <= j < n ==> SourceOf(s, s.assets[j].external) in p.t.sources
    ensures match LastIn(p.t.sources, s, n, slot)
            case Some(st) => Claims(p.t.claims, slot, st.id, st.value)
            case None => forall id, value :: Claims(p.t.claims, slot, id, value) <==> Claims(t.claims, slot, id, value)
  {
    hide Inv, ObserveAsset, TouchAsset, Accepted, States, Claims;
    if n > 0 {
      var b, o := ObserveAssets(t, s, n - 1).value, s.assets[n - 1];
      SlotAfter(t, s, n - 1, b, slot);
      var x := ObserveStep(b, s, o, p);
      BindingFrame(b, s, o, x, p);
      LastInStable(b.t.sources, p.t.sources, s, n - 1, slot);
      if States(p.t.sources, s, o, slot) {
        StatedHeld(b, s, o, x, p, slot);
      } else {
        forall id, value ensures Claims(p.t.claims, slot, id, value) <==> Claims(b.t.claims, slot, id, value) {
          UnstatedKept(b, s, o, x, p, slot, id, value);
        }
      }
    }
  }

  lemma HoldsIff(t: Tables, s: Snapshot, n: nat, p: Progress, slot: Slot, value: string)
    requires n <= |s.assets| && Inv(t) && Sealed(t) && s.id !in t.runs && ObserveAssets(t, s, n) == Ok(p)
    ensures Holds(t, s, n, slot, value) <==> exists id :: Claims(p.t.claims, slot, id, value)
  {
    hide Inv, Sealed, ObserveAssets, LastIn, LastStated;
    SlotAfter(t, s, n, p, slot);
    OnlyClaim(p.t, slot);
    forall i | 0 <= i < n ensures p.t.sources[SourceOf(s, s.assets[i].external)].asset == Resolves(t, s, i) {
      ResolvesAsBound(t, s, n, p, i);
    }
    LastStatedIs(t, s, n, p.t.sources, slot);
  }

  lemma OnlyClaim(t: Tables, slot: Slot)
    requires Inv(t)
    ensures forall i, j, v, w :: Claims(t.claims, slot, i, v) && Claims(t.claims, slot, j, w) ==> v == w
  {
    hide Bindings, ClaimsScoped, StatusAgrees, RelBindings, RelStatusAgrees, ClaimsBacked, EvidenceAgrees;
    forall i, j, v, w | Claims(t.claims, slot, i, v) && Claims(t.claims, slot, j, w) ensures v == w {
      assert SameClaimSlot(t.claims[i], t.claims[j]);
    }
  }

  /** The claims on an asset conflict after `n` observations exactly when two connectors then
      hold different values for one of its attributes, which the tables and the snapshot before
      the call decide. */
  lemma ConflictIffDisagree(t: Tables, s: Snapshot, n: nat, p: Progress, a: AssetId)
    requires n <= |s.assets| && Inv(t) && Sealed(t) && s.id !in t.runs && ObserveAssets(t, s, n) == Ok(p)
    ensures HasConflict(p.t.claims, s.org, a) <==> Disagree(t, s, n, a)
  {
    hide Inv, Sealed, ObserveAssets, Holds;
    if HasConflict(p.t.claims, s.org, a) {
      var i, j :| i in p.t.claims && j in p.t.claims
                  && ActiveOn(p.t.claims[i], s.org, a) && ActiveOn(p.t.claims[j], s.org, a)
                  && p.t.claims[i].key == p.t.claims[j].key && p.t.claims[i].value != p.t.claims[j].value;
      var c, d := p.t.claims[i], p.t.claims[j];
      assert Claims(p.t.claims, SlotOf(c), i, c.value) && Claims(p.t.claims, SlotOf(d), j, d.value);
      HoldsIff(t, s, n, p, SlotOf(c), c.value);
      HoldsIff(t, s, n, p, SlotOf(d), d.value);
    }
    if Disagree(t, s, n, a) {
      var j, k, v, w :| Holds(t, s, n, j, v) && Holds(t, s, n, k, w) && v != w
                        && j.org == k.org == s.org && j.asset == k.asset == a && j.key == k.key;
      HoldsIff(t, s, n, p, j, v);
      HoldsIff(t, s, n, p, k, w);
    }
  }

  // ---------- which latest statements are active ----------

  /** Since the connector last stated the attribute, it kept an ACTIVE identity on the asset after
      every committed snapshot. */
  ghost predicate KeptSince(es: seq<Attempt>, slot: Slot) {
    es == [] ||
    var e, before := es[|es| - 1], es[..|es| - 1];
    if Apply(Run(before), e.snapshot, e.threshold).Err? then KeptSince(before, slot)
    else
      && (exists k :: k in Run(es).sources && k.org == slot.org && k.connector == slot.connector
                      && Run(es).sources[k].active && Run(es).sources[k].asset == slot.asset)
      && (LastIn(Run(es).sources, e.snapshot, |e.snapshot.assets|, slot).Some? || KeptSince(before, slot))
  }

  /** `id` is a claim of the slot with this value, active or not. */
  predicate RowOf(claims: map<ClaimId, ClaimRow>, slot: Slot, st: Statement) {
    st.id in claims && SlotOf(claims[st.id]) == slot && claims[st.id].value == st.value
  }

  lemma {:induction false} StaysRetired(t: Tables, s: Snapshot, n: nat, p: Progress, id: ClaimId)
    requires n <= |s.assets| && Inv(t) && ObserveAssets(t, s, n) == Ok(p) && id in t.claims && !t.claims[id].active
    ensures Inv(p.t) && id in p.t.claims && !p.t.claims[id].active
  {
    hide Inv, ObserveAsset, TouchAsset, Accepted, States;
    if n > 0 {
      var b := ObserveAssets(t, s, n - 1).value;
      StaysRetired(t, s, n - 1, b, id);
      var x := ObserveStep(b, s, s.assets[n - 1], p);
      ObserveKeeps(b, s, s.assets[n - 1], x, p, id);
    }
  }

  /** A retired claim stays retired. */
  lemma RetiredForGood(t: Tables, s: Snapshot, threshold: int, u: Progress, id: ClaimId)
    requires Inv(t) && Sealed(t) && Apply(t, s, threshold) == Ok(u) && id in t.claims && !t.claims[id].active
    ensures id in u.t.claims && !u.t.claims[id].active
  {
    hide Inv, Sealed, Apply, ObserveAssets, ObserveRelationships, Mid, Listed, Provenance, Extends, RelTouched,
      MarkMissing;
    var p, q := Stages(t, s, threshold, u);
    StaysRetired(t, s, |s.assets|, p, id);
    MarkedFrame(q, s, Threshold(threshold));
  }

  /** The claim of a statement in the snapshot is active after it exactly when the connector has an
      ACTIVE identity on the asset. */
  lemma StatedStays(t: Tables, s: Snapshot, threshold: int, u: Progress, slot: Slot, st: Statement)
    requires Inv(t) && Sealed(t) && Apply(t, s, threshold) == Ok(u)
    requires LastIn(u.t.sources, s, |s.assets|, slot) == Some(st)
    ensures RowOf(u.t.claims, slot, st)
    ensures u.t.claims[st.id].active <==> HasActiveSourceOf(u.t.sources, slot.org, slot.connector, slot.asset)
  {
    hide Inv, Sealed, Apply, ObserveAssets, ObserveRelationships, Mid, Listed, Provenance, Extends, RelTouched,
      MarkMissing,
      LastIn, HasActiveSourceOf;
    var p, q := Stages(t, s, threshold, u);
    SlotAfter(t, s, |s.assets|, p, slot);
    MarkedFrame(q, s, Threshold(threshold));
    assert SameBindings(p.t.sources, u.t.sources);
    LastInStable(p.t.sources, u.t.sources, s, |s.assets|, slot);
    RetractedOnlyUnbacked(q, s, Threshold(threshold), st.id);
    ApplyPreserves(t, s, threshold, u);
    if u.t.claims[st.id].active {
      InvBacked(u.t, st.id);
    }
  }

  /** One committed snapshot. */
  lemma LatestStep(t: Tables, h: seq<Attempt>, e: Attempt, u: Progress, slot: Slot)
    requires Inv(t) && Sealed(t) && Known(t.sources, h) && Apply(t, e.snapshot, e.threshold) == Ok(u)
    ensures Known(u.t.sources, h + [e])
    ensures var last := LastIn(u.t.sources, e.snapshot, |e.snapshot.assets|, slot);
            Latest(u.t.sources, h + [e], slot) == if last.Some? then last else Latest(t.sources, h, slot)
  {
    hide Inv, Sealed, Apply, Known, LastIn;
    ApplyPreserves(t, e.snapshot, e.threshold, u);
    assert SameBindings(t.sources, u.t.sources);
    LatestStable(t.sources, u.t.sources, h, slot);
    KnownAfter(t, h, e, u);
    assert (h + [e])[..|h|] == h;
  }

  lemma KnownAfter(t: Tables, h: seq<Attempt>, e: Attempt, u: Progress)
    requires Inv(t) && Sealed(t) && Known(t.sources, h) && Apply(t, e.snapshot, e.threshold) == Ok(u)
    ensures Known(u.t.sources, h + [e])
  {
    hide Inv, Sealed, Apply, Extends;
    ApplyPreserves(t, e.snapshot, e.threshold, u);
    assert SameBindings(t.sources, u.t.sources) by { ExtendsBindings(t, u.t); }
    KnownMonotone(t.sources, u.t.sources, h);
    forall j | 0 <= j < |e.snapshot.assets| ensures SourceOf(e.snapshot, e.snapshot.assets[j].external) in u.t.sources {
      var k := SourceOf(e.snapshot, e.snapshot.assets[j].external);
      ApplySources(t, e.snapshot, e.threshold, u, k);
      assert ListsAsset(e.snapshot, k);
    }
    KnownSnoc(u.t.sources, h, e);
  }

  lemma ExtendsBindings(t: Tables, u: Tables)
    requires Extends(t, u)
    ensures SameBindings(t.sources, u.sources)
  {
  }

  lemma {:induction false} RunKnown(es: seq<Attempt>)
    ensures Known(Run(es).sources, History(es))
  {
    hide Known, LatestInv;
    RunLatest(es);
    assert Known(Run(es).sources, History(es)) by { LatestKnown(Run(es), History(es)); }
  }

  lemma LatestKnown(t: Tables, h: seq<Attempt>)
    requires LatestInv(t, h)
    ensures Known(t.sources, h)
  {
  }

  /** In every reachable state the latest accepted statement of an attribute has its claim row, and
      the claim is active exactly when, after every committed snapshot since, the connector had an
      ACTIVE identity on the asset. */
  lemma {:induction false} LatestActiveIff(es: seq<Attempt>, slot: Slot, st: Statement)
    requires Latest(Run(es).sources, History(es), slot) == Some(st)
    ensures RowOf(Run(es).claims, slot, st)
    ensures Run(es).claims[st.id].active <==> KeptSince(es, slot)
  {
    hide Apply, Latest, LastIn, HasActiveSourceOf, RowOf, KeptSince;
    if es == [] {
      assert Latest(Run(es).sources, History(es), slot) == None by { NoLatest(slot); }
    } else {
      var e, before := es[|es| - 1], es[..|es| - 1];
      KeptStep(es, slot);
      if Apply(Run(before), e.snapshot, e.threshold).Err? {
        LatestActiveIff(before, slot, st);
      } else {
        hide Inv, Sealed, Known;
        var u := Apply(Run(before), e.snapshot, e.threshold).value;
        RunInv(before);
        RunKnown(before);
        LatestStep(Run(before), History(before), e, u, slot);
        if LastIn(u.t.sources, e.snapshot, |e.snapshot.assets|, slot).Some? {
          StatedStays(Run(before), e.snapshot, e.threshold, u, slot, st);
        } else {
          LatestActiveIff(before, slot, st);
          UnstatedStays(Run(before), e.snapshot, e.threshold, u, slot, st);
        }
      }
    }
  }

  lemma NoLatest(slot: Slot)
    ensures Latest(Run([]).sources, History([]), slot) == None
  {
  }

  lemma KeptStep(es: seq<Attempt>, slot: Slot)
    requires es != []
    ensures var e, before := es[|es| - 1], es[..|es| - 1];
            KeptSince(es, slot) <==>
            if Apply(Run(before), e.snapshot, e.threshold).Err? then KeptSince(before, slot)
            else
              && HasActiveSourceOf(Run(es).sources, slot.org, slot.connector, slot.asset)
              && (LastIn(Run(es).sources, e.snapshot, |e.snapshot.assets|, slot).Some? || KeptSince(before, slot))
  {
    hide Apply, LastIn, Run;
  }

  /** A claim that the snapshot does not state again. */
  lemma UnstatedStays(t: Tables, s: Snapshot, threshold: int, u: Progress, slot: Slot, st: Statement)
    requires Inv(t) && Sealed(t) && Apply(t, s, threshold) == Ok(u) && RowOf(t.claims, slot, st)
    requires LastIn(u.t.sources, s, |s.assets|, slot) == None
    ensures RowOf(u.t.claims, slot, st)
    ensures u.t.claims[st.id].active <==>
            t.claims[st.id].active && HasActiveSourceOf(u.t.sources, slot.org, slot.connector, slot.asset)
  {
    hide Inv, Sealed, Apply, LastIn;
    ApplyPreserves(t, s, threshold, u);
    if t.claims[st.id].active {
      ClaimSurvives(t, s, threshold, u, st.id);
    } else {
      RetiredForGood(t, s, threshold, u, st.id);
    }
  }
}
