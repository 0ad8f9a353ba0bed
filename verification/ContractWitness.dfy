/** The order of the observations in a snapshot can decide whether it is accepted. */
module ContractWitness {
  import opened Domain
  import opened Tables
  import opened Reconcile
  import opened ReconcileInvariants
  import opened ReconcileSteps
  import opened ReconcileRuns
  import opened ReconcileResolving
  import opened Contract
  import Resolution

  const X := StrongKey("org", "cloud_id", "x")
  const Y := StrongKey("org", "vm_uuid", "y")

  /** An observation with one or both of two strong identifiers. */
  function Sighting(external: string, x: bool, y: bool): Observation {
    Observation(external, "SERVICE", 1, map[], Hints(x, y), "", "OBSERVED")
  }

  function Hints(x: bool, y: bool): map<string, string> {
    (if x then map["cloud_id" := "x"] else map[]) + (if y then map["vm_uuid" := "y"] else map[])
  }

  function Listing(assets: seq<Observation>): Snapshot {
    Snapshot("1.0", "s1", "org", "collector", "connector", 1, 2, 1, assets, [], [], map[])
  }

  /** Two observations with one identifier each, and the one that has both last or first. */
  function BothLast(): Snapshot {
    Listing([Sighting("a", true, false), Sighting("b", false, true), Sighting("c", true, true)])
  }

  function BothFirst(): Snapshot {
    Listing([Sighting("c", true, true), Sighting("a", true, false), Sighting("b", false, true)])
  }

  lemma HintsAt(x: bool, y: bool, key: string)
    ensures key in Hints(x, y) <==> (key == "cloud_id" && x) || (key == "vm_uuid" && y)
    ensures key in Hints(x, y) ==> Hints(x, y)[key] == if key == "cloud_id" then "x" else "y"
    ensures key in Hints(x, y) ==> |Hints(x, y)[key]| == 1 && Resolution.IsVisible(Hints(x, y)[key][0])
  {
    assert "cloud_id"[0] != "vm_uuid"[0];
  }

  lemma OneLetter(v: string)
    requires |v| == 1 && Resolution.IsVisible(v[0])
    ensures Resolution.TrimSpace(v) == v && Resolution.Usable(v)
  {
    Resolution.VisibleKept(v);
  }

  lemma NilText()
    ensures Resolution.TrimSpace(Resolution.NIL_TEXT) == Resolution.NIL_TEXT && !Resolution.Usable(Resolution.NIL_TEXT)
  {
    Resolution.VisibleKept(Resolution.NIL_TEXT);
  }

  lemma HintKept(hints: map<string, string>, key: string)
    requires key in hints ==> Resolution.TrimSpace(hints[key]) == hints[key] && Resolution.Usable(hints[key])
    ensures Resolution.Usable(Resolution.HintText(hints, key)) <==> key in hints
    ensures key in hints ==> Resolution.HintText(hints, key) == hints[key]
  {
    hide Resolution.TrimSpace, Resolution.Usable;
    NilText();
  }

  /** The strong identifiers are the hints. */
  lemma UsableIff(x: bool, y: bool, key: string)
    ensures Resolution.Usable(Resolution.HintText(Hints(x, y), key)) <==> key in Hints(x, y)
    ensures key in Hints(x, y) ==> Resolution.HintText(Hints(x, y), key) == Hints(x, y)[key]
  {
    hide Resolution.TrimSpace, Resolution.Usable, Resolution.HintText, Hints;
    HintsAt(x, y, key);
    if key in Hints(x, y) {
      OneLetter(Hints(x, y)[key]);
    }
    HintKept(Hints(x, y), key);
  }

  lemma IsStrong(key: string)
    requires key in {"cloud_id", "vm_uuid"}
    ensures key in Resolution.STRONG_KEYS
  {
    assert Resolution.STRONG_KEYS[0] == "cloud_id" && Resolution.STRONG_KEYS[3] == "vm_uuid";
  }

  lemma Refs(x: bool, y: bool)
    ensures StrongRefs("org", Hints(x, y)) == (if x then {X} else {}) + (if y then {Y} else {})
  {
    hide Resolution.HintText, Hints, Resolution.Usable, Resolution.STRONG_KEYS;
    var hints := Hints(x, y);
    var ids := Resolution.StrongIdentities(hints);
    forall key ensures key in ids <==> key in hints {
      UsableIff(x, y, key);
      HintsAt(x, y, key);
      if key in hints {
        IsStrong(key);
      }
    }
    assert forall key :: key in ids ==> ids[key] == hints[key] by {
      forall key | key in ids ensures ids[key] == hints[key] {
        UsableIff(x, y, key);
      }
    }
    RefsOfHints(x, y, ids);
  }

  lemma RefsOfHints(x: bool, y: bool, ids: map<string, string>)
    requires ids.Keys == Hints(x, y).Keys && forall key :: key in ids ==> ids[key] == Hints(x, y)[key]
    ensures (set k | k in ids :: StrongKey("org", k, ids[k])) == (if x then {X} else {}) + (if y then {Y} else {})
  {
    hide Hints;
    HintsAt(x, y, "cloud_id");
    HintsAt(x, y, "vm_uuid");
    forall k | k in ids ensures k in {"cloud_id", "vm_uuid"} {
      HintsAt(x, y, k);
    }
    assert "cloud_id"[0] != "vm_uuid"[0];
  }

  lemma SightingOk(external: string, x: bool, y: bool)
    requires 1 <= |external| <= 1024
    ensures ValidObservation(Sighting(external, x, y)) && ShortKeyed(Sighting(external, x, y))
    ensures Sighting(external, x, y).assetType in ASSET_TYPES
  {
    assert Hints(x, y).Keys <= {"cloud_id", "vm_uuid"};
    HintCount(x, y);
  }

  lemma HintCount(x: bool, y: bool)
    ensures |Hints(x, y)| <= 2
  {
    assert Hints(x, y).Keys == (if x then {"cloud_id"} else {}) + (if y then {"vm_uuid"} else {});
  }

  lemma ListingOk(assets: seq<Observation>)
    requires |assets| == 3 && (forall i :: 0 <= i < 3 ==> ValidObservation(assets[i]) && ShortKeyed(assets[i]))
    requires forall i :: 0 <= i < 3 ==> assets[i].assetType in ASSET_TYPES
    requires forall i, j :: 0 <= i < j < 3 ==> assets[i].external != assets[j].external
    ensures ValidContract(Listing(assets)) && Reconcilable(Listing(assets))
  {
    hide ValidObservation, ShortKeyed;
  }

  lemma ShareIff(s: Snapshot, i: nat, j: nat, xs: set<StrongKey>, ys: set<StrongKey>)
    requires i < |s.assets| && j < |s.assets| && RefsOf(s, i) == xs && RefsOf(s, j) == ys
    ensures Shares(s, i, j) <==> exists v :: v in xs && v in ys
  {
    hide RefsOf;
  }

  /** In empty tables the leads come from earlier observations only. */
  lemma EmptyLeads(s: Snapshot, i: nat)
    requires i < |s.assets|
    ensures Leads(EMPTY, s, i) == set j | 0 <= j < i && Shares(s, i, j) :: Resolves(EMPTY, s, j)
  {
    hide Shares, StrongRefs;
    assert Candidates(EMPTY, s, s.assets[i]) == {};
  }

  /** The identifiers that three observations carry. */
  predicate Carry(s: Snapshot, xs: seq<set<StrongKey>>) {
    |s.assets| == |xs| == 3 && forall i :: 0 <= i < 3 ==> RefsOf(s, i) == xs[i]
  }

  lemma BothLastJoins(s: Snapshot)
    requires Carry(s, [{X}, {Y}, {X, Y}]) && s.assets[0].external != s.assets[1].external
    ensures JoinsAt(EMPTY, s, 2)
  {
    hide Leads, Shares, RefsOf;
    ShareIff(s, 1, 0, {Y}, {X});
    ShareIff(s, 2, 0, {X, Y}, {X});
    ShareIff(s, 2, 1, {X, Y}, {Y});
    EmptyLeads(s, 0);
    EmptyLeads(s, 1);
    EmptyLeads(s, 2);
    assert Leads(EMPTY, s, 0) == {} && Leads(EMPTY, s, 1) == {};
    assert Shares(s, 2, 0) && Shares(s, 2, 1);
    assert Resolves(EMPTY, s, 0) in Leads(EMPTY, s, 2) && Resolves(EMPTY, s, 1) in Leads(EMPTY, s, 2);
  }

  lemma BothFirstAgrees(s: Snapshot, i: nat)
    requires i < 3 && Carry(s, [{X, Y}, {X}, {Y}])
    ensures !JoinsAt(EMPTY, s, i)
  {
    hide Leads, Shares, RefsOf, Resolves;
    ShareIff(s, 2, 1, {Y}, {X});
    EmptyLeads(s, i);
    assert forall a :: a in Leads(EMPTY, s, i) ==> a == Resolves(EMPTY, s, 0);
  }

  lemma Carried()
    ensures Carry(BothLast(), [{X}, {Y}, {X, Y}]) && Carry(BothFirst(), [{X, Y}, {X}, {Y}])
  {
    hide StrongRefs, Hints;
    Refs(true, false);
    Refs(false, true);
    Refs(true, true);
  }

  /** Two snapshots with the same observations: rejected where the one with both identifiers comes
      last, because two assets exist by then, and accepted where it comes first. */
  lemma OrderDecides(threshold: int)
    ensures multiset(BothLast().assets) == multiset(BothFirst().assets)
    ensures Apply(EMPTY, BothLast(), threshold).Err? && Apply(EMPTY, BothFirst(), threshold).Ok?
  {
    hide Apply, JoinsAt, ValidContract, Reconcilable, Hints, ValidObservation, ShortKeyed, Inv, Sealed, Carry;
    assert Inv(EMPTY) && Sealed(EMPTY) by { RunInv([]); }
    SightingOk("a", true, false);
    SightingOk("b", false, true);
    SightingOk("c", true, true);
    ListingOk(BothLast().assets);
    ListingOk(BothFirst().assets);
    RejectedIffJoins(EMPTY, BothLast(), threshold);
    RejectedIffJoins(EMPTY, BothFirst(), threshold);
    Carried();
    BothLastJoins(BothLast());
    forall i | 0 <= i < 3 ensures !JoinsAt(EMPTY, BothFirst(), i) {
      BothFirstAgrees(BothFirst(), i);
    }
  }
}
