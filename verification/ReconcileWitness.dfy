/** Runs that show the MISSING counter exceeding the assets that became MISSING, an asset coming
    back without an ASSET_RETURNED row, and the change counter exceeding the rows written. */
module ReconcileWitness {
  import opened Domain
  import opened Tables
  import opened Reconcile
  import opened ReconcileInvariants
  import opened ReconcileSteps
  import opened ReconcileRuns
  import opened ReconcileMentions
  import opened ReconcileSummary
  import opened ReconcileReturns
  import opened ReconcileChanges
  import opened Contract
  import Resolution

  const HINTS: map<string, string> := map["cloud_id" := "x"]

  function Sighting(external: string): Observation {
    Observation(external, "SERVICE", 1, map[], HINTS, "", "OBSERVED")
  }

  function Sightings(externals: seq<string>): seq<Observation> {
    seq(|externals|, i requires 0 <= i < |externals| => Sighting(externals[i]))
  }

  function Lists(id: string, sequence: int, externals: seq<string>): Snapshot {
    Snapshot("1.0", id, "org", "collector", "connector", 1, 2, sequence, Sightings(externals), [], [], map[])
  }

  /** Two identities of one asset, then nothing, then a third identity of that asset. */
  function First(): Snapshot { Lists("s1", 1, ["a", "b"]) }

  function Second(): Snapshot { Lists("s2", 2, []) }

  function Third(): Snapshot { Lists("s3", 3, ["d"]) }

  function Key(external: string): SourceKey { SourceKey("org", "connector", external) }

  const A := AssetId("org", "connector", "a")

  lemma HintIsKept(v: string)
    requires |v| == 1 && Resolution.IsVisible(v[0])
    ensures Resolution.TrimSpace(v) == v && Resolution.Usable(v)
  {
    hide Resolution.IsVisible;
    Resolution.VisibleKept(v);
  }

  lemma HintIsStrong()
    ensures StrongKey("org", "cloud_id", "x") in StrongRefs("org", HINTS)
  {
    hide Resolution.TrimSpace, Resolution.Usable;
    HintIsKept("x");
    assert Resolution.STRONG_KEYS[0] == "cloud_id";
    assert Resolution.HintText(HINTS, "cloud_id") == "x";
    assert "cloud_id" in Resolution.StrongIdentities(HINTS);
  }

  lemma SightingOk(external: string)
    requires 1 <= |external| <= 1024
    ensures ValidObservation(Sighting(external)) && Sighting(external).assetType in ASSET_TYPES
    ensures ShortKeyed(Sighting(external))
  {
  }

  lemma ListsOk(id: string, sequence: int, externals: seq<string>)
    requires 1 <= |id| <= 160 && sequence >= 1 && |externals| <= 2
    requires (forall i :: 0 <= i < |externals| ==> 1 <= |externals[i]| <= 1024)
    requires |externals| == 2 ==> externals[0] != externals[1]
    ensures ValidContract(Lists(id, sequence, externals)) && Reconcilable(Lists(id, sequence, externals))
  {
    hide ValidObservation, ShortKeyed, Sighting;
    var s := Lists(id, sequence, externals);
    forall i | 0 <= i < |s.assets| ensures ValidObservation(s.assets[i]) && s.assets[i].assetType in ASSET_TYPES
                                           && ShortKeyed(s.assets[i]) {
      SightingOk(externals[i]);
    }
    assert DistinctExternals(s, |s.assets|) by { SightingNames(externals); }
  }

  lemma SightingNames(externals: seq<string>)
    ensures forall i :: 0 <= i < |externals| ==> Sighting(externals[i]).external == externals[i]
  {
  }

  /** The only asset so far is A, and every strong value is bound to it. */
  ghost predicate OnlyA(t: Tables, externals: set<string>) {
    && t.assets.Keys == {A}
    && t.sources.Keys == (set e | e in externals :: Key(e)) && (forall k :: k in t.sources ==> t.sources[k].asset == A)
    && StrongRefs("org", HINTS) <= t.strong.Keys && (forall v :: v in t.strong ==> t.strong[v] == A)
  }

  lemma FirstSighting(s: Snapshot, p: Progress, q: Progress)
    requires s.org == "org" && s.connector == "connector" && p.t.assets == map[] && p.t.sources == map[]
    requires p.t.strong == map[]
    requires ObserveAsset(p, s, Sighting("a")) == Ok(q)
    ensures OnlyA(q.t, {"a"})
  {
    hide StrongRefs, ObserveAsset, Observed, RecordClaims, NewClaimIds, HasConflict;
    var x := ObserveFacts(p, s, Sighting("a"), q);
    assert Hits(p.t.strong, StrongRefs("org", HINTS)) == {};
    assert x.asset == A;
  }

  lemma ResolvesToA(t: Tables, s: Snapshot, external: string, known: set<string>, x: Touch)
    requires s.org == "org" && s.connector == "connector" && OnlyA(t, known) && external !in known
    requires TouchAsset(t, s, Sighting(external)) == Ok(x)
    ensures x.asset == A
  {
    hide StrongRefs;
    HintIsStrong();
    var v := StrongKey("org", "cloud_id", "x");
    assert t.strong[v] in Hits(t.strong, StrongRefs("org", HINTS));
  }

  lemma NextSighting(s: Snapshot, p: Progress, external: string, known: set<string>, q: Progress)
    requires s.org == "org" && s.connector == "connector" && Bindings(p.t) && OnlyA(p.t, known) && external !in known
    requires ObserveAsset(p, s, Sighting(external)) == Ok(q)
    ensures OnlyA(q.t, known + {external})
  {
    hide StrongRefs, ObserveAsset, Observed, RecordClaims, NewClaimIds, HasConflict, Bindings, TouchAsset;
    var x := ObserveFacts(p, s, Sighting(external), q);
    ResolvesToA(p.t, s, external, known, x);
  }

  lemma CandidatesOnlyA(t: Tables, s: Snapshot, o: Observation, known: set<string>)
    requires OnlyA(t, known)
    ensures Agree(Candidates(t, s, o))
  {
    hide StrongRefs;
  }

  /** The loop over two sightings, unrolled. */
  lemma FirstLoop(s: Snapshot)
    requires s.org == "org" && s.connector == "connector" && s.assets == Sightings(["a", "b"])
    ensures !JoinsInLoop(EMPTY, s, 0) && !JoinsInLoop(EMPTY, s, 1)
    ensures ObserveAssets(EMPTY, s, 2).Ok? ==> OnlyA(ObserveAssets(EMPTY, s, 2).value.t, {"a", "b"})
  {
    hide ObserveAsset, StrongRefs, OnlyA, Bindings;
    var start := Progress(EMPTY, map[], ZERO_SUMMARY);
    assert ObserveAssets(EMPTY, s, 0) == Ok(start);
    assert Candidates(EMPTY, s, s.assets[0]) == {};
    if ObserveAssets(EMPTY, s, 1).Ok? {
      var p := ObserveAssets(EMPTY, s, 1).value;
      assert ObserveAsset(start, s, Sighting("a")) == Ok(p);
      FirstSighting(s, start, p);
      EmptyBindings();
      var x := ObserveFacts(start, s, Sighting("a"), p);
      ObserveBindings(start, s, Sighting("a"), x, p);
      CandidatesOnlyA(p.t, s, s.assets[1], {"a"});
      if ObserveAssets(EMPTY, s, 2).Ok? {
        NextSighting(s, p, "b", {"a"}, ObserveAssets(EMPTY, s, 2).value);
        assert {"a"} + {"b"} == {"a", "b"};
      }
    }
  }

  lemma EmptyBindings()
    ensures Bindings(EMPTY)
  {
  }

  /** Relationships and absence marking leave assets and bindings in place. */
  lemma MarkKeepsOnlyA(p: Progress, s: Snapshot, threshold: int, known: set<string>)
    requires OnlyA(p.t, known)
    ensures OnlyA(MarkMissing(p, s, threshold).t, known)
  {
    hide StrongRefs, RetractClaims, Gone, HasActiveSource, SettledStatus;
    var sources, expired := MarkFacts(p, s, threshold);
  }

  lemma KeepsOnlyA(s: Snapshot, p: Progress, threshold: int, known: set<string>)
    requires OnlyA(p.t, known) && s.relationships == [] && s.id !in p.t.runs && HasIdentifiers(s)
    ensures var m := MarkMissing(p, s, Threshold(threshold));
            OnlyA(m.t.(runs := m.t.runs[s.id := m.sum]), known)
  {
    MarkKeepsOnlyA(p, s, Threshold(threshold), known);
  }

  /** The first snapshot commits and binds both identities to one asset. */
  lemma FirstCommits() returns (u: Progress)
    ensures Apply(EMPTY, First(), 1) == Ok(u) && OnlyA(u.t, {"a", "b"}) && Inv(u.t) && Sealed(u.t)
    ensures u.t.runs.Keys == {"s1"}
    ensures forall k :: k in u.t.sources ==> u.t.sources[k].active
  {
    hide ObserveAssets, ValidContract, Reconcilable, OnlyA, StrongRefs, MarkMissing, Inv, Sealed, JoinsInLoop, Run, Mid,
      RelMid, Apply;
    var s := First();
    EmptyInv();
    ListsOk("s1", 1, ["a", "b"]);
    FirstLoop(s);
    RejectedInLoop(EMPTY, s, 1);
    u := Apply(EMPTY, s, 1).value;
    ApplyPreserves(EMPTY, s, 1, u);
    var p, q := Stages(EMPTY, s, 1, u);
    assert q == p;
    RunsFrame(EMPTY, s, p, q, 1);
    AssetRuns(EMPTY, s, 2, p);
    KeepsOnlyA(s, p, 1, {"a", "b"});
    forall k | k in u.t.sources ensures u.t.sources[k].active {
      ApplySources(EMPTY, s, 1, u, k);
    }
  }

  lemma EmptyInv()
    ensures Inv(EMPTY) && Sealed(EMPTY)
  {
    RunInv([]);
  }

  /** An empty snapshot commits and leaves every listed identity absent. */
  lemma SecondCommits(t: Tables) returns (u: Progress)
    requires Inv(t) && Sealed(t) && OnlyA(t, {"a", "b"}) && t.runs.Keys == {"s1"}
    ensures Apply(t, Second(), 1) == Ok(u) && OnlyA(u.t, {"a", "b"}) && Inv(u.t) && Sealed(u.t)
    ensures u.t.runs.Keys == {"s1", "s2"}
    ensures forall k :: k in u.t.sources ==> !u.t.sources[k].active
  {
    hide ObserveAssets, ValidContract, Reconcilable, OnlyA, StrongRefs, MarkMissing, Inv, Sealed, JoinsInLoop, Mid,
      RelMid, Apply;
    var s := Second();
    ListsOk("s2", 2, []);
    RejectedInLoop(t, s, 1);
    u := Apply(t, s, 1).value;
    ApplyPreserves(t, s, 1, u);
    var p, q := Stages(t, s, 1, u);
    StartOfLoop(t, s);
    assert q == p;
    KeepsOnlyA(s, p, 1, {"a", "b"});
    forall k | k in u.t.sources ensures !u.t.sources[k].active {
      ApplySources(t, s, 1, u, k);
      KnownKeys(u.t, {"a", "b"}, k);
    }
  }

  lemma StartOfLoop(t: Tables, s: Snapshot)
    ensures ObserveAssets(t, s, 0) == Ok(Progress(t, map[], ZERO_SUMMARY))
  {
  }

  lemma KnownKeys(t: Tables, known: set<string>, k: SourceKey)
    requires OnlyA(t, known) && k in t.sources
    ensures k.org == "org" && k.connector == "connector" && t.sources[k].asset == A
  {
    hide StrongRefs;
  }

  /** Two identities went missing with one asset: the counter says two, one asset is MISSING. */
  lemma MissingCounterExceeds() returns (t: Tables, u: Progress)
    ensures t == Run([Attempt(First(), 1)]) && Apply(t, Second(), 1) == Ok(u)
    ensures u.sum.missing == 2 && WentMissing(t, u.t) == {A}
  {
    hide OnlyA, Inv, Sealed, WentMissing, Apply, LastSources;
    var first := FirstCommits();
    t := first.t;
    RunOfOne(Attempt(First(), 1), first);
    u := SecondCommits(t);
    SummaryIsExact(t, Second(), 1, u);
    SharedAsset(t, u.t);
    assert |{Key("a"), Key("b")}| == 2;
  }

  lemma RunOfOne(e: Attempt, u: Progress)
    requires Apply(EMPTY, e.snapshot, e.threshold) == Ok(u)
    ensures Run([e]) == u.t
  {
    hide Apply;
    assert [e][..0] == [];
  }

  lemma SharedAsset(t: Tables, u: Tables)
    requires OnlyA(t, {"a", "b"}) && OnlyA(u, {"a", "b"}) && Inv(t) && Inv(u)
    requires forall k :: k in t.sources ==> t.sources[k].active
    requires forall k :: k in u.sources ==> !u.sources[k].active
    ensures LastSources(t, u) == {Key("a"), Key("b")} && WentMissing(t, u) == {A}
  {
    hide Inv, StrongRefs;
    InvFacts(t, A);
    InvFacts(u, A);
    assert Key("a") in t.sources && Key("b") in t.sources;
    assert HasActiveSource(t.sources, A) && !HasActiveSource(u.sources, A);
    assert t.sources.Keys == {Key("a"), Key("b")};
  }

  /** The third snapshot commits and binds its new identity to the same asset. */
  lemma ThirdCommits(t: Tables) returns (u: Progress)
    requires Inv(t) && Sealed(t) && OnlyA(t, {"a", "b"}) && t.runs.Keys == {"s1", "s2"}
    ensures Apply(t, Third(), 1) == Ok(u) && OnlyA(u.t, {"a", "b", "d"})
  {
    hide ValidContract, Reconcilable, OnlyA, StrongRefs, MarkMissing, Inv, Sealed, Mid, RelMid, Apply, ObserveAsset;
    var s := Third();
    ListsOk("s3", 3, ["d"]);
    StartOfLoop(t, s);
    CandidatesOnlyA(t, s, s.assets[0], {"a", "b"});
    RejectedInLoop(t, s, 1);
    u := Apply(t, s, 1).value;
    var p, q := Stages(t, s, 1, u);
    assert q == p;
    InvFacts(t, A);
    NextSighting(s, Progress(t, map[], ZERO_SUMMARY), "d", {"a", "b"}, p);
    assert {"a", "b"} + {"d"} == {"a", "b", "d"};
    AssetRuns(t, s, 1, p);
    KeepsOnlyA(s, p, 1, {"a", "b", "d"});
  }

  /** A MISSING asset that comes back through a new identity leaves no ASSET_RETURNED row. */
  lemma ReturnGoesUnrecorded() returns (t: Tables, u: Progress)
    ensures t == Run([Attempt(First(), 1), Attempt(Second(), 1)]) && Apply(t, Third(), 1) == Ok(u)
    ensures A in t.assets && t.assets[A].status == Missing
    ensures A in u.t.assets && u.t.assets[A].status != Missing
    ensures ChangeOf(Third(), A, AssetReturned) !in u.t.changes
  {
    hide OnlyA, Inv, Sealed, Apply, Mentioned, FirstMentionKnown;
    var first := FirstCommits();
    RunOfOne(Attempt(First(), 1), first);
    var second := SecondCommits(first.t);
    t := second.t;
    RunOfTwo(Attempt(First(), 1), Attempt(Second(), 1), second);
    AllAbsent(t);
    u := ThirdCommits(t);
    ReturnedRowIff(t, Third(), 1, u, A);
    NewIdentity(t);
  }

  lemma RunOfTwo(e: Attempt, f: Attempt, u: Progress)
    requires Apply(Run([e]), f.snapshot, f.threshold) == Ok(u)
    ensures Run([e, f]) == u.t
  {
    hide Apply;
    assert [e, f][..1] == [e];
  }

  lemma AllAbsent(t: Tables)
    requires Inv(t) && OnlyA(t, {"a", "b"}) && forall k :: k in t.sources ==> !t.sources[k].active
    ensures A in t.assets && t.assets[A].status == Missing
  {
    hide StrongRefs, Bindings, ClaimsScoped, OneActiveClaim, ClaimsBacked, EvidenceAgrees, RelBindings, RelStatusAgrees;
  }

  lemma NewIdentity(t: Tables)
    requires OnlyA(t, {"a", "b"})
    ensures Mentioned(t, Third(), 1, A) && !FirstMentionKnown(t, Third(), 1, A)
  {
    hide StrongRefs;
    HintIsStrong();
    assert t.strong[StrongKey("org", "cloud_id", "x")] in Hits(t.strong, StrongRefs("org", HINTS));
    assert Mentions(t, Third(), 0, A);
    assert SourceOf(Third(), "d") == Key("d") && Key("d") !in t.sources;
  }

  // ---------- two relationships, one row ----------

  function Link(relType: string): RelationshipObservation {
    RelationshipObservation("a", "b", relType, 1, map[])
  }

  /** Two relationships of different types between the two identities. */
  function Linked(): Snapshot {
    First().(relationships := [Link("x"), Link("y")])
  }

  lemma LinkedOk()
    ensures ValidContract(Linked()) && Reconcilable(Linked())
  {
    hide ValidObservation, ShortKeyed, Sighting;
    ListsOk("s1", 1, ["a", "b"]);
    SightingNames(["a", "b"]);
    var s := Linked();
    assert s.assets == First().assets;
    assert Externals(s, 2) == {"a", "b"} by { LinkedNames(s); }
    assert TripleText(Link("x"))[|TripleText(Link("x"))| - 1] != TripleText(Link("y"))[|TripleText(Link("y"))| - 1];
  }

  lemma LinkedNames(s: Snapshot)
    requires s.assets == Sightings(["a", "b"])
    ensures Externals(s, |s.assets|) == {"a", "b"}
  {
    assert s.assets[0].external == "a" && s.assets[1].external == "b";
  }

  /** What the two relationships resolve to. */
  lemma LinkedTargets(p: Progress)
    requires p.bound.Keys == {"a", "b"} && p.bound["a"] == A && p.bound["b"] == A
    ensures Targets(p.bound, Linked(), 2) == {RelationshipId("org", A, A, "x"), RelationshipId("org", A, A, "y")}
  {
    var s := Linked();
    assert s.relationships[0] == Link("x") && s.relationships[1] == Link("y");
    TargetsStep(p.bound, s, 0);
    TargetsStep(p.bound, s, 1);
    assert Targets(p.bound, s, 0) == {};
  }

  lemma BoundToA(s: Snapshot, p: Progress)
    requires s.assets == Sightings(["a", "b"]) && Mid(EMPTY, s, 2, p) && OnlyA(p.t, {"a", "b"})
    ensures p.bound.Keys == {"a", "b"} && p.bound["a"] == A && p.bound["b"] == A
  {
    hide Inv, Provenance, Extends, UnlistedKept, StrongRefs;
    LinkedNames(s);
  }

  /** The snapshot commits, and the two relationships are new. */
  lemma LinkedCommits() returns (u: Progress)
    ensures Apply(EMPTY, Linked(), 1) == Ok(u) && Inv(EMPTY) && Sealed(EMPTY)
    ensures NewRelationships(EMPTY, Linked()) == {RelationshipId("org", A, A, "x"), RelationshipId("org", A, A, "y")}
  {
    hide ObserveAssets, ValidContract, Reconcilable, OnlyA, StrongRefs, MarkMissing, Inv, Sealed, JoinsInLoop, Mid,
      RelMid,
      Apply, Targets, ListedRelationships;
    var s := Linked();
    EmptyInv();
    LinkedOk();
    FirstLoop(s);
    RejectedInLoop(EMPTY, s, 1);
    u := Apply(EMPTY, s, 1).value;
    var p, q := Stages(EMPTY, s, 1, u);
    BoundToA(s, p);
    LinkedTargets(p);
    ListedIsBound(EMPTY, s, p);
  }

  /** Two new relationships leave one asset: two changes are counted for one row. */
  lemma ChangeCounterExceeds() returns (u: Progress)
    ensures Apply(EMPTY, Linked(), 1) == Ok(u)
    ensures u.sum.relationshipsCreated == 2 && RowsOf(u.t.changes, Linked(), RelationshipAdded) == {A}
    ensures u.sum.changes > |u.t.changes|
  {
    hide Inv, Sealed, Apply, RowsOf, LosesOneEach, OneConflictEach, ConflictsFound, Written, LastSources, WentMissing,
      WentRemoved, Froms, NewRelationships, Linked;
    var s := Linked();
    u := LinkedCommits();
    var x, y := RelationshipId("org", A, A, "x"), RelationshipId("org", A, A, "y");
    ChangeRows(EMPTY, s, 1, u);
    ChangeCounterIff(EMPTY, s, 1, u);
    SummaryIsExact(EMPTY, s, 1, u);
    assert x in NewRelationships(EMPTY, s) && y in NewRelationships(EMPTY, s) && x != y;
    FromsOfTwo(x, y);
    assert u.t.relationships.Keys == {x, y};
  }

  lemma FromsOfTwo(x: RelationshipId, y: RelationshipId)
    requires x.from == y.from && x != y
    ensures Froms({x, y}) == {x.from} && |{x, y}| == 2
  {
  }
}
