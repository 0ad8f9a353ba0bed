/** The limits of the snapshot contract: one snapshot that reaches every limit and is accepted,
    and everything beyond any of them, which is not. */
module ContractLimits {
  import opened Domain
  import opened ReconcileSteps
  import opened Contract

  /** A text of `length` bytes that starts with three digits to the base 100. */
  function Numbered(i: nat, length: nat): string
    requires i < 1000000 && length >= 3
  {
    [(i / 10000) as char, (i / 100 % 100) as char, (i % 100) as char] + Filler(length - 3)
  }

  function Filler(n: nat): string {
    seq(n, i => 'x')
  }

  lemma NumberedDiffer(i: nat, j: nat, length: nat)
    requires i < 1000000 && j < 1000000 && i != j && length >= 3
    ensures Numbered(i, length) != Numbered(j, length)
  {
    assert i == i / 10000 * 10000 + i / 100 % 100 * 100 + i % 100;
    assert j == j / 10000 * 10000 + j / 100 % 100 * 100 + j % 100;
    var a, b := Numbered(i, length), Numbered(j, length);
    assert a[0] == (i / 10000) as char && a[1] == (i / 100 % 100) as char && a[2] == (i % 100) as char;
    assert b[0] == (j / 10000) as char && b[1] == (j / 100 % 100) as char && b[2] == (j % 100) as char;
  }

  /** `n` attributes, hints or statistics. */
  function Entries<T>(n: nat, value: T): map<string, T>
    requires n < 1000000
  {
    if n == 0 then map[] else Entries(n - 1, value)[Numbered(n - 1, 3) := value]
  }

  lemma {:induction false} EntriesCount<T>(n: nat, value: T)
    requires n < 1000000
    ensures |Entries(n, value)| == n
    ensures forall k :: k in Entries(n, value) ==> Entries(n, value)[k] == value
    ensures forall k :: k in Entries(n, value) ==> exists i: nat :: i < n && k == Numbered(i, 3)
  {
    hide Numbered;
    if n > 0 {
      EntriesCount(n - 1, value);
      var last := Numbered(n - 1, 3);
      if last in Entries(n - 1, value) {
        var i: nat :| i < n - 1 && last == Numbered(i, 3);
        NumberedDiffer(i, n - 1, 3);
        assert false;
      }
    }
  }

  const ASSET_LIMIT := 100000
  const RELATIONSHIP_LIMIT := 250000

  function FullObservation(i: nat): Observation
    requires i < ASSET_LIMIT
  {
    Observation(Numbered(i, 1024), Filler(80), 1, Entries(128, ""), Entries(32, ""), Filler(128), "UNKNOWN")
  }

  function FullRelationship(i: nat): RelationshipObservation
    requires i < RELATIONSHIP_LIMIT
  {
    RelationshipObservation(Numbered(i % ASSET_LIMIT, 1024), Numbered(0, 1024), Numbered(i, 80), 1, Entries(64, ""))
  }

  /** Every count and every length is at its limit. */
  function Full(): Snapshot {
    Snapshot("1.0", Filler(160), "o", "c", "d", 1, 1, 1,
             seq(ASSET_LIMIT, i requires 0 <= i < ASSET_LIMIT => FullObservation(i)),
             seq(RELATIONSHIP_LIMIT, i requires 0 <= i < RELATIONSHIP_LIMIT => FullRelationship(i)),
             seq(1000, i => Filler(2000)), Entries(32, 0))
  }

  lemma NumberedLength(i: nat, length: nat)
    requires i < 1000000 && length >= 3
    ensures |Numbered(i, length)| == length
  {
  }

  lemma FullHeader()
    ensures ValidHeader(Full())
  {
    hide Entries, FullObservation, FullRelationship, Numbered;
    EntriesCount(32, 0);
  }

  lemma FullObservationValid(i: nat)
    requires i < ASSET_LIMIT
    ensures ValidObservation(FullObservation(i))
  {
    hide Entries, Numbered;
    NumberedLength(i, 1024);
    EntriesCount(128, "");
    EntriesCount(32, "");
  }

  lemma FullRelationshipValid(i: nat)
    requires i < RELATIONSHIP_LIMIT
    ensures ValidRelationship(FullRelationship(i))
  {
    hide Entries, Numbered;
    NumberedLength(i % ASSET_LIMIT, 1024);
    NumberedLength(0, 1024);
    NumberedLength(i, 80);
    EntriesCount(64, "");
  }

  lemma FullAssets()
    ensures ValidAssets(Full(), ASSET_LIMIT)
  {
    hide Entries, Numbered, Filler, ValidObservation;
    var s := Full();
    forall i | 0 <= i < ASSET_LIMIT ensures ValidObservation(s.assets[i]) {
      FullObservationValid(i);
    }
    forall i, j | 0 <= i < j < ASSET_LIMIT ensures s.assets[i].external != s.assets[j].external {
      NumberedDiffer(i, j, 1024);
    }
  }

  /** Relationships with types of one length and different types have different texts. */
  lemma TextsDiffer(a: RelationshipObservation, b: RelationshipObservation)
    requires |a.from| == |b.from| && |a.to| == |b.to| && |a.relType| == |b.relType| && a.relType != b.relType
    ensures TripleText(a) != TripleText(b)
  {
    var n := |a.from| + 1 + |a.to| + 1;
    assert TripleText(a)[n..] == a.relType && TripleText(b)[n..] == b.relType;
  }

  lemma FullTriples(i: nat, j: nat)
    requires i < j < RELATIONSHIP_LIMIT
    ensures TripleText(FullRelationship(i)) != TripleText(FullRelationship(j))
  {
    hide Entries, Numbered, TripleText;
    NumberedLength(i % ASSET_LIMIT, 1024);
    NumberedLength(j % ASSET_LIMIT, 1024);
    NumberedLength(i, 80);
    NumberedLength(j, 80);
    NumberedDiffer(i, j, 80);
    TextsDiffer(FullRelationship(i), FullRelationship(j));
  }

  lemma FullExternal(i: nat)
    requires i < ASSET_LIMIT
    ensures Numbered(i, 1024) in Externals(Full(), ASSET_LIMIT)
  {
    hide Entries, Numbered, Filler;
    assert Full().assets[i].external == Numbered(i, 1024);
  }

  lemma FullRelationships()
    ensures ValidRelationships(Full(), RELATIONSHIP_LIMIT)
  {
    hide Entries, Numbered, Filler, ValidRelationship, TripleText, Externals;
    var s := Full();
    forall i | 0 <= i < RELATIONSHIP_LIMIT
      ensures ValidRelationship(s.relationships[i])
      ensures s.relationships[i].from in Externals(s, ASSET_LIMIT) && s.relationships[i].to in Externals(s, ASSET_LIMIT)
    {
      FullRelationshipValid(i);
      FullExternal(i % ASSET_LIMIT);
      FullExternal(0);
    }
    forall i, j | 0 <= i < j < RELATIONSHIP_LIMIT
      ensures TripleText(s.relationships[i]) != TripleText(s.relationships[j])
    {
      FullTriples(i, j);
    }
  }

  /** A snapshot at every limit is accepted. */
  lemma AtTheLimits()
    ensures var s := Full();
            && |s.id| == 160 && |s.assets| == 100000 && |s.relationships| == 250000 && |s.warnings| == 1000
            && |s.statistics| == 32 && |s.warnings[0]| == 2000 && s.sequence == 1 && s.startedAt == s.completedAt
            && |s.assets[0].external| == 1024 && |s.assets[0].assetType| == 80 && |s.assets[0].attributes| == 128
            && |s.assets[0].hints| == 32 && |s.assets[0].fingerprint| == 128
            && |s.relationships[0].from| == |s.relationships[0].to| == 1024 && |s.relationships[0].relType| == 80
            && |s.relationships[0].attributes| == 64 && ValidContract(s)
  {
    hide Entries, Numbered, ValidHeader, ValidAssets, ValidRelationships;
    FullHeader();
    FullAssets();
    FullRelationships();
    NumberedLength(0, 1024);
    NumberedLength(0, 80);
    EntriesCount(128, "");
    EntriesCount(64, "");
    EntriesCount(32, "");
    EntriesCount(32, 0);
  }

  // ---------- exactly what is accepted ----------

  predicate HeaderWithin(s: Snapshot) {
    && 0 < |s.id| < 161 && 0 < |s.org| && 0 < |s.collector| && 0 < |s.connector| && 0 < s.sequence
    && s.protocolVersion == "1.0" && |s.assets| < 100001 && |s.relationships| < 250001 && |s.warnings| < 1001
    && |s.statistics| < 33 && s.startedAt != 0 && s.completedAt != 0 && !(s.completedAt < s.startedAt)
    && !(exists i :: 0 <= i < |s.warnings| && |s.warnings[i]| > 2000)
    && !(exists k :: k in s.statistics && s.statistics[k] < 0)
  }

  predicate ObservationWithin(o: Observation) {
    && 0 < |o.external| < 1025 && |o.assetType| < 81 && o.observedAt != 0 && |o.attributes| < 129 && |o.hints| < 33
    && |o.fingerprint| < 129 && (o.status == "OBSERVED" || o.status == "UNKNOWN")
  }

  predicate RelationshipWithin(r: RelationshipObservation) {
    && 0 < |r.from| < 1025 && 0 < |r.to| < 1025 && 0 < |r.relType| < 81 && r.observedAt != 0 && |r.attributes| < 65
  }

  predicate SameTriple(a: RelationshipObservation, b: RelationshipObservation) {
    a.from == b.from && a.to == b.to && a.relType == b.relType
  }

  predicate Observed(s: Snapshot, external: string) {
    exists i :: 0 <= i < |s.assets| && s.assets[i].external == external
  }

  /** Within all limits, between observed assets, and without repetitions. */
  predicate Within(s: Snapshot) {
    && HeaderWithin(s)
    && (forall i :: 0 <= i < |s.assets| ==> ObservationWithin(s.assets[i]))
    && (forall i, j :: 0 <= i < j < |s.assets| ==> s.assets[i].external != s.assets[j].external)
    && (forall i :: 0 <= i < |s.relationships| ==>
                      && RelationshipWithin(s.relationships[i])
                      && Observed(s, s.relationships[i].from) && Observed(s, s.relationships[i].to))
    && (forall i, j :: 0 <= i < j < |s.relationships| ==> !SameTriple(s.relationships[i], s.relationships[j]))
  }

  /** Different relationships with the same text. */
  predicate TextsCollide(s: Snapshot) {
    exists i, j :: 0 <= i < j < |s.relationships| && !SameTriple(s.relationships[i], s.relationships[j])
                   && TripleText(s.relationships[i]) == TripleText(s.relationships[j])
  }

  lemma ObservedExternal(s: Snapshot, external: string)
    ensures external in Externals(s, |s.assets|) <==> Observed(s, external)
  {
  }

  lemma TriplesWithin(s: Snapshot)
    ensures DistinctTriples(s, |s.relationships|) <==>
            && (forall i, j :: 0 <= i < j < |s.relationships| ==> !SameTriple(s.relationships[i], s.relationships[j]))
            && !TextsCollide(s)
  {
    forall i, j | 0 <= i < j < |s.relationships| && SameTriple(s.relationships[i], s.relationships[j])
      ensures TripleText(s.relationships[i]) == TripleText(s.relationships[j])
    {
    }
    hide TripleText, SameTriple;
  }

  /** The contract accepts a snapshot exactly when it is within all limits and its relationships
      are also told apart by their texts. */
  lemma AcceptedIffWithin(s: Snapshot)
    ensures ValidContract(s) <==> Within(s) && !TextsCollide(s)
  {
    hide DistinctTriples, TextsCollide, SameTriple, Externals, Observed;
    TriplesWithin(s);
    forall i | 0 <= i < |s.relationships|
      ensures s.relationships[i].from in Externals(s, |s.assets|) <==> Observed(s, s.relationships[i].from)
      ensures s.relationships[i].to in Externals(s, |s.assets|) <==> Observed(s, s.relationships[i].to)
    {
      ObservedExternal(s, s.relationships[i].from);
      ObservedExternal(s, s.relationships[i].to);
    }
    assert HeaderWithin(s) <==> ValidHeader(s);
    assert forall i :: 0 <= i < |s.assets| ==> (ObservationWithin(s.assets[i]) <==> ValidObservation(s.assets[i]));
    assert forall i :: 0 <= i < |s.relationships| ==>
                         (RelationshipWithin(s.relationships[i]) <==> ValidRelationship(s.relationships[i]));
    hide HeaderWithin, ValidHeader, ObservationWithin, ValidObservation, RelationshipWithin, ValidRelationship;
  }

  /** Identifiers without a zero byte are always told apart. */
  lemma TextsTellApart(a: RelationshipObservation, b: RelationshipObservation)
    requires '\0' !in a.from && '\0' !in a.to && '\0' !in b.from && '\0' !in b.to
    requires TripleText(a) == TripleText(b)
    ensures SameTriple(a, b)
  {
    var tail, other := a.to + ['\0'] + a.relType, b.to + ['\0'] + b.relType;
    assert TripleText(a) == a.from + ['\0'] + tail && TripleText(b) == b.from + ['\0'] + other;
    FirstZero(a.from, tail, b.from, other);
    FirstZero(a.to, a.relType, b.to, b.relType);
  }

  lemma FirstZero(a: string, x: string, b: string, y: string)
    requires '\0' !in a && '\0' !in b && a + ['\0'] + x == b + ['\0'] + y
    ensures a == b && x == y
  {
    var text := a + ['\0'] + x;
    assert text[|a|] == '\0' && text[|b|] == '\0';
    assert forall i :: 0 <= i < |a| ==> text[i] == a[i];
    assert forall i :: 0 <= i < |b| ==> text[i] == b[i];
    assert a == text[..|a|] && b == text[..|a|];
    assert x == text[|a| + 1..] && y == text[|a| + 1..];
  }

  function Named(external: string): Observation {
    Observation(external, "SERVICE", 1, map[], map[], "", "OBSERVED")
  }

  /** Two relationships, from `ab` to `a` and from `a` to `ba`. */
  function Crossing(a: string, ab: string, ba: string): Snapshot {
    Snapshot("1.0", "s", "o", "c", "d", 1, 1, 1, [Named(a), Named(ab), Named(ba)],
             [RelationshipObservation(ab, a, "t", 1, map[]), RelationshipObservation(a, ba, "t", 1, map[])], [], map[])
  }

  lemma CrossingWithin(a: string, ab: string, ba: string)
    requires |a| == 1 && |ab| == |ba| == 3 && ab != ba
    ensures Within(Crossing(a, ab, ba))
  {
    var s := Crossing(a, ab, ba);
    assert Observed(s, a) && Observed(s, ab) && Observed(s, ba) by {
      assert s.assets[0].external == a && s.assets[1].external == ab && s.assets[2].external == ba;
    }
    hide Observed;
  }

  /** Identifiers with a zero byte need not be: a snapshot within all limits that is refused. */
  lemma ZeroBytesCollide() returns (s: Snapshot)
    ensures Within(s) && !ValidContract(s)
  {
    hide Within, ValidContract, TripleText;
    var a, b, zero := "a", "b", ['\0'];
    var ab, ba := a + zero + b, b + zero + a;
    assert a[0] != b[0] && ab[0] == a[0] && ba[0] == b[0];
    s := Crossing(a, ab, ba);
    CrossingWithin(a, ab, ba);
    CrossingText(a, b);
    assert !SameTriple(s.relationships[0], s.relationships[1]);
    AcceptedIffWithin(s);
  }

  lemma CrossingText(a: string, b: string)
    ensures var s := Crossing(a, a + ['\0'] + b, b + ['\0'] + a);
            TripleText(s.relationships[0]) == TripleText(s.relationships[1])
  {
  }
}
