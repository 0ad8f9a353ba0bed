/** The effective value of an attribute: the most recent claim at the highest authority. */
module Effective {
  import opened Collections
  import opened Domain

  datatype Authority = Authoritative | Observed | Declared

  datatype Claim = Claim(connector: string, key: string, value: string, snapshot: string, observedAt: int, active: bool)

  /** The authority configured for each connector and attribute. */
  type Policy = map<(string, string), Authority>

  datatype Effect = Effect(value: Option<string>, conflict: bool, agree: bool, claims: seq<Claim>)

  function Rank(policy: Policy, c: Claim): nat {
    if (c.connector, c.key) !in policy then 1
    else match policy[(c.connector, c.key)] case Authoritative => 3 case Observed => 2 case Declared => 1
  }

  /** `a` is selected ahead of `b`: higher authority, or the same authority and more recent. */
  predicate Ahead(policy: Policy, a: Claim, b: Claim) {
    Rank(policy, a) > Rank(policy, b) || (Rank(policy, a) == Rank(policy, b) && a.observedAt > b.observedAt)
  }

  /** The active claims on one attribute, in order. */
  function Active(claims: seq<Claim>, attribute: string): seq<Claim> {
    if claims == [] then []
    else
      var c := claims[|claims| - 1];
      Active(claims[..|claims| - 1], attribute) + (if c.active && c.key == attribute then [c] else [])
  }

  /** Inserts behind every claim that is not behind `c`, so equal claims keep their order. */
  function InsertClaim(policy: Policy, sorted: seq<Claim>, c: Claim): seq<Claim> {
    if sorted == [] then [c]
    else
      var n := |sorted| - 1;
      if Ahead(policy, c, sorted[n]) then InsertClaim(policy, sorted[..n], c) + [sorted[n]] else sorted + [c]
  }

  function SortClaims(policy: Policy, claims: seq<Claim>): seq<Claim> {
    if claims == [] then [] else InsertClaim(policy, SortClaims(policy, claims[..|claims| - 1]), claims[|claims| - 1])
  }

  predicate Sorted(policy: Policy, claims: seq<Claim>) {
    forall i, j :: 0 <= i < j < |claims| ==> !Ahead(policy, claims[j], claims[i])
  }

  function Values(claims: seq<Claim>): set<string> {
    set i | 0 <= i < |claims| :: claims[i].value
  }

  function EffectiveOf(claims: seq<Claim>, attribute: string, policy: Policy): Effect {
    var sorted := SortClaims(policy, Active(claims, attribute));
    if sorted == [] then Effect(None, false, false, [])
    else Effect(Some(sorted[0].value), |Values(sorted)| > 1, |Values(sorted)| == 1 && |sorted| > 1, sorted)
  }

  method FilterActive(claims: seq<Claim>, attribute: string) returns (active: seq<Claim>)
    ensures active == Active(claims, attribute)
  {
    active := [];
    for i := 0 to |claims|
      invariant active == Active(claims[..i], attribute)
    {
      assert claims[..i + 1][..i] == claims[..i];
      if claims[i].active && claims[i].key == attribute {
        active := active + [claims[i]];
      }
    }
    assert claims[..|claims|] == claims;
  }

  method DistinctValues(claims: seq<Claim>) returns (distinct: set<string>)
    ensures distinct == Values(claims)
  {
    hide Values;
    distinct := {};
    assert Values(claims[..0]) == {} by { NoValues(claims); }
    for i := 0 to |claims|
      invariant distinct == Values(claims[..i])
    {
      distinct := distinct + {claims[i].value};
      ValuesStep(claims, i);
    }
    assert claims[..|claims|] == claims;
  }

  lemma NoValues(claims: seq<Claim>)
    ensures Values(claims[..0]) == {}
  {
  }

  /** Filters, sorts stably in place and counts the distinct values. */
  method ComputeEffective(claims: seq<Claim>, attribute: string, policy: Policy) returns (r: Effect)
    ensures r == EffectiveOf(claims, attribute, policy)
  {
    hide Active, SortClaims, Values;
    var active := FilterActive(claims, attribute);
    var slice := new Claim[|active|](i requires 0 <= i < |active| => active[i]);
    assert slice[..] == active;
    SortStable(policy, slice);
    var sorted := slice[..];
    if sorted == [] {
      return Effect(None, false, false, []);
    }
    var distinct := DistinctValues(sorted);
    r := Effect(Some(sorted[0].value), |distinct| > 1, |distinct| == 1 && |sorted| > 1, sorted);
  }

  lemma ValuesStep(claims: seq<Claim>, i: nat)
    requires i < |claims|
    ensures Values(claims[..i + 1]) == Values(claims[..i]) + {claims[i].value}
  {
    assert forall j :: 0 <= j < i ==> claims[..i + 1][j] == claims[..i][j];
    assert claims[..i + 1][i] == claims[i];
  }

  lemma InsertBefore(policy: Policy, sorted: seq<Claim>, last: Claim, c: Claim)
    requires Ahead(policy, c, last)
    ensures InsertClaim(policy, sorted + [last], c) == InsertClaim(policy, sorted, c) + [last]
  {
    hide Ahead;
    assert (sorted + [last])[..|sorted|] == sorted;
  }

  /** The slice with claim `c` moved to `j`, where `sorted` was in front of `i`. */
  ghost predicate Moving(policy: Policy, slice: seq<Claim>, i: nat, j: nat, sorted: seq<Claim>, c: Claim) {
    && j <= i < |slice| && slice[j] == c
    && InsertClaim(policy, sorted, c) == InsertClaim(policy, slice[..j], c) + slice[j + 1..i + 1]
  }

  lemma MoveStep(policy: Policy, slice: seq<Claim>, i: nat, j: nat, sorted: seq<Claim>, c: Claim)
    requires 0 < j && Moving(policy, slice, i, j, sorted, c) && Ahead(policy, c, slice[j - 1])
    ensures Moving(policy, slice[j - 1 := c][j := slice[j - 1]], i, j - 1, sorted, c)
  {
    hide Ahead, InsertClaim;
    var moved := slice[j - 1 := c][j := slice[j - 1]];
    InsertBefore(policy, slice[..j - 1], slice[j - 1], c);
    assert slice[..j] == slice[..j - 1] + [slice[j - 1]];
    assert moved[..j - 1] == slice[..j - 1];
    assert moved[j..i + 1] == [slice[j - 1]] + slice[j + 1..i + 1];
  }

  lemma MoveDone(policy: Policy, slice: seq<Claim>, i: nat, j: nat, sorted: seq<Claim>, c: Claim)
    requires Moving(policy, slice, i, j, sorted, c) && (j > 0 ==> !Ahead(policy, c, slice[j - 1]))
    ensures slice[..i + 1] == InsertClaim(policy, sorted, c)
  {
    hide Ahead;
    assert InsertClaim(policy, slice[..j], c) == slice[..j] + [c];
    assert slice[..i + 1] == slice[..j] + [c] + slice[j + 1..i + 1];
  }

  /** Moves the claim at `i` in front of those it is ahead of. */
  method InsertInPlace(policy: Policy, slice: array<Claim>, i: nat)
    requires i < slice.Length
    modifies slice
    ensures slice[..i + 1] == InsertClaim(policy, old(slice[..i]), old(slice[i]))
    ensures slice[i + 1..] == old(slice[i + 1..])
  {
    hide Ahead, InsertClaim, Moving;
    ghost var c, sorted := slice[i], slice[..i];
    var j := i;
    assert Moving(policy, slice[..], i, i, sorted, c) by { MoveStart(policy, slice[..], i); }
    while j > 0 && Ahead(policy, slice[j], slice[j - 1])
      invariant j <= i && slice[j] == c && Moving(policy, slice[..], i, j, sorted, c)
      invariant slice[i + 1..] == old(slice[i + 1..])
    {
      MoveStep(policy, slice[..], i, j, sorted, c);
      ghost var before := slice[..];
      slice[j - 1], slice[j] := slice[j], slice[j - 1];
      assert slice[..] == before[j - 1 := c][j := before[j - 1]];
      j := j - 1;
    }
    MoveDone(policy, slice[..], i, j, sorted, c);
    assert slice[..][..i + 1] == slice[..i + 1];
  }

  lemma MoveStart(policy: Policy, slice: seq<Claim>, i: nat)
    requires i < |slice|
    ensures Moving(policy, slice, i, i, slice[..i], slice[i])
  {
    hide InsertClaim;
    assert slice[i + 1..i + 1] == [];
  }

  /** Sorts a slice in place, claim by claim. */
  method SortStable(policy: Policy, slice: array<Claim>)
    modifies slice
    ensures slice[..] == SortClaims(policy, old(slice[..]))
  {
    hide Ahead, InsertClaim;
    ghost var claims := slice[..];
    for i := 0 to slice.Length
      invariant slice[..i] == SortClaims(policy, claims[..i]) && slice[i..] == claims[i..]
    {
      assert slice[i..][0] == claims[i] && slice[i..][1..] == claims[i + 1..];
      assert claims[..i + 1][..i] == claims[..i];
      InsertInPlace(policy, slice, i);
    }
    assert claims[..slice.Length] == claims && slice[..slice.Length] == slice[..];
  }

  // ---------- the result is a sorted permutation ----------

  lemma AheadOrder(policy: Policy, a: Claim, b: Claim, c: Claim)
    ensures !Ahead(policy, a, b) && !Ahead(policy, b, c) ==> !Ahead(policy, a, c)
    ensures Ahead(policy, a, b) ==> !Ahead(policy, b, a)
  {
  }

  lemma {:induction false} InsertPermutes(policy: Policy, sorted: seq<Claim>, c: Claim)
    ensures multiset(InsertClaim(policy, sorted, c)) == multiset(sorted) + multiset{c}
  {
    hide Ahead;
    if sorted != [] {
      var n := |sorted| - 1;
      assert sorted == sorted[..n] + [sorted[n]];
      InsertPermutes(policy, sorted[..n], c);
    }
  }

  lemma {:induction false} InsertSorted(policy: Policy, sorted: seq<Claim>, c: Claim)
    requires Sorted(policy, sorted)
    ensures Sorted(policy, InsertClaim(policy, sorted, c))
  {
    hide Ahead;
    if sorted != [] {
      var n := |sorted| - 1;
      if Ahead(policy, c, sorted[n]) {
        InsertSorted(policy, sorted[..n], c);
        var r := InsertClaim(policy, sorted[..n], c);
        InsertPermutes(policy, sorted[..n], c);
        forall i | 0 <= i < |r| ensures !Ahead(policy, sorted[n], r[i]) {
          assert r[i] in multiset(r);
          assert r[i] == c || r[i] in multiset(sorted[..n]);
          AheadOrder(policy, c, sorted[n], c);
        }
      } else {
        forall i | 0 <= i <= n ensures !Ahead(policy, c, sorted[i]) {
          AheadOrder(policy, c, sorted[n], sorted[i]);
        }
      }
    }
  }

  lemma NothingSorted(policy: Policy)
    ensures Sorted(policy, [])
  {
  }

  lemma {:induction false} SortFacts(policy: Policy, claims: seq<Claim>)
    ensures Sorted(policy, SortClaims(policy, claims)) && multiset(SortClaims(policy, claims)) == multiset(claims)
  {
    hide InsertClaim, Ahead, Sorted;
    if claims == [] {
      NothingSorted(policy);
    } else if claims != [] {
      var n := |claims| - 1;
      SortFacts(policy, claims[..n]);
      InsertSorted(policy, SortClaims(policy, claims[..n]), claims[n]);
      InsertPermutes(policy, SortClaims(policy, claims[..n]), claims[n]);
      assert claims == claims[..n] + [claims[n]];
    }
  }

  // ---------- stability ----------

  /** Same rank and same time. */
  predicate Tied(policy: Policy, a: Claim, b: Claim) {
    Rank(policy, a) == Rank(policy, b) && a.observedAt == b.observedAt
  }

  /** The claims tied with `c`, in order. */
  function Ties(policy: Policy, claims: seq<Claim>, c: Claim): seq<Claim> {
    if claims == [] then []
    else
      var n := |claims| - 1;
      Ties(policy, claims[..n], c) + (if Tied(policy, claims[n], c) then [claims[n]] else [])
  }

  lemma TiesSnoc(policy: Policy, claims: seq<Claim>, last: Claim, c: Claim)
    ensures Ties(policy, claims + [last], c) == Ties(policy, claims, c) + (if Tied(policy, last, c) then [last] else [])
  {
    assert (claims + [last])[..|claims|] == claims;
  }

  lemma {:induction false} InsertTies(policy: Policy, sorted: seq<Claim>, last: Claim, c: Claim)
    ensures Ties(policy, InsertClaim(policy, sorted, last), c)
         == Ties(policy, sorted, c) + (if Tied(policy, last, c) then [last] else [])
  {
    hide Tied, Ahead, Ties;
    if sorted == [] {
      TiesSnoc(policy, sorted, last, c);
      assert sorted + [last] == InsertClaim(policy, sorted, last);
    } else {
      var n := |sorted| - 1;
      if Ahead(policy, last, sorted[n]) {
        InsertTies(policy, sorted[..n], last, c);
        TiesSnoc(policy, InsertClaim(policy, sorted[..n], last), sorted[n], c);
        TiesSnoc(policy, sorted[..n], sorted[n], c);
        AheadNotTied(policy, last, sorted[n], c);
        assert sorted == sorted[..n] + [sorted[n]];
        NotBoth(Ties(policy, sorted[..n], c), Tied(policy, last, c), last, Tied(policy, sorted[n], c), sorted[n]);
      } else {
        TiesSnoc(policy, sorted, last, c);
      }
    }
  }

  lemma NotBoth(ties: seq<Claim>, first: bool, a: Claim, second: bool, b: Claim)
    requires !(first && second)
    ensures ties + (if first then [a] else []) + (if second then [b] else [])
         == ties + (if second then [b] else []) + (if first then [a] else [])
  {
  }

  lemma AheadNotTied(policy: Policy, a: Claim, b: Claim, c: Claim)
    requires Ahead(policy, a, b)
    ensures !(Tied(policy, a, c) && Tied(policy, b, c))
  {
  }

  /** Claims of equal rank and time keep their order. */
  lemma {:induction false} SortIsStable(policy: Policy, claims: seq<Claim>, c: Claim)
    ensures Ties(policy, SortClaims(policy, claims), c) == Ties(policy, claims, c)
  {
    hide InsertClaim, Tied;
    if claims != [] {
      var n := |claims| - 1;
      SortIsStable(policy, claims[..n], c);
      InsertTies(policy, SortClaims(policy, claims[..n]), claims[n], c);
    }
  }

  lemma {:induction false} FirstTie(policy: Policy, claims: seq<Claim>, i: nat, c: Claim)
    requires i < |claims| && Tied(policy, claims[i], c) && forall j :: 0 <= j < i ==> !Tied(policy, claims[j], c)
    ensures Ties(policy, claims, c) != [] && Ties(policy, claims, c)[0] == claims[i]
  {
    hide Tied;
    var n := |claims| - 1;
    if i < n {
      FirstTie(policy, claims[..n], i, c);
    } else {
      NoTies(policy, claims[..n], c);
    }
  }

  lemma {:induction false} NoTies(policy: Policy, claims: seq<Claim>, c: Claim)
    requires forall j :: 0 <= j < |claims| ==> !Tied(policy, claims[j], c)
    ensures Ties(policy, claims, c) == []
  {
    if claims != [] {
      NoTies(policy, claims[..|claims| - 1], c);
    }
  }

  /** Among the best claims, the first in the given order decides the value. */
  lemma TieGoesToFirst(claims: seq<Claim>, attribute: string, policy: Policy, i: nat)
    requires var active := Active(claims, attribute);
             && i < |active| && (forall d :: d in active ==> !Ahead(policy, d, active[i]))
             && (forall j :: 0 <= j < i ==> exists d :: d in active && Ahead(policy, d, active[j]))
    ensures EffectiveOf(claims, attribute, policy).value == Some(Active(claims, attribute)[i].value)
  {
    hide Active, SortClaims, Values;
    var active := Active(claims, attribute);
    var sorted := SortClaims(policy, active);
    SortFacts(policy, active);
    SameMembers(sorted, active);
    FirstIsMaximal(policy, sorted, active);
    var m := sorted[0];
    assert active[i] in active;
    BothBest(policy, active[i], m);
    forall j | 0 <= j < i ensures !Tied(policy, active[j], m) {
      var d :| d in active && Ahead(policy, d, active[j]);
      assert !Ahead(policy, d, m);
    }
    FirstTie(policy, active, i, m);
    FirstTie(policy, sorted, 0, m);
    SortIsStable(policy, active, m);
  }

  lemma BothBest(policy: Policy, a: Claim, b: Claim)
    requires !Ahead(policy, a, b) && !Ahead(policy, b, a)
    ensures Tied(policy, a, b)
  {
  }

  // ---------- what is effective ----------

  lemma {:induction false} ActiveMembers(claims: seq<Claim>, attribute: string, c: Claim)
    ensures c in Active(claims, attribute) <==> c in claims && c.active && c.key == attribute
  {
    if claims != [] {
      ActiveMembers(claims[..|claims| - 1], attribute, c);
    }
  }

  lemma OneValue(claims: seq<Claim>)
    requires claims != []
    ensures |Values(claims)| > 1 <==> exists i, j :: 0 <= i < |claims| && 0 <= j < |claims|
                                                     && claims[i].value != claims[j].value
  {
    var v := claims[0].value;
    assert v in Values(claims);
    if i, j :| 0 <= i < |claims| && 0 <= j < |claims| && claims[i].value != claims[j].value {
      var w := if claims[i].value != v then claims[i].value else claims[j].value;
      assert w in Values(claims);
      assert |{v, w}| == 2 && {v, w} <= Values(claims);
      SubsetCount({v, w}, Values(claims));
    } else {
      assert Values(claims) == {v};
    }
  }

  /** The result lists exactly the active claims on the attribute, best first; the value is that
      of a claim that no active claim is ahead of; and there is a conflict exactly when two
      active claims have different values. */
  lemma EffectiveFacts(claims: seq<Claim>, attribute: string, policy: Policy)
    ensures var r := EffectiveOf(claims, attribute, policy);
            && multiset(r.claims) == multiset(Active(claims, attribute)) && Sorted(policy, r.claims)
            && (r.value == None <==> Active(claims, attribute) == [])
            && (r.value.Some? ==> exists c :: c in Active(claims, attribute) && c.value == r.value.value
                                              && forall d :: d in Active(claims, attribute) ==> !Ahead(policy, d, c))
            && (r.conflict <==> exists c, d :: c in Active(claims, attribute) && d in Active(claims, attribute)
                                               && c.value != d.value)
            && (r.agree <==> |Active(claims, attribute)| > 1 && !r.conflict)
  {
    hide Ahead, Active, Values, SortClaims;
    var active := Active(claims, attribute);
    var sorted := SortClaims(policy, active);
    SortFacts(policy, active);
    SameMembers(sorted, active);
    if sorted != [] {
      FirstIsMaximal(policy, sorted, active);
      ConflictIff(sorted, active);
      assert |Values(sorted)| > 0 by { SomeValue(sorted); }
    }
  }

  lemma SomeValue(claims: seq<Claim>)
    requires claims != []
    ensures |Values(claims)| > 0
  {
    assert claims[0].value in Values(claims);
  }

  lemma FirstIsMaximal(policy: Policy, sorted: seq<Claim>, active: seq<Claim>)
    requires sorted != [] && Sorted(policy, sorted) && forall c :: c in sorted <==> c in active
    ensures sorted[0] in active && forall d :: d in active ==> !Ahead(policy, d, sorted[0])
  {
    forall d | d in active ensures !Ahead(policy, d, sorted[0]) {
      var i :| 0 <= i < |sorted| && sorted[i] == d;
      AheadOrder(policy, d, d, d);
    }
  }

  lemma ConflictIff(sorted: seq<Claim>, active: seq<Claim>)
    requires sorted != [] && forall c :: c in sorted <==> c in active
    ensures |Values(sorted)| > 1 <==> exists c, d :: c in active && d in active && c.value != d.value
  {
    hide Values;
    OneValue(sorted);
    if c, d :| c in active && d in active && c.value != d.value {
      var i :| 0 <= i < |sorted| && sorted[i] == c;
      var j :| 0 <= j < |sorted| && sorted[j] == d;
    }
    if i, j :| 0 <= i < |sorted| && 0 <= j < |sorted| && sorted[i].value != sorted[j].value {
      assert sorted[i] in active && sorted[j] in active;
    }
  }

  lemma SameMembers(a: seq<Claim>, b: seq<Claim>)
    requires multiset(a) == multiset(b)
    ensures |a| == |b| && forall c :: c in a <==> c in b
  {
    assert |multiset(a)| == |a| && |multiset(b)| == |b|;
    forall c ensures c in a <==> c in b {
      assert c in a <==> c in multiset(a);
      assert c in b <==> c in multiset(b);
    }
  }

  /** No other claim in `claims` is as good as `best`. */
  ghost predicate UniqueBest(policy: Policy, claims: seq<Claim>, best: Claim) {
    best in claims && forall c :: c in claims && c != best ==> Ahead(policy, best, c)
  }

  /** When one claim is ahead of all others, the value and the conflict flag do not depend on
      the order of the claims. */
  lemma OrderDoesNotMatter(claims: seq<Claim>, other: seq<Claim>, attribute: string, policy: Policy, best: Claim)
    requires multiset(Active(claims, attribute)) == multiset(Active(other, attribute))
    requires UniqueBest(policy, Active(claims, attribute), best)
    ensures EffectiveOf(claims, attribute, policy).value == EffectiveOf(other, attribute, policy).value
         == Some(best.value)
    ensures EffectiveOf(claims, attribute, policy).conflict == EffectiveOf(other, attribute, policy).conflict
  {
    SameMembers(Active(claims, attribute), Active(other, attribute));
    BestIsSelected(claims, attribute, policy, best);
    BestIsSelected(other, attribute, policy, best);
    EffectiveFacts(claims, attribute, policy);
    EffectiveFacts(other, attribute, policy);
  }

  lemma BestIsSelected(claims: seq<Claim>, attribute: string, policy: Policy, best: Claim)
    requires UniqueBest(policy, Active(claims, attribute), best)
    ensures EffectiveOf(claims, attribute, policy).value == Some(best.value)
  {
    EffectiveFacts(claims, attribute, policy);
    var active := Active(claims, attribute);
    var c :| c in active && Some(c.value) == EffectiveOf(claims, attribute, policy).value
             && forall d :: d in active ==> !Ahead(policy, d, c);
  }

  // ---------- what the policy says ----------

  /** An active claim on the attribute. */
  predicate Counts(claims: seq<Claim>, attribute: string, c: Claim) {
    c in claims && c.active && c.key == attribute
  }

  /** The policy gives the claim's connector this authority over its attribute. */
  predicate Grants(policy: Policy, c: Claim, authority: Authority) {
    (c.connector, c.key) in policy && policy[(c.connector, c.key)] == authority
  }

  /** `c` has the authority that decides: AUTHORITATIVE if some active claim has that, otherwise
      OBSERVED if some has that, otherwise any. */
  ghost predicate Deciding(claims: seq<Claim>, attribute: string, policy: Policy, c: Claim) {
    if exists d :: Counts(claims, attribute, d) && Grants(policy, d, Authoritative)
    then Grants(policy, c, Authoritative)
    else if exists d :: Counts(claims, attribute, d) && Grants(policy, d, Observed) then Grants(policy, c, Observed)
      else true
  }

  /** The value is that of a most recent claim with the authority that decides, whatever the
      times of the others; connectors that the policy does not list count as DECLARED. */
  lemma AuthorityDecides(claims: seq<Claim>, attribute: string, policy: Policy)
    ensures var r := EffectiveOf(claims, attribute, policy);
            && (r.value == None <==> !exists c :: Counts(claims, attribute, c))
            && (r.value.Some? ==>
                  exists c :: Counts(claims, attribute, c) && Deciding(claims, attribute, policy, c)
                              && c.value == r.value.value
                              && forall d :: Counts(claims, attribute, d) && Deciding(claims, attribute, policy, d) ==>
                                               d.observedAt <= c.observedAt)
            && (r.conflict <==> exists c, d :: Counts(claims, attribute, c) && Counts(claims, attribute, d)
                                               && c.value != d.value)
  {
    hide EffectiveOf, Active, Ahead, Deciding;
    EffectiveFacts(claims, attribute, policy);
    forall c ensures c in Active(claims, attribute) <==> Counts(claims, attribute, c) {
      ActiveMembers(claims, attribute, c);
    }
    var r := EffectiveOf(claims, attribute, policy);
    if r.value.Some? {
      var c :| c in Active(claims, attribute) && c.value == r.value.value
               && forall d :: d in Active(claims, attribute) ==> !Ahead(policy, d, c);
      BestDecides(claims, attribute, policy, c);
    }
  }

  lemma BestDecides(claims: seq<Claim>, attribute: string, policy: Policy, c: Claim)
    requires Counts(claims, attribute, c) && forall d :: Counts(claims, attribute, d) ==> !Ahead(policy, d, c)
    ensures Deciding(claims, attribute, policy, c)
    ensures forall d :: Counts(claims, attribute, d) && Deciding(claims, attribute, policy, d) ==>
                          d.observedAt <= c.observedAt
  {
  }

  // ---------- the SQL selection ----------

  /** Row `i` comes before row `j` by stored rank, then time. */
  predicate AheadStored(rows: seq<Claim>, ranks: seq<nat>, i: nat, j: nat)
    requires |rows| == |ranks| && i < |rows| && j < |rows|
  {
    ranks[i] > ranks[j] || (ranks[i] == ranks[j] && rows[i].observedAt > rows[j].observedAt)
  }

  /** The row that ordering by the rank stored with each claim, time and identifier, all
      descending, puts first. */
  ghost predicate IsFirstRow(rows: seq<Claim>, ranks: seq<nat>, ids: seq<int>, i: nat)
    requires |rows| == |ids| == |ranks|
  {
    i < |rows| && forall j :: 0 <= j < |rows| && j != i ==>
                                AheadStored(rows, ranks, i, j) || (!AheadStored(rows, ranks, j, i) && ids[i] >= ids[j])
  }

  /** When one claim is ahead of all others and the stored authorities are those of the policy,
      the SQL selection picks it too. */
  lemma SqlPicksTheSame(claims: seq<Claim>, attribute: string, policy: Policy, ranks: seq<nat>, ids: seq<int>, i: nat,
                        best: Claim)
    requires |Active(claims, attribute)| == |ids| == |ranks| && IsFirstRow(Active(claims, attribute), ranks, ids, i)
    requires forall j :: 0 <= j < |ranks| ==> ranks[j] == Rank(policy, Active(claims, attribute)[j])
    requires UniqueBest(policy, Active(claims, attribute), best)
    ensures Active(claims, attribute)[i] == best
    ensures EffectiveOf(claims, attribute, policy).value == Some(Active(claims, attribute)[i].value)
  {
    var active := Active(claims, attribute);
    var k :| 0 <= k < |active| && active[k] == best;
    assert active[i] in active;
    assert i != k ==> AheadStored(active, ranks, i, k) || !AheadStored(active, ranks, k, i);
    BestIsSelected(claims, attribute, policy, best);
  }

  /** When they are not, the selections can differ: the query follows the authority stored when
      the claim was recorded. */
  lemma StoredRankDecides(older: Claim, newer: Claim, policy: Policy, ids: seq<int>)
    requires older.active && newer.active && older.key == newer.key && older.observedAt < newer.observedAt && |ids| == 2
    requires Rank(policy, older) == Rank(policy, newer) == 1
    ensures IsFirstRow([older, newer], [2, 1], ids, 0)
    ensures EffectiveOf([older, newer], older.key, policy).value == Some(newer.value)
  {
    assert Active([older, newer], older.key) == [older, newer] by { ActiveTwo(older, newer); }
    assert UniqueBest(policy, [older, newer], newer);
    BestIsSelected([older, newer], older.key, policy, newer);
  }

  lemma ActiveTwo(a: Claim, b: Claim)
    requires a.active && b.active && a.key == b.key
    ensures Active([a, b], a.key) == [a, b]
  {
    assert [a, b][..1] == [a] && [a][..0] == [];
    assert Active([], a.key) == [];
    assert Active([a], a.key) == [a];
  }
}
