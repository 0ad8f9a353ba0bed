/** The audit hash chain of one organization. The digest and the canonical form are abstract
    injective functions; an event identifier is represented by its rank in the sort order. */
module Audit {

  /** What an event says; the canonical form covers all of it. Times are in nanoseconds. */
  datatype Content = Content(id: int, org: string, actor: string, action: string, resourceType: string,
                             resource: string, request: string, payload: string, occurredAt: int)

  datatype Event = Event(content: Content, previousHash: string, eventHash: string)

  datatype Crypto = Crypto(digest: string -> string, canonical: Content -> string)

  /** What the table keeps of an event: whole multiples of `resolution` nanoseconds, and the text
      that the payload has once it went through its JSON column and was encoded again. */
  datatype Columns = Columns(resolution: nat, payload: string -> string)

  /** The ideal digest: injective, and a non-empty text without a zero byte, as hexadecimal
      digests are. The canonical form is injective too. */
  ghost predicate Sound(c: Crypto) {
    && (forall x, y :: c.digest(x) == c.digest(y) ==> x == y)
    && (forall x, y :: c.canonical(x) == c.canonical(y) ==> x == y)
    && (forall x :: c.digest(x) != "" && '\0' !in c.digest(x))
  }

  /** Digest of the previous hash, a zero byte and the canonical form. */
  function AuditHash(c: Crypto, previous: string, content: Content): string {
    c.digest(previous + ['\0'] + c.canonical(content))
  }

  function FinalHash(events: seq<Event>): string {
    if events == [] then "" else events[|events| - 1].eventHash
  }

  /** Every event links to the one before it and its hash matches its content. */
  ghost predicate Chain(c: Crypto, events: seq<Event>) {
    forall i :: 0 <= i < |events| ==> Links(c, FinalHash(events[..i]), events[i])
  }

  predicate Links(c: Crypto, previous: string, e: Event) {
    e.previousHash == previous && e.eventHash == AuditHash(c, previous, e.content)
  }

  /** The verification loop accepts exactly the chains. */
  method Verify(c: Crypto, events: seq<Event>) returns (ok: bool)
    ensures ok <==> Chain(c, events)
  {
    hide AuditHash, FinalHash;
    var previous := "";
    assert FinalHash(events[..0]) == "" by { NoFinalHash(events); }
    for i := 0 to |events|
      invariant previous == FinalHash(events[..i])
      invariant forall j :: 0 <= j < i ==> Links(c, FinalHash(events[..j]), events[j])
    {
      var e := events[i];
      if e.previousHash != previous || e.eventHash != AuditHash(c, previous, e.content) {
        assert !Links(c, FinalHash(events[..i]), events[i]);
        return false;
      }
      previous := e.eventHash;
      FinalHashStep(events, i);
    }
    return true;
  }

  lemma NoFinalHash(events: seq<Event>)
    ensures FinalHash(events[..0]) == ""
  {
  }

  lemma FinalHashStep(events: seq<Event>, i: nat)
    requires i < |events|
    ensures FinalHash(events[..i + 1]) == events[i].eventHash
  {
  }

  // ---------- the last hash determines the history ----------

  lemma {:induction false} SplitAtZero(p: string, q: string, x: string, y: string)
    requires '\0' !in p && '\0' !in q && p + ['\0'] + x == q + ['\0'] + y
    ensures p == q && x == y
  {
    var s, t := p + ['\0'] + x, q + ['\0'] + y;
    assert s[|p|] == '\0' && t[|q|] == '\0';
    assert p == s[..|p|] == t[..|q|] == q;
    assert x == s[|p| + 1..] && y == t[|q| + 1..];
  }

  /** Hashes that chain links carry. */
  predicate HashText(h: string) {
    '\0' !in h
  }

  lemma HashInjective(c: Crypto, p: string, q: string, x: Content, y: Content)
    requires Sound(c) && HashText(p) && HashText(q) && AuditHash(c, p, x) == AuditHash(c, q, y)
    ensures p == q && x == y
  {
    SplitAtZero(p, q, c.canonical(x), c.canonical(y));
  }

  lemma ChainPrefix(c: Crypto, events: seq<Event>, n: nat)
    requires Chain(c, events) && n <= |events|
    ensures Chain(c, events[..n])
  {
    forall i | 0 <= i < n ensures Links(c, FinalHash(events[..n][..i]), events[..n][i]) {
      assert events[..n][..i] == events[..i];
    }
  }

  lemma ChainLast(c: Crypto, events: seq<Event>)
    requires Chain(c, events) && events != []
    ensures Links(c, FinalHash(events[..|events| - 1]), events[|events| - 1])
  {
  }

  lemma FinalHashText(c: Crypto, events: seq<Event>)
    requires Sound(c) && Chain(c, events)
    ensures HashText(FinalHash(events)) && (FinalHash(events) == "" <==> events == [])
  {
    if events != [] {
      assert Links(c, FinalHash(events[..|events| - 1]), events[|events| - 1]);
    }
  }

  /** Two chains of any lengths with the same final hash are equal event by event. */
  lemma {:induction false} FinalHashDetermines(c: Crypto, a: seq<Event>, b: seq<Event>)
    requires Sound(c) && Chain(c, a) && Chain(c, b) && FinalHash(a) == FinalHash(b)
    ensures a == b
  {
    hide Sound, Chain, HashText, AuditHash;
    FinalHashText(c, a);
    FinalHashText(c, b);
    if a != [] {
      var m, n := |a| - 1, |b| - 1;
      ChainPrefix(c, a, m);
      ChainPrefix(c, b, n);
      FinalHashText(c, a[..m]);
      FinalHashText(c, b[..n]);
      ChainLast(c, a);
      ChainLast(c, b);
      HashInjective(c, FinalHash(a[..m]), FinalHash(b[..n]), a[m].content, b[n].content);
      FinalHashDetermines(c, a[..m], b[..n]);
      assert a == a[..m] + [a[m]] && b == b[..n] + [b[n]];
    }
  }

  /** The hash of a proper prefix never recurs as the final hash. */
  lemma PrefixHashDiffers(c: Crypto, events: seq<Event>, n: nat)
    requires Sound(c) && Chain(c, events) && n < |events|
    ensures FinalHash(events[..n]) != FinalHash(events)
  {
    ChainPrefix(c, events, n);
    if FinalHash(events[..n]) == FinalHash(events) {
      FinalHashDetermines(c, events[..n], events);
    }
  }

  // ---------- appending ----------

  predicate HasColumns(k: Columns) {
    k.resolution >= 1
  }

  /** What is read back of an event. */
  function Stored(k: Columns, x: Content): Content
    requires HasColumns(k)
  {
    x.(occurredAt := x.occurredAt - x.occurredAt % k.resolution, payload := k.payload(x.payload))
  }

  /** The columns keep the event as it is. */
  predicate Storable(k: Columns, x: Content)
    requires HasColumns(k)
  {
    x.occurredAt % k.resolution == 0 && k.payload(x.payload) == x.payload
  }

  predicate Before(a: Content, b: Content) {
    a.occurredAt < b.occurredAt || (a.occurredAt == b.occurredAt && a.id < b.id)
  }

  /** The rows in read order: by time, then by identifier. */
  predicate Ordered(rows: seq<Event>) {
    forall i, j :: 0 <= i < j < |rows| ==> Before(rows[i].content, rows[j].content)
  }

  function InsertRow(rows: seq<Event>, e: Event): (r: seq<Event>) {
    if rows == [] || Before(e.content, rows[0].content) then [e] + rows else [rows[0]] + InsertRow(rows[1..], e)
  }

  /** What is stored for content `x`: linked to the latest row and hashed with its own time,
      then kept with the time and payload that the columns can hold. */
  function RowFor(c: Crypto, k: Columns, rows: seq<Event>, x: Content): Event
    requires HasColumns(k)
  {
    Event(Stored(k, x), FinalHash(rows), AuditHash(c, FinalHash(rows), x))
  }

  predicate Taken(rows: seq<Event>, id: int) {
    exists i :: 0 <= i < |rows| && rows[i].content.id == id
  }

  lemma {:induction false} InsertSplits(rows: seq<Event>, e: Event) returns (n: nat)
    requires Ordered(rows)
    ensures n <= |rows| && InsertRow(rows, e) == rows[..n] + [e] + rows[n..]
    ensures forall i :: 0 <= i < n ==> !Before(e.content, rows[i].content)
    ensures n < |rows| ==> Before(e.content, rows[n].content)
  {
    if rows == [] || Before(e.content, rows[0].content) {
      n := 0;
    } else {
      var m := InsertSplits(rows[1..], e);
      n := m + 1;
      assert rows == [rows[0]] + rows[1..];
      forall i | 0 <= i < n ensures !Before(e.content, rows[i].content) {
        if i > 0 { assert rows[i] == rows[1..][i - 1]; }
      }
    }
  }

  lemma InsertOrdered(rows: seq<Event>, e: Event)
    requires Ordered(rows) && !Taken(rows, e.content.id)
    ensures Ordered(InsertRow(rows, e))
  {
    var n := InsertSplits(rows, e);
    var r := InsertRow(rows, e);
    forall i, j | 0 <= i < j < |r| ensures Before(r[i].content, r[j].content) {
      if i == n {
        assert r[j] == rows[j - 1];
      } else if j == n {
        assert r[i] == rows[i] && rows[i].content.id != e.content.id;
      }
    }
  }

  /** One organization's audit table. */
  class Log {
    var rows: seq<Event>

    constructor ()
      ensures rows == []
    {
      rows := [];
    }

    /** Appends an event, at `now` if it has no time: the previous hash is that of the latest row
        by time and identifier. */
    method Append(c: Crypto, k: Columns, event: Content, now: int) returns (ok: bool)
      requires HasColumns(k) && Ordered(rows)
      modifies this
      ensures ok <==> event.org != "" && event.action != "" && !Taken(old(rows), event.id)
      ensures !ok ==> rows == old(rows)
      ensures ok && event.occurredAt != 0 ==> rows == InsertRow(old(rows), RowFor(c, k, old(rows), event))
      ensures ok && event.occurredAt == 0 ==>
                rows == InsertRow(old(rows), RowFor(c, k, old(rows), event.(occurredAt := now)))
      ensures Ordered(rows)
    {
      if event.org == "" || event.action == "" { return false; }
      var x := event;
      if x.occurredAt == 0 {
        x := x.(occurredAt := now);
      }
      var previous := if rows == [] then "" else rows[|rows| - 1].eventHash;
      var hash := AuditHash(c, previous, x);
      if Taken(rows, x.id) { return false; }
      var row := Event(Stored(k, x), previous, hash);
      InsertOrdered(rows, row);
      rows := InsertRow(rows, row);
      ok := true;
    }
  }

  /** Appending to a verified chain leaves a verified chain, in read order, exactly when the
      event is later than every row (by stored time, then identifier) and its time and its
      payload survive storage as they were hashed. */
  lemma AppendVerifiesIff(c: Crypto, k: Columns, rows: seq<Event>, x: Content)
    requires HasColumns(k) && Sound(c) && Ordered(rows) && Chain(c, rows)
    ensures var e := RowFor(c, k, rows, x);
            Chain(c, InsertRow(rows, e)) <==>
            && Storable(k, x)
            && (forall i :: 0 <= i < |rows| ==> !Before(e.content, rows[i].content))
  {
    hide Sound, HashText, Before, Links, InsertRow, RowFor, FinalHash;
    var e := RowFor(c, k, rows, x);
    var n := InsertSplits(rows, e);
    var r := InsertRow(rows, e);
    FinalHashText(c, rows);
    if n == |rows| {
      assert r == rows + [e];
      LastLinks(c, k, rows, x, e);
      SnocChain(c, rows, e);
    } else {
      assert r[..n] == rows[..n] && r[n] == e;
      PrefixHashDiffers(c, rows, n);
      if Links(c, FinalHash(r[..n]), r[n]) {
        RowLinksToLast(c, k, rows, x, FinalHash(rows[..n]));
      }
    }
  }

  lemma RowLinksToLast(c: Crypto, k: Columns, rows: seq<Event>, x: Content, previous: string)
    requires HasColumns(k) && Links(c, previous, RowFor(c, k, rows, x))
    ensures previous == FinalHash(rows)
  {
  }

  lemma SnocChain(c: Crypto, rows: seq<Event>, e: Event)
    requires Chain(c, rows)
    ensures Chain(c, rows + [e]) <==> Links(c, FinalHash(rows), e)
  {
    var r := rows + [e];
    assert r[..|rows|] == rows && r[|rows|] == e;
    forall i | 0 <= i < |rows| ensures Links(c, FinalHash(r[..i]), r[i]) {
      assert r[..i] == rows[..i] && r[i] == rows[i];
    }
  }

  lemma LastLinks(c: Crypto, k: Columns, rows: seq<Event>, x: Content, e: Event)
    requires HasColumns(k) && Sound(c) && e == RowFor(c, k, rows, x) && HashText(FinalHash(rows))
    ensures Links(c, FinalHash(rows), e) <==> Storable(k, x)
  {
    if AuditHash(c, FinalHash(rows), x) == AuditHash(c, FinalHash(rows), e.content) {
      HashInjective(c, FinalHash(rows), FinalHash(rows), x, e.content);
      assert x.occurredAt == e.content.occurredAt;
    }
  }

  /** The table after appending `xs` one by one. */
  function Appended(c: Crypto, k: Columns, xs: seq<Content>): seq<Event>
    requires HasColumns(k)
  {
    if xs == [] then []
    else
      var rows := Appended(c, k, xs[..|xs| - 1]);
      InsertRow(rows, RowFor(c, k, rows, xs[|xs| - 1]))
  }

  /** A row appended to a table that was not a chain, or in front of another row, gives no chain. */
  lemma ChainBefore(c: Crypto, k: Columns, rows: seq<Event>, x: Content)
    requires HasColumns(k) && Sound(c) && Ordered(rows) && Chain(c, InsertRow(rows, RowFor(c, k, rows, x)))
    ensures Chain(c, rows)
  {
    hide Sound, Before, InsertRow, RowFor, FinalHash, Links;
    var e := RowFor(c, k, rows, x);
    var n := InsertSplits(rows, e);
    var r := InsertRow(rows, e);
    assert r[n] == e && Links(c, FinalHash(r[..n]), r[n]);
    if n < |rows| {
      SameEnd(rows, r, n, e);
      RowLinksToLast(c, k, rows, x, FinalHash(r[..n]));
      PrefixHashDiffers(c, r, n);
    } else {
      assert r[..n] == rows;
      ChainPrefix(c, r, n);
    }
  }

  lemma SameEnd(rows: seq<Event>, r: seq<Event>, n: nat, e: Event)
    requires n < |rows| && r == rows[..n] + [e] + rows[n..]
    ensures FinalHash(r) == FinalHash(rows)
  {
    assert r[|r| - 1] == rows[|rows| - 1];
  }

  /** Events that the columns can hold, with times, and identifiers at equal times, that increase
      in the order of the appends. */
  predicate InSequence(k: Columns, xs: seq<Content>)
    requires HasColumns(k)
  {
    && (forall i :: 0 <= i < |xs| ==> Storable(k, xs[i]))
    && (forall i, j :: 0 <= i < j < |xs| ==>
                         xs[i].occurredAt < xs[j].occurredAt
                         || (xs[i].occurredAt == xs[j].occurredAt && xs[i].id < xs[j].id))
  }

  lemma InSequenceSnoc(k: Columns, xs: seq<Content>)
    requires HasColumns(k) && xs != []
    ensures var m := |xs| - 1;
            InSequence(k, xs) <==>
            InSequence(k, xs[..m]) && Storable(k, xs[m]) && forall i :: 0 <= i < m ==> Before(xs[i], xs[m])
  {
    var m := |xs| - 1;
    assert forall i :: 0 <= i < m ==> xs[..m][i] == xs[i];
  }

  /** Every row has the identifier of an appended event. */
  ghost predicate IdsFrom(rows: seq<Event>, xs: seq<Content>) {
    |rows| == |xs| && forall i :: 0 <= i < |rows| ==> exists j :: 0 <= j < |xs| && rows[i].content.id == xs[j].id
  }

  lemma IdsSnoc(rows: seq<Event>, xs: seq<Content>, e: Event)
    requires xs != [] && Ordered(rows) && IdsFrom(rows, xs[..|xs| - 1]) && e.content.id == xs[|xs| - 1].id
    ensures IdsFrom(InsertRow(rows, e), xs)
  {
    hide Before, InsertRow;
    var m, r := |xs| - 1, InsertRow(rows, e);
    var n := InsertSplits(rows, e);
    forall i | 0 <= i < |r| ensures exists j :: 0 <= j < |xs| && r[i].content.id == xs[j].id {
      if i == n {
        assert r[i].content.id == xs[m].id;
      } else {
        var row := if i < n then rows[i] else rows[i - 1];
        assert r[i] == row && row in rows;
        var j :| 0 <= j < m && row.content.id == xs[..m][j].id;
        assert r[i].content.id == xs[j].id;
      }
    }
  }

  /** A run of appends of events with distinct identifiers gives a verified chain exactly when
      every event survives storage and the times, then identifiers, increase; the read order is then
      the order of the appends. */
  lemma {:induction false} AppendsVerifyIff(c: Crypto, k: Columns, xs: seq<Content>)
    requires HasColumns(k) && Sound(c)
    requires forall i, j :: 0 <= i < j < |xs| ==> xs[i].id != xs[j].id
    ensures var rows := Appended(c, k, xs);
            && Ordered(rows) && |rows| == |xs| && IdsFrom(rows, xs)
            && (Chain(c, rows) <==> InSequence(k, xs))
            && (Chain(c, rows) ==> forall i :: 0 <= i < |xs| ==> rows[i].content == xs[i])
  {
    hide Sound, Chain, InsertRow, InSequence, IdsFrom, Ordered, Before, RowFor;
    if xs == [] {
      EmptyTable(c, k);
    } else {
      var m := |xs| - 1;
      var rows := Appended(c, k, xs[..m]);
      AppendsVerifyIff(c, k, xs[..m]);
      AppendOne(c, k, xs, rows);
    }
  }

  lemma EmptyTable(c: Crypto, k: Columns)
    requires HasColumns(k)
    ensures Ordered([]) && IdsFrom([], []) && Chain(c, []) && InSequence(k, [])
  {
  }

  lemma AppendOne(c: Crypto, k: Columns, xs: seq<Content>, rows: seq<Event>)
    requires HasColumns(k) && Sound(c) && xs != [] && Ordered(rows) && IdsFrom(rows, xs[..|xs| - 1])
    requires forall i, j :: 0 <= i < j < |xs| ==> xs[i].id != xs[j].id
    requires Chain(c, rows) <==> InSequence(k, xs[..|xs| - 1])
    requires Chain(c, rows) ==> forall i :: 0 <= i < |rows| ==> rows[i].content == xs[i]
    ensures var r := InsertRow(rows, RowFor(c, k, rows, xs[|xs| - 1]));
            && Ordered(r) && |r| == |xs| && IdsFrom(r, xs)
            && (Chain(c, r) <==> InSequence(k, xs))
            && (Chain(c, r) ==> forall i :: 0 <= i < |xs| ==> r[i].content == xs[i])
  {
    hide Sound, Chain, InsertRow, InSequence, Ordered, Before;
    var m := |xs| - 1;
    var e := RowFor(c, k, rows, xs[m]);
    var r := InsertRow(rows, e);
    InsertOrdered(rows, e) by { NotTaken(rows, xs, e); }
    IdsSnoc(rows, xs, e);
    InSequenceSnoc(k, xs);
    if Chain(c, r) {
      ChainBefore(c, k, rows, xs[m]);
    }
    if Chain(c, rows) {
      AppendVerifiesIff(c, k, rows, xs[m]);
      LastInOrder(rows, xs, e, Storable(k, xs[m]));
    }
  }

  lemma NotTaken(rows: seq<Event>, xs: seq<Content>, e: Event)
    requires xs != [] && IdsFrom(rows, xs[..|xs| - 1]) && e.content.id == xs[|xs| - 1].id
    requires forall i, j :: 0 <= i < j < |xs| ==> xs[i].id != xs[j].id
    ensures !Taken(rows, e.content.id)
  {
    forall i | 0 <= i < |rows| ensures rows[i].content.id != e.content.id {
      var j :| 0 <= j < |xs| - 1 && rows[i].content.id == xs[..|xs| - 1][j].id;
      assert xs[j].id != xs[|xs| - 1].id;
    }
  }

  /** With distinct identifiers, a row that no row comes after is last, and conversely. */
  lemma LastInOrder(rows: seq<Event>, xs: seq<Content>, e: Event, storable: bool)
    requires xs != [] && |rows| == |xs| - 1 && Ordered(rows) && e.content.id == xs[|xs| - 1].id
    requires (storable ==> e.content == xs[|xs| - 1])
    requires forall i :: 0 <= i < |rows| ==> rows[i].content == xs[i]
    requires forall i, j :: 0 <= i < j < |xs| ==> xs[i].id != xs[j].id
    ensures storable ==> ((forall i :: 0 <= i < |rows| ==> !Before(e.content, rows[i].content)) <==>
                          (forall i :: 0 <= i < |rows| ==> Before(xs[i], xs[|xs| - 1])))
    ensures storable && (forall i :: 0 <= i < |rows| ==> !Before(e.content, rows[i].content)) ==>
              InsertRow(rows, e) == rows + [e] && forall i :: 0 <= i < |xs| ==> (rows + [e])[i].content == xs[i]
  {
    hide InsertRow;
    var n := InsertSplits(rows, e);
    assert forall i :: 0 <= i < |rows| ==> xs[i].id != xs[|xs| - 1].id;
    if n == |rows| {
      assert rows[..n] + [e] + rows[n..] == rows + [e];
    }
  }

  /** With a column of microseconds, an event at a finer time breaks every chain it is appended to. */
  lemma RoundingBreaksChain(c: Crypto, k: Columns, rows: seq<Event>, x: Content)
    requires k.resolution == 1000 && Sound(c) && Ordered(rows) && Chain(c, rows) && x.occurredAt % 1000 != 0
    ensures !Chain(c, InsertRow(rows, RowFor(c, k, rows, x)))
  {
    hide Sound, Ordered, Chain, InsertRow, RowFor;
    AppendVerifiesIff(c, k, rows, x);
  }

  /** An event whose payload the JSON column does not give back as it was hashed breaks every
      chain it is appended to, whatever its time. */
  lemma PayloadBreaksChain(c: Crypto, k: Columns, rows: seq<Event>, x: Content)
    requires HasColumns(k) && Sound(c) && Ordered(rows) && Chain(c, rows) && k.payload(x.payload) != x.payload
    ensures !Chain(c, InsertRow(rows, RowFor(c, k, rows, x)))
  {
    hide Sound, Ordered, Chain, InsertRow, RowFor;
    AppendVerifiesIff(c, k, rows, x);
  }
}
