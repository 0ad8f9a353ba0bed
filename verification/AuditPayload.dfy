/** The payload of the event that ingest appends for every snapshot. */
module AuditPayload {
  import opened Audit
  import opened Domain

  function Digit(n: nat): char
    requires n < 10
  {
    "0123456789"[n]
  }

  function Decimal(n: nat): string {
    if n < 10 then [Digit(n)] else Decimal(n / 10) + [Digit(n % 10)]
  }

  function Member(m: (string, nat)): string {
    "\"" + m.0 + "\":" + Decimal(m.1)
  }

  function Rest(ms: seq<(string, nat)>): string {
    if ms == [] then "}" else "," + Member(ms[0]) + Rest(ms[1..])
  }

  function Object(first: (string, nat), rest: seq<(string, nat)>): string {
    "{" + (Member(first) + Rest(rest))
  }

  /** The text of the summary as a record: its fields in declaration order. */
  function InFieldOrder(sum: Summary): string {
    Object(("Created", sum.created), [
             ("Updated", sum.updated), ("Unchanged", sum.kept), ("Missing", sum.missing),
             ("Conflicting", sum.conflicting), ("RelationshipsCreated", sum.relationshipsCreated),
             ("RelationshipsRemoved", sum.relationshipsRemoved), ("Changes", sum.changes)])
  }

  /** The text of the same summary as a map, which is what is read back: its keys in order. */
  function InKeyOrder(sum: Summary): string {
    Object(("Changes", sum.changes), [
             ("Conflicting", sum.conflicting), ("Created", sum.created), ("Missing", sum.missing),
             ("RelationshipsCreated", sum.relationshipsCreated), ("RelationshipsRemoved", sum.relationshipsRemoved),
             ("Unchanged", sum.kept), ("Updated", sum.updated)])
  }

  lemma FirstKey(first: (string, nat), rest: seq<(string, nat)>, i: nat)
    requires i < |first.0|
    ensures |Object(first, rest)| > i + 2 && Object(first, rest)[i + 2] == first.0[i]
  {
    assert Object(first, rest) == ("{\"" + first.0) + ("\":" + Decimal(first.1) + Rest(rest));
  }

  /** The first keys are Created and Changes. */
  lemma OrdersDiffer(sum: Summary)
    ensures |InFieldOrder(sum)| > 3 && |InKeyOrder(sum)| > 3 && InFieldOrder(sum)[3] == 'r' && InKeyOrder(sum)[3] == 'h'
  {
    hide Object;
    FirstKey(("Created", sum.created), [
               ("Updated", sum.updated), ("Unchanged", sum.kept), ("Missing", sum.missing),
               ("Conflicting", sum.conflicting), ("RelationshipsCreated", sum.relationshipsCreated),
               ("RelationshipsRemoved", sum.relationshipsRemoved), ("Changes", sum.changes)], 1);
    FirstKey(("Changes", sum.changes), [
               ("Conflicting", sum.conflicting), ("Created", sum.created), ("Missing", sum.missing),
               ("RelationshipsCreated", sum.relationshipsCreated), ("RelationshipsRemoved", sum.relationshipsRemoved),
               ("Unchanged", sum.kept), ("Updated", sum.updated)], 1);
  }

  /** The event of a reconciled snapshot never verifies: its summary is hashed in field order and
      read back in key order. */
  lemma SnapshotEventBreaksChain(c: Crypto, k: Columns, rows: seq<Event>, x: Content, sum: Summary, before: string,
                                 after: string)
    requires HasColumns(k) && Sound(c) && Ordered(rows) && Chain(c, rows)
    requires x.payload == before + (InFieldOrder(sum) + after)
    requires k.payload(x.payload) == before + (InKeyOrder(sum) + after)
    ensures !Chain(c, InsertRow(rows, RowFor(c, k, rows, x)))
  {
    hide Sound, Ordered, Chain, InsertRow, RowFor, InFieldOrder, InKeyOrder;
    OrdersDiffer(sum);
    assert x.payload[|before| + 3] == 'r' && k.payload(x.payload)[|before| + 3] == 'h';
    PayloadBreaksChain(c, k, rows, x);
  }
}
