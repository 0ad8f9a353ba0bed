/** An ideal digest and canonical form, so that the assumptions on them can be met. */
module AuditIdeal {
  import opened Audit

  // ---------- a digest without zero bytes ----------

  function Escape(x: string): string {
    if x == "" then "" else (if x[0] == '\0' then "00" else ['1', x[0]]) + Escape(x[1..])
  }

  lemma {:induction false} EscapeNoZero(x: string)
    ensures '\0' !in Escape(x)
  {
    if x != "" {
      EscapeNoZero(x[1..]);
    }
  }

  lemma {:induction false} EscapeInjective(x: string, y: string)
    requires Escape(x) == Escape(y)
    ensures x == y
  {
    if x != "" && y != "" {
      assert Escape(x)[..2] == (if x[0] == '\0' then "00" else ['1', x[0]]);
      assert Escape(y)[..2] == (if y[0] == '\0' then "00" else ['1', y[0]]);
      assert Escape(x)[2..] == Escape(x[1..]) && Escape(y)[2..] == Escape(y[1..]);
      assert (if x[0] == '\0' then "00" else ['1', x[0]])[1] == (if y[0] == '\0' then "00" else ['1', y[0]])[1];
      assert (if x[0] == '\0' then "00" else ['1', x[0]])[0] == (if y[0] == '\0' then "00" else ['1', y[0]])[0];
      EscapeInjective(x[1..], y[1..]);
      assert x == [x[0]] + x[1..] && y == [y[0]] + y[1..];
    }
  }

  function Digest(x: string): string {
    "h" + Escape(x)
  }

  lemma DigestInjective(x: string, y: string)
    requires Digest(x) == Digest(y)
    ensures x == y
  {
    assert Digest(x)[1..] == Escape(x) && Digest(y)[1..] == Escape(y);
    EscapeInjective(x, y);
  }

  // ---------- a canonical form that determines its content ----------

  /** A text that shows where it ends. */
  function Field(x: string): string {
    if x == "" then "0" else ['1', x[0]] + Field(x[1..])
  }

  lemma {:induction false} FieldSplits(x: string, y: string, after: string, other: string)
    requires Field(x) + after == Field(y) + other
    ensures x == y && after == other
  {
    var a, b := Field(x) + after, Field(y) + other;
    assert a[0] == Field(x)[0] && b[0] == Field(y)[0];
    if x == "" {
      assert a[1..] == after && b[1..] == other;
    } else {
      assert a[1] == x[0] && b[1] == y[0];
      assert a[2..] == Field(x[1..]) + after && b[2..] == Field(y[1..]) + other;
      FieldSplits(x[1..], y[1..], after, other);
      assert x == [x[0]] + x[1..] && y == [y[0]] + y[1..];
    }
  }

  function Unary(n: int): string {
    if n >= 0 then seq(n, i => 'p') else seq(-n, i => 'm')
  }

  lemma UnaryInjective(m: int, n: int)
    requires Unary(m) == Unary(n)
    ensures m == n
  {
    assert |Unary(m)| == |Unary(n)|;
    if m > 0 { assert Unary(m)[0] == 'p'; }
    if n > 0 { assert Unary(n)[0] == 'p'; }
  }

  function Tail(x: Content): string {
    Field(x.resource) + (Field(x.request) + (Field(x.payload) + Field(Unary(x.occurredAt))))
  }

  function Canonical(x: Content): string {
    Field(Unary(x.id)) + (Field(x.org) + (Field(x.actor) + (Field(x.action) + (Field(x.resourceType) + Tail(x)))))
  }

  lemma TailInjective(x: Content, y: Content)
    requires Tail(x) == Tail(y)
    ensures x.resource == y.resource && x.request == y.request && x.payload == y.payload && x.occurredAt == y.occurredAt
  {
    hide Field, Unary;
    var p, q := Field(x.payload) + Field(Unary(x.occurredAt)), Field(y.payload) + Field(Unary(y.occurredAt));
    FieldSplits(x.resource, y.resource, Field(x.request) + p, Field(y.request) + q);
    FieldSplits(x.request, y.request, p, q);
    FieldSplits(x.payload, y.payload, Field(Unary(x.occurredAt)), Field(Unary(y.occurredAt)));
    var s, t := Field(Unary(x.occurredAt)), Field(Unary(y.occurredAt));
    assert s + "" == s && t + "" == t;
    FieldSplits(Unary(x.occurredAt), Unary(y.occurredAt), "", "");
    UnaryInjective(x.occurredAt, y.occurredAt);
  }

  lemma CanonicalInjective(x: Content, y: Content)
    requires Canonical(x) == Canonical(y)
    ensures x == y
  {
    hide Field, Unary, Tail;
    var p4, q4 := Field(x.resourceType) + Tail(x), Field(y.resourceType) + Tail(y);
    var p3, q3 := Field(x.action) + p4, Field(y.action) + q4;
    var p2, q2 := Field(x.actor) + p3, Field(y.actor) + q3;
    var p1, q1 := Field(x.org) + p2, Field(y.org) + q2;
    FieldSplits(Unary(x.id), Unary(y.id), p1, q1);
    FieldSplits(x.org, y.org, p2, q2);
    FieldSplits(x.actor, y.actor, p3, q3);
    FieldSplits(x.action, y.action, p4, q4);
    FieldSplits(x.resourceType, y.resourceType, Tail(x), Tail(y));
    UnaryInjective(x.id, y.id);
    TailInjective(x, y);
  }

  /** The assumptions on the digest and the canonical form can be met. */
  lemma IdealIsSound()
    ensures Sound(Crypto(x => Digest(x), x => Canonical(x)))
  {
    hide Digest, Canonical;
    forall x, y | Digest(x) == Digest(y) ensures x == y {
      DigestInjective(x, y);
    }
    forall x, y | Canonical(x) == Canonical(y) ensures x == y {
      CanonicalInjective(x, y);
    }
    forall x ensures Digest(x) != "" && '\0' !in Digest(x) {
      DigestText(x);
    }
  }

  lemma DigestText(x: string)
    ensures Digest(x) != "" && '\0' !in Digest(x)
  {
    EscapeNoZero(x);
  }
}
