/** Strong identities: the immutable identifiers that may join observations automatically. */
module Resolution {

  const STRONG_KEYS: seq<string> := [
    "cloud_id", "kubernetes_uid", "docker_container_id", "vm_uuid", "hardware_uuid",
    "terraform_resource_id", "external_cmdb_id"
  ]

  const NIL_TEXT := "<nil>"

  predicate IsAsciiSpace(c: char) {
    c in {' ', '\t', '\n', '\U{b}', '\U{c}', '\r'}
  }

  /** The UTF-8 bytes of one white space character. */
  predicate IsSpace(v: string) {
    || (|v| == 1 && IsAsciiSpace(v[0]))
    || (|v| == 2 && v[0] == '\U{c2}' && v[1] in {'\U{85}', '\U{a0}'})
    || (|v| == 3 && IsWideSpace(v[0], v[1], v[2]))
  }

  predicate IsWideSpace(a: char, b: char, c: char) {
    || (a == '\U{e1}' && b == '\U{9a}' && c == '\U{80}')
    || (a == '\U{e2}' && b == '\U{80}' && ('\U{80}' <= c <= '\U{8a}' || c in {'\U{a8}', '\U{a9}', '\U{af}'}))
    || (a == '\U{e2}' && b == '\U{81}' && c == '\U{9f}')
    || (a == '\U{e3}' && b == '\U{80}' && c == '\U{80}')
  }

  /** The number of bytes of the white space character that the text starts with, or zero. */
  function Leading(v: string): (n: nat)
    ensures n <= |v| && (n > 0 ==> IsSpace(v[..n]))
  {
    if |v| >= 1 && IsSpace(v[..1]) then 1
    else if |v| >= 2 && IsSpace(v[..2]) then 2
    else if |v| >= 3 && IsSpace(v[..3]) then 3
    else 0
  }

  /** The number of bytes of the white space character that the text ends with, or zero. */
  function Trailing(v: string): (n: nat)
    ensures n <= |v| && (n > 0 ==> IsSpace(v[|v| - n..]))
  {
    if |v| >= 1 && IsSpace(v[|v| - 1..]) then 1
    else if |v| >= 2 && IsSpace(v[|v| - 2..]) then 2
    else if |v| >= 3 && IsSpace(v[|v| - 3..]) then 3
    else 0
  }

  /** Drops leading and trailing white space. */
  function TrimSpace(v: string): (r: string)
    ensures Leading(r) == 0 && Trailing(r) == 0
    ensures Leading(v) == 0 && Trailing(v) == 0 ==> r == v
    decreases |v|
  {
    hide Leading, Trailing;
    if Leading(v) > 0 then TrimSpace(v[Leading(v)..])
    else if Trailing(v) > 0 then TrimSpace(v[..|v| - Trailing(v)])
    else v
  }

  predicate IsVisible(c: char) {
    '!' <= c <= '~'
  }

  /** No white space character has a visible byte. */
  lemma VisibleIsNoSpace(v: string, i: nat)
    requires i < |v| && IsVisible(v[i])
    ensures !IsSpace(v)
  {
  }

  /** A text that starts and ends with a visible ASCII character is kept. */
  lemma VisibleKept(v: string)
    requires v != "" && IsVisible(v[0]) && IsVisible(v[|v| - 1])
    ensures TrimSpace(v) == v
  {
    hide IsSpace, IsVisible;
    forall n | 0 < n <= |v| ensures !IsSpace(v[..n]) {
      VisibleIsNoSpace(v[..n], 0);
    }
    forall i | 0 <= i < |v| ensures !IsSpace(v[i..]) {
      VisibleIsNoSpace(v[i..], |v| - i - 1);
    }
  }

  /** A text of white space characters only. */
  predicate AllSpace(v: string)
    decreases |v|
  {
    v == "" || exists n :: 0 < n <= |v| && IsSpace(v[..n]) && AllSpace(v[n..])
  }

  /** Trimming drops white space from both ends and nothing else. */
  lemma {:induction false} TrimDropsSpace(v: string) returns (lead: string, trail: string)
    ensures v == lead + TrimSpace(v) + trail && AllSpace(lead) && AllSpace(trail)
    decreases |v|
  {
    hide IsSpace, AllSpace, Leading, Trailing;
    if Leading(v) > 0 {
      var n := Leading(v);
      var inner;
      inner, trail := TrimDropsSpace(v[n..]);
      lead := v[..n] + inner;
      Rejoin(v[..n], inner, TrimSpace(v), trail);
      SpacesJoin(v[..n], inner) by { OneSpace(v[..n]); }
      assert v == v[..n] + v[n..];
    } else if Trailing(v) > 0 {
      var m := |v| - Trailing(v);
      var inner;
      lead, inner := TrimDropsSpace(v[..m]);
      trail := inner + v[m..];
      Rejoin(lead, TrimSpace(v), inner, v[m..]);
      SpacesJoin(inner, v[m..]) by { OneSpace(v[m..]); }
      assert v == v[..m] + v[m..];
    } else {
      lead, trail := "", "";
      assert AllSpace("") by { NoSpaces(); }
    }
  }

  lemma Rejoin(a: string, b: string, c: string, d: string)
    ensures a + (b + c + d) == a + b + c + d == a + b + (c + d)
  {
  }

  lemma {:induction false} SpacesJoin(a: string, b: string)
    requires AllSpace(a) && AllSpace(b)
    ensures AllSpace(a + b)
    decreases |a|
  {
    hide IsSpace;
    if a == "" {
      assert a + b == b;
    } else {
      var n :| 0 < n <= |a| && IsSpace(a[..n]) && AllSpace(a[n..]);
      SpacesJoin(a[n..], b);
      assert (a + b)[..n] == a[..n] && (a + b)[n..] == a[n..] + b;
    }
  }

  lemma OneSpace(v: string)
    requires IsSpace(v)
    ensures AllSpace(v)
  {
    assert v[..|v|] == v && v[|v|..] == "";
  }

  lemma NoSpaces()
    ensures AllSpace("")
  {
  }

  /** The printed, trimmed hint; an absent hint prints as the nil text. */
  function HintText(hints: map<string, string>, key: string): string {
    TrimSpace(if key in hints then hints[key] else NIL_TEXT)
  }

  predicate Usable(text: string) {
    text != "" && text != NIL_TEXT
  }

  /** The usable hints among `keys`. */
  function UsableHints(keys: seq<string>, hints: map<string, string>): map<string, string> {
    map k | k in keys && Usable(HintText(hints, k)) :: HintText(hints, k)
  }

  function StrongIdentities(hints: map<string, string>): map<string, string> {
    UsableHints(STRONG_KEYS, hints)
  }

  lemma UsableHintsSnoc(keys: seq<string>, key: string, hints: map<string, string>)
    ensures UsableHints(keys + [key], hints)
         == if Usable(HintText(hints, key)) then UsableHints(keys, hints)[key := HintText(hints, key)]
            else UsableHints(keys, hints)
  {
    hide HintText, Usable;
  }

  /** The loop over `keys`, in order, collects exactly the usable hints among them. */
  method CollectHints(keys: seq<string>, hints: map<string, string>) returns (m: map<string, string>)
    ensures m == UsableHints(keys, hints)
  {
    m := map[];
    assert keys[..0] == [];
    for i := 0 to |keys|
      invariant m == UsableHints(keys[..i], hints)
    {
      hide UsableHints;
      assert keys[..i + 1] == keys[..i] + [keys[i]];
      UsableHintsSnoc(keys[..i], keys[i], hints);
      var value := HintText(hints, keys[i]);
      if Usable(value) {
        m := m[keys[i] := value];
      }
    }
    assert keys[..|keys|] == keys;
  }

  /** An identity is strong exactly under one of seven keys, with a hint whose trimmed text is
      neither empty nor the nil text; that text is its value. */
  lemma StrongIff(hints: map<string, string>, key: string, value: string)
    ensures key in StrongIdentities(hints) && StrongIdentities(hints)[key] == value <==>
            && (key == "cloud_id" || key == "kubernetes_uid" || key == "docker_container_id" || key == "vm_uuid"
                || key == "hardware_uuid" || key == "terraform_resource_id" || key == "external_cmdb_id")
            && key in hints && TrimSpace(hints[key]) == value && value != "" && value != "<nil>"
  {
    hide TrimSpace;
    VisibleKept("<nil>");
    KeysAre(key);
  }

  lemma KeysAre(key: string)
    ensures key in STRONG_KEYS <==>
            key == "cloud_id" || key == "kubernetes_uid" || key == "docker_container_id" || key == "vm_uuid"
            || key == "hardware_uuid" || key == "terraform_resource_id" || key == "external_cmdb_id"
  {
    assert STRONG_KEYS[0] == "cloud_id" && STRONG_KEYS[1] == "kubernetes_uid"
           && STRONG_KEYS[2] == "docker_container_id" && STRONG_KEYS[3] == "vm_uuid"
           && STRONG_KEYS[4] == "hardware_uuid" && STRONG_KEYS[5] == "terraform_resource_id"
           && STRONG_KEYS[6] == "external_cmdb_id";
  }

  /** A strong identity value is a trimmed, non-empty text: padding a hint with white space
      never yields a different identity. */
  lemma StrongIdentityIgnoresPadding(hints: map<string, string>, key: string)
    requires key in hints
    ensures StrongIdentities(hints[key := TrimSpace(hints[key])]) == StrongIdentities(hints)
  {
    var padded := hints[key];
    if TrimSpace(padded) != "" {
      assert TrimSpace(TrimSpace(padded)) == TrimSpace(padded);
    }
    assert forall k :: HintText(hints[key := TrimSpace(padded)], k) == HintText(hints, k);
  }
}
