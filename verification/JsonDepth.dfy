/** The byte scanner that bounds the nesting of a JSON text before it is decoded, against the
    grammar of sections 2 to 7 of RFC 8259. */
module JsonDepth {

  // ---------- JSON texts ----------

  /** A unit of a string: a plain byte, or a backslash and the byte after it. The four digits
      of a Unicode escape are plain bytes here. */
  datatype Piece = Plain(c: char) | Escape(c: char)

  /** A JSON text with all its spelling choices: the text of numbers and literals, the escapes
      in strings and the white space around every structural character. */
  datatype Json =
    | Atom(text: string)
    | Text(pieces: seq<Piece>)
    | Array(pad: string, items: Items)
    | Object(pad: string, members: Members)

  datatype Items = NoItems | Item(lead: string, value: Json, trail: string, rest: Items)

  datatype Members = NoMembers | Member(lead: string, key: seq<Piece>, beforeColon: string, afterColon: string,
                                        value: Json, trail: string, rest: Members)

  predicate Space(s: string) {
    forall i :: 0 <= i < |s| ==> s[i] in {' ', '\t', '\n', '\r'}
  }

  predicate ValidAtom(s: string) {
    s in {"null", "true", "false"} || (s != "" && forall i :: 0 <= i < |s| ==> s[i] in "0123456789+-.eE")
  }

  predicate ValidPieces(ps: seq<Piece>) {
    forall i :: 0 <= i < |ps| && ps[i].Plain? ==> ps[i].c != '"' && ps[i].c != '\\'
  }

  predicate Valid(j: Json) {
    match j
    case Atom(text) => ValidAtom(text)
    case Text(pieces) => ValidPieces(pieces)
    case Array(pad, items) => Space(pad) && ValidItems(items)
    case Object(pad, members) => Space(pad) && ValidMembers(members)
  }

  predicate ValidItems(items: Items) {
    match items
    case NoItems => true
    case Item(lead, value, trail, rest) => Space(lead) && Space(trail) && Valid(value) && ValidItems(rest)
  }

  predicate ValidMembers(members: Members) {
    match members
    case NoMembers => true
    case Member(lead, key, before, after, value, trail, rest) =>
      && Space(lead) && Space(before) && Space(after) && Space(trail)
      && ValidPieces(key) && Valid(value) && ValidMembers(rest)
  }

  function RenderPieces(ps: seq<Piece>): string {
    if ps == [] then ""
    else RenderPieces(ps[..|ps| - 1]) + (match ps[|ps| - 1] case Plain(c) => [c] case Escape(c) => ['\\', c])
  }

  function RenderText(ps: seq<Piece>): string {
    "\"" + RenderPieces(ps) + "\""
  }

  /** The bytes of a JSON text. */
  function Render(j: Json): string {
    match j
    case Atom(text) => text
    case Text(pieces) => RenderText(pieces)
    case Array(pad, items) => "[" + (if items.NoItems? then pad else RenderItems(items)) + "]"
    case Object(pad, members) => "{" + (if members.NoMembers? then pad else RenderMembers(members)) + "}"
  }

  function RenderItems(items: Items): string {
    match items
    case NoItems => ""
    case Item(lead, value, trail, rest) =>
      lead + Render(value) + trail + (if rest.NoItems? then "" else "," + RenderItems(rest))
  }

  function RenderKey(lead: string, key: seq<Piece>, before: string, after: string): string {
    lead + RenderText(key) + before + ":" + after
  }

  function RenderMembers(members: Members): string {
    match members
    case NoMembers => ""
    case Member(lead, key, before, after, value, trail, rest) =>
      RenderKey(lead, key, before, after) + (Render(value) + trail)
      + (if rest.NoMembers? then "" else "," + RenderMembers(rest))
  }

  // ---------- nesting depth ----------

  function Max(a: int, b: int): int { if a < b then b else a }

  /** The number of arrays and objects on the deepest branch of the value. */
  function Depth(j: Json): nat {
    match j
    case Atom(_) => 0
    case Text(_) => 0
    case Array(_, items) => 1 + ItemsDepth(items)
    case Object(_, members) => 1 + MembersDepth(members)
  }

  function ItemsDepth(items: Items): nat {
    match items
    case NoItems => 0
    case Item(_, value, _, rest) => Max(Depth(value), ItemsDepth(rest))
  }

  function MembersDepth(members: Members): nat {
    match members
    case NoMembers => 0
    case Member(_, _, _, _, value, _, rest) => Max(Depth(value), MembersDepth(rest))
  }

  // ---------- the scanner ----------

  datatype State = State(depth: int, max: int, inString: bool, escaped: bool)

  function ScanByte(s: State, c: char): State {
    if s.inString then
      if s.escaped then s.(escaped := false)
      else if c == '\\' then s.(escaped := true)
      else if c == '"' then s.(inString := false)
      else s
    else if c == '"' then s.(inString := true)
    else if c == '{' || c == '[' then s.(depth := s.depth + 1, max := Max(s.max, s.depth + 1))
    else if c == '}' || c == ']' then s.(depth := s.depth - 1)
    else s
  }

  function Scan(s: State, raw: string): State {
    if raw == "" then s else ScanByte(Scan(s, raw[..|raw| - 1]), raw[|raw| - 1])
  }

  const START := State(0, 0, false, false)

  /** One loop over the bytes. */
  method ScanDepth(raw: string) returns (max: int)
    ensures max == Scan(START, raw).max
  {
    var d, inString, escaped := 0, false, false;
    max := 0;
    for i := 0 to |raw|
      invariant State(d, max, inString, escaped) == Scan(START, raw[..i])
    {
      var c := raw[i];
      assert raw[..i + 1][..i] == raw[..i];
      if inString {
        if escaped {
          escaped := false;
        } else if c == '\\' {
          escaped := true;
        } else if c == '"' {
          inString := false;
        }
      } else if c == '"' {
        inString := true;
      } else if c == '{' || c == '[' {
        d := d + 1;
        if d > max { max := d; }
      } else if c == '}' || c == ']' {
        d := d - 1;
      }
    }
    assert raw[..|raw|] == raw;
  }

  // ---------- the scanner measures the tree ----------

  lemma {:induction false} ScanConcat(s: State, a: string, b: string)
    ensures Scan(s, a + b) == Scan(Scan(s, a), b)
  {
    if b == "" {
      assert a + b == a;
    } else {
      var n := |b| - 1;
      assert (a + b)[..|a + b| - 1] == a + b[..n];
      ScanConcat(s, a, b[..n]);
    }
  }

  predicate Outside(s: State) {
    !s.inString && !s.escaped
  }

  /** Bytes outside strings that are neither quotes nor brackets change nothing. */
  lemma {:induction false} ScanNeutral(s: State, raw: string)
    requires Outside(s) && forall i :: 0 <= i < |raw| ==> raw[i] !in {'"', '{', '}', '[', ']'}
    ensures Scan(s, raw) == s
  {
    if raw != "" {
      ScanNeutral(s, raw[..|raw| - 1]);
    }
  }

  /** Inside a string every piece leaves the scanner inside the string. */
  lemma {:induction false} ScanPieces(s: State, ps: seq<Piece>)
    requires s.inString && !s.escaped && ValidPieces(ps)
    ensures Scan(s, RenderPieces(ps)) == s
  {
    if ps != [] {
      var n := |ps| - 1;
      ScanPieces(s, ps[..n]);
      match ps[n]
      case Plain(c) =>
        ScanConcat(s, RenderPieces(ps[..n]), [c]);
        ScanOne(s, c);
      case Escape(c) =>
        ScanConcat(s, RenderPieces(ps[..n]), ['\\', c]);
        ScanConcat(s, ['\\'], [c]);
        assert ['\\'] + [c] == ['\\', c];
        ScanOne(s, '\\');
        ScanOne(s.(escaped := true), c);
    }
  }

  lemma ScanOne(s: State, c: char)
    ensures Scan(s, [c]) == ScanByte(s, c)
  {
    assert [c][..0] == "";
  }

  lemma ScanText(s: State, ps: seq<Piece>)
    requires Outside(s) && ValidPieces(ps)
    ensures Scan(s, RenderText(ps)) == s
  {
    ScanConcat(s, "\"", RenderPieces(ps));
    ScanConcat(s, "\"" + RenderPieces(ps), "\"");
    ScanOne(s, '"');
    ScanPieces(s.(inString := true), ps);
    ScanOne(s.(inString := true), '"');
  }

  /** Scanning one text returns to the same depth and raises the maximum to its nesting. */
  function Rise(s: State, nesting: int): State {
    s.(max := Max(s.max, s.depth + nesting))
  }

  /** Scanning a bracketed body: in, body, out. */
  lemma ScanBracketed(s: State, open: char, t: State, body: string, close: char, nesting: nat)
    requires Outside(s) && (open == '{' || open == '[') && (close == '}' || close == ']')
    requires t == State(s.depth + 1, Max(s.max, s.depth + 1), false, false) && Scan(t, body) == Rise(t, nesting)
    ensures Scan(s, [open] + body + [close]) == Rise(s, 1 + nesting)
  {
    hide Scan, ScanByte, Rise;
    ScanOne(s, open);
    OpenByte(s, open);
    ScanThree(s, [open], t, body, Rise(t, nesting), [close]);
    ScanOne(Rise(t, nesting), close);
    CloseRise(s, t, close, nesting);
  }

  lemma CloseRise(s: State, t: State, close: char, nesting: nat)
    requires Outside(s) && (close == '}' || close == ']')
             && t == State(s.depth + 1, Max(s.max, s.depth + 1), false, false)
    ensures ScanByte(Rise(t, nesting), close) == Rise(s, 1 + nesting)
  {
  }

  /** Scanning three parts in a row, through the states between them. */
  lemma ScanThree(s: State, a: string, t: State, b: string, u: State, c: string)
    requires Scan(s, a) == t && Scan(t, b) == u
    ensures Scan(s, a + b + c) == Scan(u, c)
  {
    hide Scan;
    ScanConcat(s, a, b);
    ScanConcat(s, a + b, c);
  }

  lemma OpenByte(s: State, c: char)
    requires Outside(s) && (c == '{' || c == '[')
    ensures ScanByte(s, c) == State(s.depth + 1, Max(s.max, s.depth + 1), false, false)
  {
  }

  lemma {:induction false} ScanJson(s: State, j: Json)
    requires Valid(j) && Outside(s) && s.max >= s.depth
    ensures Scan(s, Render(j)) == Rise(s, Depth(j))
    decreases j, 0
  {
    hide Scan, Render, ItemsDepth, MembersDepth, ValidAtom, ValidPieces, ValidItems, ValidMembers, Space;
    match j
    case Atom(text) =>
      ScanAtom(s, text);
    case Text(pieces) =>
      ScanString(s, pieces);
    case Array(pad, items) =>
      ScanArray(s, pad, items);
    case Object(pad, members) =>
      ScanObject(s, pad, members);
  }

  lemma ScanAtom(s: State, text: string)
    requires ValidAtom(text) && Outside(s)
    ensures Scan(s, Render(Atom(text))) == s
  {
    hide Scan;
    ScanNeutral(s, text);
  }

  lemma ScanString(s: State, pieces: seq<Piece>)
    requires ValidPieces(pieces) && Outside(s)
    ensures Scan(s, Render(Text(pieces))) == s
  {
    hide Scan, RenderText;
    ScanText(s, pieces);
  }

  lemma {:induction false} ScanArray(s: State, pad: string, items: Items)
    requires Space(pad) && ValidItems(items) && Outside(s)
    ensures Scan(s, Render(Array(pad, items))) == Rise(s, 1 + ItemsDepth(items))
    decreases items, 1
  {
    hide Scan, ItemsDepth, RenderItems;
    var t := State(s.depth + 1, Max(s.max, s.depth + 1), false, false);
    if items.NoItems? {
      ScanNeutral(t, pad);
      ScanBracketed(s, '[', t, pad, ']', 0);
      NoChildren();
    } else {
      ScanItems(t, items);
      ScanBracketed(s, '[', t, RenderItems(items), ']', ItemsDepth(items));
    }
  }

  lemma {:induction false} ScanObject(s: State, pad: string, members: Members)
    requires Space(pad) && ValidMembers(members) && Outside(s)
    ensures Scan(s, Render(Object(pad, members))) == Rise(s, 1 + MembersDepth(members))
    decreases members, 1
  {
    hide Scan, MembersDepth, RenderMembers;
    var t := State(s.depth + 1, Max(s.max, s.depth + 1), false, false);
    if members.NoMembers? {
      ScanNeutral(t, pad);
      ScanBracketed(s, '{', t, pad, '}', 0);
      NoChildren();
    } else {
      ScanMembers(t, members);
      ScanBracketed(s, '{', t, RenderMembers(members), '}', MembersDepth(members));
    }
  }

  lemma NoChildren()
    ensures ItemsDepth(NoItems) == 0 && MembersDepth(NoMembers) == 0
  {
  }

  lemma {:induction false} ScanItems(s: State, items: Items)
    requires ValidItems(items) && Outside(s) && s.max >= s.depth
    ensures Scan(s, RenderItems(items)) == Rise(s, ItemsDepth(items))
    decreases items, 0
  {
    if items.Item? {
      hide Scan;
      var Item(lead, value, trail, rest) := items;
      ScanPadded(s, lead, value, trail);
      var head := lead + Render(value) + trail;
      if rest.NoItems? {
        assert head + "" == head;
      } else {
        ScanConcat(s, head, "," + RenderItems(rest));
        ScanSeparated(Scan(s, head), RenderItems(rest));
        ScanItems(Scan(s, head), rest);
      }
    }
  }

  lemma {:induction false} ScanPadded(s: State, lead: string, value: Json, trail: string)
    requires Space(lead) && Space(trail) && Valid(value) && Outside(s) && s.max >= s.depth
    ensures Scan(s, lead + Render(value) + trail) == Rise(s, Depth(value))
    decreases value, 1
  {
    ScanConcat(s, lead, Render(value));
    ScanConcat(s, lead + Render(value), trail);
    ScanNeutral(s, lead);
    ScanJson(s, value);
    ScanNeutral(Rise(s, Depth(value)), trail);
  }

  lemma ScanKey(s: State, lead: string, key: seq<Piece>, before: string, after: string)
    requires Space(lead) && Space(before) && Space(after) && ValidPieces(key) && Outside(s)
    ensures Scan(s, RenderKey(lead, key, before, after)) == s
  {
    ScanConcat(s, lead, RenderText(key));
    ScanConcat(s, lead + RenderText(key), before);
    ScanConcat(s, lead + RenderText(key) + before, ":");
    ScanConcat(s, lead + RenderText(key) + before + ":", after);
    ScanNeutral(s, lead);
    ScanText(s, key);
    ScanNeutral(s, before);
    ScanNeutral(s, ":");
    ScanNeutral(s, after);
  }

  lemma {:induction false} ScanMembers(s: State, members: Members)
    requires ValidMembers(members) && Outside(s) && s.max >= s.depth
    ensures Scan(s, RenderMembers(members)) == Rise(s, MembersDepth(members))
    decreases members, 0
  {
    if members.Member? {
      hide Scan;
      var Member(lead, key, before, after, value, trail, rest) := members;
      hide RenderKey, Rise, RenderText;
      var name, body := RenderKey(lead, key, before, after), Render(value) + trail;
      var t := Rise(s, Depth(value));
      ScanKey(s, lead, key, before, after);
      ScanPadded(s, "", value, trail);
      assert "" + Render(value) + trail == body;
      if rest.NoMembers? {
        ScanConcat(s, name, body);
        assert RenderMembers(members) == name + body;
        RiseTwice(s, Depth(value), 0);
      } else {
        RiseTwice(s, Depth(value), MembersDepth(rest));
        ScanSeparated(t, RenderMembers(rest));
        ScanMembers(t, rest);
        ScanThree(s, name, s, body, t, "," + RenderMembers(rest));
      }
    }
  }

  lemma RiseTwice(s: State, a: nat, b: nat)
    requires Outside(s) && s.max >= s.depth
    ensures Rise(Rise(s, a), b) == Rise(s, Max(a, b)) && Outside(Rise(s, a)) && Rise(s, a).max >= Rise(s, a).depth
  {
  }

  lemma ScanSeparated(s: State, rest: string)
    requires Outside(s)
    ensures Scan(s, "," + rest) == Scan(s, rest)
  {
    ScanConcat(s, ",", rest);
    ScanNeutral(s, ",");
  }

  /** For every JSON document, however it is spelled, the scanner returns its nesting depth. */
  lemma ScannerMeasuresDepth(lead: string, j: Json, trail: string)
    requires Space(lead) && Space(trail) && Valid(j)
    ensures Scan(START, lead + Render(j) + trail).max == Depth(j)
  {
    ScanPadded(START, lead, j, trail);
  }
}
