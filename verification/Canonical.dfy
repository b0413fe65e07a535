/** The canonical text under each audit tag: one JSON object, sorted keys, no spaces, ASCII only. */
module Canonical {
  import opened Wrappers

  /** A float is represented by the text printed for it, which holds no quote, letter n or separator. */
  predicate IsNumberText(s: string) {
    forall c :: c in s ==> c !in {',', '}', '"', 'n'}
  }

  type NumberText = s: string | IsNumberText(s) witness "0"

  /** The twelve authenticated columns of an audit row. */
  datatype Fields = Fields(
    sessionId: string,
    occurredAt: NumberText,
    clientId: Option<string>,
    tool: string,
    action: string,
    decision: string,
    reason: string,
    subjectTeam: Option<string>,
    argsJson: string,
    argsDigest: string,
    latencyMs: NumberText,
    previousHash: string)

  // ---------- The serialiser; every piece takes the text that follows it ----------

  function HexDigit(d: int): char
    requires 0 <= d < 16
  {
    if d < 10 then ('0' as int + d) as char else ('a' as int + d - 10) as char
  }

  /** One \u unit. */
  function Unit(n: int, rest: string): string
    requires 0 <= n < 0x1_0000
  {
    ['\\', 'u', HexDigit(n / 16 / 16 / 16), HexDigit(n / 16 / 16 % 16), HexDigit(n / 16 % 16), HexDigit(n % 16)] + rest
  }

  function ShortEscape(c: char): Option<char> {
    if c == '"' || c == '\\' then Some(c)
    else if c == '\n' then Some('n')
    else if c == '\r' then Some('r')
    else if c == '\t' then Some('t')
    else if c == '\U{000C}' then Some('f')
    else if c == '\U{0008}' then Some('b')
    else None
  }

  predicate Printable(c: char) {
    ' ' <= c <= '~'
  }

  /** One character: a short escape, itself, one \u unit, or a surrogate pair. */
  function Escape(c: char, rest: string): string {
    var n := c as int;
    if ShortEscape(c).Some? then ['\\', ShortEscape(c).value] + rest
    else if Printable(c) then [c] + rest
    else if n < 0x1_0000 then Unit(n, rest)
    else Unit(0xD800 + (n - 0x1_0000) / 1024, Unit(0xDC00 + (n - 0x1_0000) % 1024, rest))
  }

  /** The characters of a string and its closing quote. */
  function Body(s: string, rest: string): string {
    if s == [] then ['"'] + rest else Escape(s[0], Body(s[1..], rest))
  }

  datatype Scalar = Text(s: string) | Number(n: NumberText) | Missing

  function Render(v: Scalar, rest: string): string {
    match v
    case Text(s) => ['"'] + Body(s, rest)
    case Number(n) => n + rest
    case Missing => "null" + rest
  }

  type Member = (string, Scalar)

  function Members(members: seq<Member>): string
    decreases |members|, 1
  {
    if members == [] then ""
    else ['"'] + Body(members[0].0, [':'] + Render(members[0].1, AfterMember(members)))
  }

  /** The separator after the first member, and the other members. */
  function AfterMember(members: seq<Member>): string
    requires members != []
    decreases |members|, 0
  {
    [if |members| == 1 then '}' else ','] + Members(members[1..])
  }

  function Nullable(s: Option<string>): Scalar {
    match s
    case None => Missing
    case Some(text) => Text(text)
  }

  /** The twelve members by sorted key. */
  function Sorted(f: Fields): seq<Member> {
    [ ("action", Text(f.action)), ("args_digest", Text(f.argsDigest)), ("args_json", Text(f.argsJson)),
      ("client_id", Nullable(f.clientId)), ("decision", Text(f.decision)), ("latency_ms", Number(f.latencyMs)),
      ("occurred_at", Number(f.occurredAt)), ("previous_hash", Text(f.previousHash)), ("reason", Text(f.reason)),
      ("session_id", Text(f.sessionId)), ("subject_team", Nullable(f.subjectTeam)), ("tool", Text(f.tool)) ]
  }

  function CanonicalText(f: Fields): string {
    ['{'] + Members(Sorted(f))
  }

  // ---------- The text determines the fields ----------

  /** Two texts with the same head have the same tail. */
  lemma DropHead(head: string, x: string, y: string)
    requires head + x == head + y
    ensures x == y
  {
    assert x == (head + x)[|head|..];
    assert y == (head + y)[|head|..];
  }

  lemma DigitsDetermine(a: int, b: int)
    requires 0 <= a < 0x1_0000 && 0 <= b < 0x1_0000
    requires a / 16 / 16 / 16 == b / 16 / 16 / 16 && a / 16 / 16 % 16 == b / 16 / 16 % 16
    requires a / 16 % 16 == b / 16 % 16 && a % 16 == b % 16
    ensures a == b
  {
    assert a / 16 / 16 == b / 16 / 16;
    assert a / 16 == b / 16;
  }

  lemma HexDigitInjective(a: int, b: int)
    requires 0 <= a < 16 && 0 <= b < 16
    ensures HexDigit(a) == HexDigit(b) ==> a == b
  {
  }

  lemma UnitPrefixFree(a: int, b: int, x: string, y: string)
    requires 0 <= a < 0x1_0000 && 0 <= b < 0x1_0000
    requires Unit(a, x) == Unit(b, y)
    ensures a == b && x == y
  {
    hide HexDigit;
    var u, v := Unit(a, x), Unit(b, y);
    assert u[2] == v[2] && u[3] == v[3] && u[4] == v[4] && u[5] == v[5];
    HexDigitInjective(a / 16 / 16 / 16, b / 16 / 16 / 16);
    HexDigitInjective(a / 16 / 16 % 16, b / 16 / 16 % 16);
    HexDigitInjective(a / 16 % 16, b / 16 % 16);
    HexDigitInjective(a % 16, b % 16);
    DigitsDetermine(a, b);
    assert x == u[6..] && y == v[6..];
  }

  /** How the text of one character begins; no two kinds begin alike. */
  lemma EscapeHead(c: char, x: string)
    ensures var t := Escape(c, x);
            if ShortEscape(c).Some? then
              |t| >= 2 && t[0] == '\\' && t[1] == ShortEscape(c).value && t[1] != 'u' && t[2..] == x
            else if Printable(c) then
              |t| >= 1 && t[0] == c && c != '\\' && c != '"' && t[1..] == x
            else
              |t| >= 2 && t[0] == '\\' && t[1] == 'u'
  {
  }

  lemma ShortEscapeInjective(c: char, d: char)
    requires ShortEscape(c).Some? && ShortEscape(c) == ShortEscape(d)
    ensures c == d
  {
  }

  lemma EscapePrefixFree(c: char, d: char, x: string, y: string)
    requires Escape(c, x) == Escape(d, y)
    ensures c == d && x == y
  {
    EscapeHead(c, x);
    EscapeHead(d, y);
    if ShortEscape(c).Some? {
      hide Escape, ShortEscape;
      ShortEscapeInjective(c, d);
    } else if !Printable(c) {
      UnitsPrefixFree(c, d, x, y);
    }
  }

  function FirstUnit(c: char): int {
    var n := c as int;
    if n < 0x1_0000 then n else 0xD800 + (n - 0x1_0000) / 1024
  }

  /** Surrogate units are never the code point of a character, so the first unit tells one unit from two. */
  lemma UnitsPrefixFree(c: char, d: char, x: string, y: string)
    requires !Printable(c) && ShortEscape(c).None? && !Printable(d) && ShortEscape(d).None?
    requires Escape(c, x) == Escape(d, y)
    ensures c == d && x == y
  {
    hide Unit;
    var m, n := c as int, d as int;
    var restC := if m < 0x1_0000 then x else Unit(0xDC00 + (m - 0x1_0000) % 1024, x);
    var restD := if n < 0x1_0000 then y else Unit(0xDC00 + (n - 0x1_0000) % 1024, y);
    UnitPrefixFree(FirstUnit(c), FirstUnit(d), restC, restD);
    if m >= 0x1_0000 {
      UnitPrefixFree(0xDC00 + (m - 0x1_0000) % 1024, 0xDC00 + (n - 0x1_0000) % 1024, x, y);
    }
  }

  lemma {:induction false} BodyPrefixFree(s: string, t: string, x: string, y: string)
    requires Body(s, x) == Body(t, y)
    ensures s == t && x == y
  {
    hide Escape, ShortEscape, Printable;
    if s == [] && t == [] {
      DropHead(['"'], x, y);
    } else if s == [] || t == [] {
      NoCharacterBeginsWithQuote(if s == [] then t[0] else s[0], if s == [] then Body(t[1..], y) else Body(s[1..], x));
    } else {
      EscapePrefixFree(s[0], t[0], Body(s[1..], x), Body(t[1..], y));
      BodyPrefixFree(s[1..], t[1..], x, y);
      assert s == [s[0]] + s[1..] && t == [t[0]] + t[1..];
    }
  }

  lemma NoCharacterBeginsWithQuote(c: char, x: string)
    ensures Escape(c, x) != [] && Escape(c, x)[0] != '"'
  {
    EscapeHead(c, x);
  }

  ghost predicate BeginsWithSeparator(x: string) {
    x != [] && x[0] in {',', '}'}
  }

  lemma NumberPrefixFree(n: NumberText, m: NumberText, x: string, y: string)
    requires n + x == m + y && BeginsWithSeparator(x) && BeginsWithSeparator(y)
    ensures n == m && x == y
  {
    NumberNoLonger(n, m, x, y);
    NumberNoLonger(m, n, y, x);
    assert n == (n + x)[..|n|] && m == (m + y)[..|m|];
    DropHead(n, x, y);
  }

  lemma NumberNoLonger(n: NumberText, m: NumberText, x: string, y: string)
    requires n + x == m + y && BeginsWithSeparator(x)
    ensures |m| <= |n|
  {
    var at := (n + x)[|n|];
    assert at == x[0];
    assert |n| < |m| ==> at in m;
  }

  lemma RenderHead(v: Scalar, x: string)
    requires BeginsWithSeparator(x)
    ensures var t := Render(v, x);
            && t != []
            && (v.Text? <==> t[0] == '"')
            && (v.Missing? <==> t[0] == 'n')
  {
    if v.Number? && v.n != [] {
      assert v.n[0] in v.n;
    }
  }

  lemma RenderPrefixFree(v: Scalar, w: Scalar, x: string, y: string)
    requires Render(v, x) == Render(w, y) && BeginsWithSeparator(x) && BeginsWithSeparator(y)
    ensures v == w && x == y
  {
    RenderHead(v, x);
    RenderHead(w, y);
    if v.Text? {
      DropHead(['"'], Body(v.s, x), Body(w.s, y));
      BodyPrefixFree(v.s, w.s, x, y);
    } else if v.Number? {
      NumberPrefixFree(v.n, w.n, x, y);
    } else {
      DropHead("null", x, y);
    }
  }

  ghost predicate SameKeys(ms: seq<Member>, ns: seq<Member>) {
    |ms| == |ns| && forall k :: 0 <= k < |ms| ==> ms[k].0 == ns[k].0
  }

  lemma {:induction false} MembersInjective(ms: seq<Member>, ns: seq<Member>)
    requires SameKeys(ms, ns) && Members(ms) == Members(ns)
    ensures ms == ns
  {
    hide Body, Render;
    if ms != [] {
      var (key, v) := ms[0];
      var w := ns[0].1;
      var x, y := AfterMember(ms), AfterMember(ns);
      var vx, wy := Render(v, x), Render(w, y);
      DropHead(['"'], Body(key, [':'] + vx), Body(key, [':'] + wy));
      BodyPrefixFree(key, key, [':'] + vx, [':'] + wy);
      DropHead([':'], vx, wy);
      RenderPrefixFree(v, w, x, y);
      DropHead([if |ms| == 1 then '}' else ','], Members(ms[1..]), Members(ns[1..]));
      MembersInjective(ms[1..], ns[1..]);
      assert ms == [ms[0]] + ms[1..] && ns == [ns[0]] + ns[1..];
    }
  }

  lemma SortedInjective(f: Fields, g: Fields)
    requires Sorted(f) == Sorted(g)
    ensures f == g
  {
    var v, w := Sorted(f), Sorted(g);
    assert v[0] == w[0] && v[1] == w[1] && v[2] == w[2] && v[3] == w[3] && v[4] == w[4] && v[5] == w[5];
    assert v[6] == w[6] && v[7] == w[7] && v[8] == w[8] && v[9] == w[9] && v[10] == w[10] && v[11] == w[11];
  }

  lemma SortedKeys(f: Fields, g: Fields)
    ensures SameKeys(Sorted(f), Sorted(g))
  {
  }

  /** No two rows that differ in an authenticated column share a canonical text. */
  lemma CanonicalTextIsInjective(f: Fields, g: Fields)
    requires CanonicalText(f) == CanonicalText(g)
    ensures f == g
  {
    SortedKeys(f, g);
    hide Members, Sorted;
    DropHead(['{'], Members(Sorted(f)), Members(Sorted(g)));
    MembersInjective(Sorted(f), Sorted(g));
    SortedInjective(f, g);
  }
}
