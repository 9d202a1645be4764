/** The pieces of the JavaScript platform that the dashboard's code leans on:
    `String.prototype.trim`, `String.prototype.includes`, the decimal text of a
    status code, what a `fetch` settles to, and the values a `catch` receives. */
module Js {

  datatype Option<+T> = None | Some(value: T)

  datatype Result<+T, +E> = Success(value: T) | Failure(error: E)

  // ---------------------------------------------------------------------------
  // Strings
  // ---------------------------------------------------------------------------

  /** The code points that `trim` removes: ECMAScript's WhiteSpace
      (tab, vertical tab, form feed, space, no-break space, byte order mark and
      the Unicode "Zs" separators) and its LineTerminators (LF, CR, U+2028, U+2029). */
  predicate IsWhitespace(c: char) {
    || c == '\t' || c == '\n' || c == '\U{000B}' || c == '\U{000C}' || c == '\r'
    || c == ' ' || c == '\U{00A0}' || c == '\U{1680}'
    || ('\U{2000}' <= c <= '\U{200A}')
    || c == '\U{2028}' || c == '\U{2029}' || c == '\U{202F}' || c == '\U{205F}'
    || c == '\U{3000}' || c == '\U{FEFF}'
  }

  ghost predicate AllWhitespace(s: string) {
    forall i :: 0 <= i < |s| ==> IsWhitespace(s[i])
  }

  /** `s` with its leading whitespace removed. */
  function TrimStart(s: string): string {
    if s != [] && IsWhitespace(s[0]) then TrimStart(s[1..]) else s
  }

  /** `s` with its trailing whitespace removed. */
  function TrimEnd(s: string): string {
    if s != [] && IsWhitespace(s[|s| - 1]) then TrimEnd(s[..|s| - 1]) else s
  }

  /** `TrimStart(s)` is a suffix of `s`, what was dropped is whitespace, and
      it does not start with whitespace. */
  lemma {:induction false} TrimStartFacts(s: string)
    ensures |TrimStart(s)| <= |s| && TrimStart(s) == s[|s| - |TrimStart(s)|..]
    ensures AllWhitespace(s[..|s| - |TrimStart(s)|])
    ensures TrimStart(s) == [] || !IsWhitespace(TrimStart(s)[0])
  {
    if s != [] && IsWhitespace(s[0]) {
      TrimStartFacts(s[1..]);
    }
  }

  /** `TrimEnd(s)` is a prefix of `s`, what was dropped is whitespace, and it
      does not end with whitespace. */
  lemma {:induction false} TrimEndFacts(s: string)
    ensures |TrimEnd(s)| <= |s| && TrimEnd(s) == s[..|TrimEnd(s)|]
    ensures AllWhitespace(s[|TrimEnd(s)|..])
    ensures TrimEnd(s) == [] || !IsWhitespace(TrimEnd(s)[|TrimEnd(s)| - 1])
  {
    if s != [] && IsWhitespace(s[|s| - 1]) {
      var t := s[..|s| - 1];
      TrimEndFacts(t);
      var m := |TrimEnd(t)|;
      assert TrimEnd(s) == TrimEnd(t);
      assert t[..m] == s[..m];
      assert s[m..] == t[m..] + [s[|s| - 1]];
    }
  }

  /** `s.trim()`: the part of `s` left after removing a whitespace prefix and a
      whitespace suffix; it neither starts nor ends with whitespace. */
  function Trim(s: string): (r: string)
    ensures |r| <= |s|
    ensures r == [] || (!IsWhitespace(r[0]) && !IsWhitespace(r[|r| - 1]))
  {
    TrimStartFacts(s);
    TrimEndFacts(TrimStart(s));
    var t := TrimStart(s);
    assert TrimEnd(t) != [] ==> TrimEnd(t)[0] == t[0];
    TrimEnd(t)
  }

  /** Where `Trim(s)` starts inside `s`. */
  function TrimOffset(s: string): (k: nat)
    ensures k + |Trim(s)| <= |s|
  {
    TrimStartFacts(s);
    TrimEndFacts(TrimStart(s));
    |s| - |TrimStart(s)|
  }

  /** `Trim(s)` is the infix of `s` at `TrimOffset(s)`, and everything around it
      is whitespace. */
  lemma TrimCharacterised(s: string)
    ensures Trim(s) == s[TrimOffset(s)..TrimOffset(s) + |Trim(s)|]
    ensures AllWhitespace(s[..TrimOffset(s)])
    ensures AllWhitespace(s[TrimOffset(s) + |Trim(s)|..])
  {
    TrimStartFacts(s);
    TrimEndFacts(TrimStart(s));
    var k, t := TrimOffset(s), TrimStart(s);
    assert t == s[k..];
    assert Trim(s) == t[..|Trim(s)|];
    assert t[|Trim(s)|..] == s[k + |Trim(s)|..];
  }

  /** A string trims to nothing exactly when every character is whitespace. */
  lemma BlankIffAllWhitespace(s: string)
    ensures Trim(s) == [] <==> AllWhitespace(s)
  {
    TrimCharacterised(s);
    TrimStartFacts(s);
    if Trim(s) == [] {
      var t := TrimStart(s);
      assert s[..|s| - |t|] == s;
    } else {
      var k := TrimOffset(s);
      assert s[k] == Trim(s)[0];
    }
  }

  /** Trimming twice is trimming once. */
  lemma TrimIdempotent(s: string)
    ensures Trim(Trim(s)) == Trim(s)
  {
    var r := Trim(s);
    if r != [] {
      assert TrimStart(r) == r;
      assert TrimEnd(r) == r;
    }
  }

  /** `s.includes(sub)` */
  predicate Contains(s: string, sub: string) {
    exists i | 0 <= i <= |s| - |sub| :: OccursAt(s, sub, i)
  }

  /** `sub` is the infix of `s` that starts at `i`. */
  predicate OccursAt(s: string, sub: string, i: int) {
    0 <= i && i + |sub| <= |s| && s[i..i + |sub|] == sub
  }

  lemma ContainsAt(s: string, sub: string, i: nat)
    requires OccursAt(s, sub, i)
    ensures Contains(s, sub)
  {
  }

  /** An occurrence survives adding text on either side. */
  lemma ContainsWidened(s: string, sub: string, before: string, after: string)
    requires Contains(s, sub)
    ensures Contains(before + s + after, sub)
  {
    var i :| 0 <= i <= |s| - |sub| && OccursAt(s, sub, i);
    var w := before + s + after;
    assert w[|before| + i..|before| + i + |sub|] == s[i..i + |sub|];
    ContainsAt(w, sub, |before| + i);
  }

  /** Text in front that never has the first character of `sub` adds no
      occurrence of `sub` and removes none. */
  lemma ContainsAfterPrefix(p: string, s: string, sub: string)
    requires |sub| > 0
    requires forall k :: 0 <= k < |p| ==> p[k] != sub[0]
    ensures Contains(p + s, sub) <==> Contains(s, sub)
  {
    var w := p + s;
    if Contains(w, sub) {
      var i :| 0 <= i <= |w| - |sub| && OccursAt(w, sub, i);
      assert w[i..i + |sub|][0] == w[i];
      assert i >= |p|;
      assert s[i - |p|..i - |p| + |sub|] == w[i..i + |sub|];
      ContainsAt(s, sub, i - |p|);
    }
    if Contains(s, sub) {
      ContainsWidened(s, sub, p, "");
      assert p + s + "" == w;
    }
  }

  /** The trimmed string occurs in the original. */
  lemma TrimContained(s: string)
    ensures Contains(s, Trim(s))
  {
    TrimCharacterised(s);
    ContainsAt(s, Trim(s), TrimOffset(s));
  }

  /** The number a run of decimal digits denotes, most significant first. */
  function DigitsValue(s: string): nat {
    if s == [] then 0
    else 10 * DigitsValue(s[..|s| - 1]) + (if '0' <= s[|s| - 1] <= '9' then s[|s| - 1] as int - '0' as int else 0)
  }

  /** The decimal text of a non-negative integer, as `${n}` renders it: digits
      only, no leading zero, and denoting `n`. */
  function NatToString(n: nat): (r: string)
    ensures |r| >= 1
    ensures forall i :: 0 <= i < |r| ==> '0' <= r[i] <= '9'
    ensures |r| > 1 ==> r[0] != '0'
    ensures DigitsValue(r) == n
  {
    var d := [('0' as int + n % 10) as char];
    if n < 10 then d
    else
      var r := NatToString(n / 10) + d;
      assert r[..|r| - 1] == NatToString(n / 10);
      r
  }

  /** `s.length`: the number of UTF-16 code units, so a code point above
      U+FFFF (a surrogate pair) counts twice. */
  function Utf16Length(s: string): (n: nat)
    ensures |s| <= n <= 2 * |s|
  {
    if s == [] then 0 else (if s[0] >= '\U{10000}' then 2 else 1) + Utf16Length(s[1..])
  }

  /** `a.join(sep)` for an array of strings. */
  function Join(parts: seq<string>, sep: string): string {
    if |parts| == 0 then ""
    else if |parts| == 1 then parts[0]
    else parts[0] + sep + Join(parts[1..], sep)
  }

  /** Every part occurs in the joined text. */
  lemma {:induction false} JoinContainsParts(parts: seq<string>, sep: string)
    ensures forall k :: 0 <= k < |parts| ==> Contains(Join(parts, sep), parts[k])
    decreases |parts|
  {
    if |parts| == 1 {
      ContainsAt(parts[0], parts[0], 0);
    } else if |parts| > 1 {
      var rest := Join(parts[1..], sep);
      var w := parts[0] + sep + rest;
      assert w[0..|parts[0]|] == parts[0];
      ContainsAt(w, parts[0], 0);
      JoinContainsParts(parts[1..], sep);
      forall k | 1 <= k < |parts|
        ensures Contains(w, parts[k])
      {
        assert parts[1..][k - 1] == parts[k];
        ContainsWidened(rest, parts[k], parts[0] + sep, "");
        assert parts[0] + sep + rest + "" == w;
      }
    }
  }

  // ---------------------------------------------------------------------------
  // Exceptions and fetch
  // ---------------------------------------------------------------------------

  /** A value reaching a `catch`: an `Error` (or `DOMException`) with its `name`
      and `message`, or anything else that was thrown. */
  datatype Thrown = Error(name: string, message: string) | NonError

  /** An HTTP response as the client sees it: the status, the body as text, and
      what `response.json()` gives (a parsed value, or the parser's message). */
  datatype Reply<+T> = Reply(status: nat, text: string, json: Result<T, string>) {
    /** `response.ok` */
    predicate Ok() { 200 <= status <= 299 }
  }

  /** How a `fetch` settles: with a response, or by rejecting (network failure,
      CORS refusal, abort or timeout). */
  datatype Fetch<+T> = Replied(reply: Reply<T>) | Rejected(thrown: Thrown)

  /** The outcome of a health probe; its body is not looked at. */
  type Probe = Fetch<()>

  /** The probe got a response and it was `ok`. */
  predicate ProbeOk(p: Probe) {
    p.Replied? && p.reply.Ok()
  }

  /** The error `JSON.parse` throws on a body that is not JSON. */
  function SyntaxError(message: string): Thrown {
    Error("SyntaxError", message)
  }
}
