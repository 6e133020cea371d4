/**
 * String helpers with the semantics of the JavaScript and Python string methods the
 * application calls: trim/strip, startsWith, indexOf-style search, split, replace,
 * slice and join. Strings are sequences of Unicode scalar values.
 */
module Text {
  import opened Wrappers

  /** The whitespace characters removed by `trim()` / `strip()` (ASCII subset). */
  predicate IsSpace(c: char) {
    c == ' ' || c == '\t' || c == '\n' || c == '\r' || c == '\U{B}' || c == '\U{C}'
  }

  /** Leading whitespace removed. */
  function TrimStart(s: string): (r: string)
    ensures |r| <= |s| && r == s[|s| - |r|..]
    ensures r == [] || !IsSpace(r[0])
    ensures forall i :: 0 <= i < |s| - |r| ==> IsSpace(s[i])
  {
    if s != [] && IsSpace(s[0]) then TrimStart(s[1..]) else s
  }

  /** Trailing whitespace removed. */
  function TrimEnd(s: string): (r: string)
    ensures |r| <= |s| && r == s[..|r|]
    ensures r == [] || !IsSpace(r[|r| - 1])
    ensures forall i :: |r| <= i < |s| ==> IsSpace(s[i])
  {
    if s != [] && IsSpace(s[|s| - 1]) then TrimEnd(s[..|s| - 1]) else s
  }

  /** JavaScript `s.trim()` and Python `s.strip()`. */
  function Trim(s: string): string {
    TrimEnd(TrimStart(s))
  }

  /** A string is blank when it consists of whitespace only. */
  predicate IsBlank(s: string) {
    forall i :: 0 <= i < |s| ==> IsSpace(s[i])
  }

  /** Trimming yields the empty string exactly for blank strings. */
  lemma TrimEmptyIffBlank(s: string)
    ensures Trim(s) == [] <==> IsBlank(s)
  {
    var t := TrimStart(s);
    if Trim(s) == [] {
      assert t == [];
    } else {
      var k := |s| - |t|;
      assert t[0] == s[k];
    }
  }

  /** A string that neither starts nor ends with whitespace is its own trim. */
  lemma TrimOfTrimmed(s: string)
    requires s == [] || (!IsSpace(s[0]) && !IsSpace(s[|s| - 1]))
    ensures Trim(s) == s
  {
  }

  /** Trimming twice is trimming once. */
  lemma TrimIdempotent(s: string)
    ensures Trim(Trim(s)) == Trim(s)
  {
    var t := Trim(s);
    if t != [] {
      assert t[0] == TrimStart(s)[0];
    }
    TrimOfTrimmed(t);
  }

  /** JavaScript `s.startsWith(p)` and Python `s.startswith(p)`. */
  predicate StartsWith(s: string, p: string) {
    |p| <= |s| && s[..|p|] == p
  }

  /** `pat` occurs in `s` at position `p`. */
  predicate OccursAt(s: string, pat: string, p: nat) {
    p + |pat| <= |s| && s[p..p + |pat|] == pat
  }

  /** Position of the first occurrence of `pat` in `s` (`indexOf`, `find`). */
  function Find(s: string, pat: string): (r: Option<nat>)
    ensures r.Some? ==> OccursAt(s, pat, r.value)
    ensures r.Some? ==> forall q: nat :: q < r.value ==> !OccursAt(s, pat, q)
    ensures r.None? ==> forall q: nat :: !OccursAt(s, pat, q)
    decreases |s|
  {
    if |s| < |pat| then None
    else if s[..|pat|] == pat then Some(0)
    else
      ShiftOccurrence(s, pat);
      match Find(s[1..], pat)
      case None => None
      case Some(i) => Some(i + 1)
  }

  /** Occurrences in `s[1..]` are the occurrences in `s` shifted by one. */
  lemma ShiftOccurrence(s: string, pat: string)
    requires s != []
    ensures forall q: nat :: 1 <= q ==> (OccursAt(s, pat, q) <==> OccursAt(s[1..], pat, q - 1))
  {
    forall q: nat | 1 <= q ensures OccursAt(s, pat, q) <==> OccursAt(s[1..], pat, q - 1) {
      if q + |pat| <= |s| {
        assert s[1..][q - 1..q - 1 + |pat|] == s[q..q + |pat|];
      }
    }
  }

  /** A position holding `pat` with no occurrence before it is the one `Find` returns. */
  lemma FindAt(s: string, pat: string, k: nat)
    requires OccursAt(s, pat, k)
    requires forall q: nat :: q < k ==> !OccursAt(s, pat, q)
    ensures Find(s, pat) == Some(k)
  {
  }

  /** Trimming one space on each side of already-trimmed text leaves that text. */
  lemma TrimAround(c: char, body: string, d: char)
    requires IsSpace(c) && IsSpace(d)
    requires body != [] && !IsSpace(body[0]) && !IsSpace(body[|body| - 1])
    ensures Trim([c] + body + [d]) == body
  {
    var s := [c] + body + [d];
    var r := TrimStart(s);
    assert s[1] == body[0] && !IsSpace(s[1]);
    assert r == s[1..];
    assert r == body + [d];
    var e := TrimEnd(r);
    assert r[|body| - 1] == body[|body| - 1];
    assert e == r[..|body|];
    assert r[..|body|] == body;
  }

  /**
   * A prompt: a preamble, some blocks, then a text under a heading. It starts with the
   * preamble and ends with the heading and the text.
   */
  function Compose(preamble: string, blocks: string, heading: string, text: string): (s: string)
    ensures |preamble| <= |s| && s[..|preamble|] == preamble
    ensures |heading + text| <= |s| && s[|s| - |heading + text|..] == heading + text
    ensures |text| <= |s| && s[|s| - |text|..] == text
    ensures |s| == |preamble| + |blocks| + |heading| + |text|
    ensures s == preamble + blocks + heading + text
  {
    var s := preamble + blocks + (heading + text);
    assert s == preamble + (blocks + (heading + text));
    assert s == (preamble + blocks + heading) + text;
    s
  }

  /** Removing a prefix the text has leaves the rest. */
  lemma DropPrefixOf(p: string, t: string)
    ensures DropPrefix(p + t, p) == t
  {
    assert (p + t)[..|p|] == p;
    assert (p + t)[|p|..] == t;
  }

  /**
   * `s.split(sep)[1]`: the text between the first and the second occurrence of `sep`,
   * or everything after the first occurrence when there is no second one.
   */
  function SecondField(s: string, sep: string): string
    requires Find(s, sep).Some?
  {
    var rest := s[Find(s, sep).value + |sep|..];
    match Find(rest, sep)
    case None => rest
    case Some(j) => rest[..j]
  }

  /** `s` without the prefix `p` if it has it (`replace(/^json/, '')`). */
  function DropPrefix(s: string, p: string): (r: string)
  {
    if StartsWith(s, p) then s[|p|..] else s
  }

  /** JavaScript `s.replace(pat, rep)` with a string pattern: the first occurrence only. */
  function ReplaceFirst(s: string, pat: string, rep: string): string
  {
    match Find(s, pat)
    case None => s
    case Some(i) => s[..i] + rep + s[i + |pat|..]
  }

  /** Python `s.replace(pat, rep)`: every non-overlapping occurrence, left to right. */
  function ReplaceAll(s: string, pat: string, rep: string): string
    requires pat != []
    decreases |s|
  {
    match Find(s, pat)
    case None => s
    case Some(i) => s[..i] + rep + ReplaceAll(s[i + |pat|..], pat, rep)
  }

  /** JavaScript `s.slice(0, n)` and Python `s[:n]`. */
  function Prefix(s: string, n: nat): (r: string)
  {
    if |s| <= n then s else s[..n]
  }

  /** JavaScript `parts.join(sep)` and Python `sep.join(parts)`. */
  function Join(parts: seq<string>, sep: string): string
  {
    if parts == [] then ""
    else if |parts| == 1 then parts[0]
    else parts[0] + sep + Join(parts[1..], sep)
  }

  /** A joined string begins with the first character of its first part. */
  lemma JoinStartsWithFirst(parts: seq<string>, sep: string)
    requires parts != [] && parts[0] != []
    ensures Join(parts, sep) != [] && Join(parts, sep)[0] == parts[0][0]
  {
  }

  /** Decimal digits of a natural number. */
  function NatToString(n: nat): string
    decreases n
  {
    if n < 10 then ["0123456789"[n]] else NatToString(n / 10) + ["0123456789"[n % 10]]
  }

  /** Decimal rendering of an integer, as template literals and f-strings print it. */
  function IntToString(i: int): string
  {
    if i < 0 then "-" + NatToString(-i) else NatToString(i)
  }
}
