/** String primitives shared by the browser script and the Flask backend:
    whitespace trimming (JavaScript's String.prototype.trim and Python's
    str.strip() differ in which characters count as whitespace), prefix tests,
    and splitting on a separator character with its inverse, joining. */
module Text {

  /** The two runtimes whose trimming rules the model needs. */
  datatype Runtime = JavaScript | Python

  /** Characters both runtimes treat as whitespace: the ASCII controls
      TAB, LF, VT, FF, CR, the space, and the Unicode space separators
      and line/paragraph separators. */
  predicate IsCommonSpace(c: char) {
    c == '\t' || c == '\n' || c == '\U{B}' || c == '\U{C}' || c == '\r' || c == ' '
    || c == '\U{A0}' || c == '\U{1680}' || ('\U{2000}' <= c <= '\U{200A}')
    || c == '\U{2028}' || c == '\U{2029}' || c == '\U{202F}' || c == '\U{205F}'
    || c == '\U{3000}'
  }

  /** The whitespace of each runtime: JavaScript adds the byte-order mark
      U+FEFF; Python's str.isspace adds the information separators
      U+001C..U+001F and NEXT LINE U+0085. */
  predicate IsSpace(rt: Runtime, c: char) {
    IsCommonSpace(c) ||
    match rt
    case JavaScript => c == '\U{FEFF}'
    case Python => ('\U{1C}' <= c <= '\U{1F}') || c == '\U{85}'
  }

  /** No whitespace at either end. */
  predicate IsTrimmed(rt: Runtime, s: string) {
    s == [] || (!IsSpace(rt, s[0]) && !IsSpace(rt, s[|s| - 1]))
  }

  /** The number of whitespace characters `s` starts with. */
  function LeadingSpace(rt: Runtime, s: string): (n: nat)
    ensures n <= |s|
    ensures forall i :: 0 <= i < n ==> IsSpace(rt, s[i])
    ensures n == |s| || !IsSpace(rt, s[n])
  {
    if s != [] && IsSpace(rt, s[0]) then 1 + LeadingSpace(rt, s[1..]) else 0
  }

  /** Drops the trailing whitespace: the result is the longest prefix of `s`
      that does not end with whitespace. */
  function TrimEnd(rt: Runtime, s: string): (r: string)
    ensures |r| <= |s| && r == s[..|r|]
    ensures r == [] || !IsSpace(rt, r[|r| - 1])
    ensures forall i :: |r| <= i < |s| ==> IsSpace(rt, s[i])
  {
    if s != [] && IsSpace(rt, s[|s| - 1]) then TrimEnd(rt, s[..|s| - 1]) else s
  }

  /** `s.trim()` in JavaScript, `s.strip()` in Python: the slice of `s`
      between its leading and its trailing whitespace. */
  function Trim(rt: Runtime, s: string): (r: string)
    ensures IsTrimmed(rt, r)
    ensures LeadingSpace(rt, s) + |r| <= |s|
    ensures r == s[LeadingSpace(rt, s)..LeadingSpace(rt, s) + |r|]
    ensures forall i :: LeadingSpace(rt, s) + |r| <= i < |s| ==> IsSpace(rt, s[i])
  {
    var n := LeadingSpace(rt, s);
    var r := TrimEnd(rt, s[n..]);
    assert r == s[n..][..|r|];
    r
  }

  /** Trimming a string that has no whitespace at its ends changes nothing:
      trimming is idempotent. */
  lemma TrimTrimmed(rt: Runtime, s: string)
    requires IsTrimmed(rt, s)
    ensures Trim(rt, s) == s
  {
  }

  /** A string consisting of whitespace only trims to the empty string, and
      only such a string does. */
  lemma TrimEmptyIff(rt: Runtime, s: string)
    ensures Trim(rt, s) == [] <==> forall i :: 0 <= i < |s| ==> IsSpace(rt, s[i])
  {
    var r := Trim(rt, s);
    if r != [] {
      assert s[LeadingSpace(rt, s)] == r[0];
    }
  }

  /** `s.startsWith(p)` / `s.startswith(p)`. */
  predicate StartsWith(s: string, p: string) {
    |p| <= |s| && s[..|p|] == p
  }

  /** The parts of `s` between the occurrences of `sep`, as JavaScript's
      `s.split(sep)` returns them: one more part than there are separators,
      with empty parts where separators are adjacent or at an end. */
  function Split(s: string, sep: char): (parts: seq<string>)
    ensures |parts| >= 1
    ensures forall i :: 0 <= i < |parts| ==> sep !in parts[i]
    ensures Join(parts, sep) == s
  {
    if s == [] then [[]]
    else
      var rest := Split(s[1..], sep);
      if s[0] == sep then [[]] + rest
      else
        assert Join(rest, sep) == s[1..];
        JoinHead(rest, sep, s[0]);
        [[s[0]] + rest[0]] + rest[1..]
  }

  /** The parts of `parts` with one `sep` between each neighbouring pair. */
  function Join(parts: seq<string>, sep: char): string
    requires |parts| >= 1
  {
    if |parts| == 1 then parts[0] else parts[0] + [sep] + Join(parts[1..], sep)
  }

  /** Prefixing the first part prefixes the joined string. */
  lemma JoinHead(parts: seq<string>, sep: char, c: char)
    requires |parts| >= 1
    ensures Join([[c] + parts[0]] + parts[1..], sep) == [c] + Join(parts, sep)
  {
    var q := [[c] + parts[0]] + parts[1..];
    assert q[1..] == parts[1..];
  }

  /** Splitting undoes joining: parts that contain no separator are
      recovered exactly. */
  lemma {:induction false} SplitJoin(parts: seq<string>, sep: char)
    requires |parts| >= 1
    requires forall i :: 0 <= i < |parts| ==> sep !in parts[i]
    ensures Split(Join(parts, sep), sep) == parts
  {
    if |parts| == 1 {
      SplitSepFree(parts[0], sep);
    } else {
      var tail := parts[1..];
      SplitJoin(tail, sep);
      SplitPrefixed(parts[0], Join(tail, sep), sep);
      assert [parts[0]] + tail == parts;
    }
  }

  /** A string without separator is a single part. */
  lemma {:induction false} SplitSepFree(s: string, sep: char)
    requires sep !in s
    ensures Split(s, sep) == [s]
  {
    if s != [] {
      SplitSepFree(s[1..], sep);
      assert [s[0]] + s[1..] == s;
    }
  }

  /** A separator-free head followed by a separator becomes its own part. */
  lemma {:induction false} SplitPrefixed(head: string, tail: string, sep: char)
    requires sep !in head
    ensures Split(head + [sep] + tail, sep) == [head] + Split(tail, sep)
  {
    var s := head + [sep] + tail;
    if head == [] {
      assert s[0] == sep && s[1..] == tail;
    } else {
      assert s[1..] == head[1..] + [sep] + tail;
      SplitPrefixed(head[1..], tail, sep);
      assert [head[0]] + head[1..] == head;
    }
  }

  /** The decimal numeral of `n`, as Python's `%d` writes it. */
  function Decimal(n: nat): (s: string)
    ensures |s| >= 1
    ensures forall i :: 0 <= i < |s| ==> '0' <= s[i] <= '9'
    ensures |s| > 1 ==> s[0] != '0'
  {
    if n < 10 then [('0' as int + n) as char]
    else Decimal(n / 10) + [('0' as int + n % 10) as char]
  }
}
