/**
 * The string operations of Rust's `str` that the core relies on: `trim`,
 * `starts_with`, `ends_with`, `contains`, `trim_end_matches`, `lines` and
 * `join`. Strings are sequences of Unicode scalar values; bytes are `u8`s.
 */
module Text {

  /** Rust's `u8`. */
  type Byte = x: int | 0 <= x < 256

  /** A UTF-8 continuation byte: no character starts there, so a `str` cannot be cut before it. */
  predicate IsContinuation(b: Byte) {
    0x80 <= b < 0xC0
  }

  /** The UTF-8 encoding of one character: one to four bytes, a lead byte then continuation bytes. */
  function Utf8Char(c: char): (b: seq<Byte>)
    ensures 1 <= |b| <= 4
    ensures !IsContinuation(b[0])
    ensures forall k :: 1 <= k < |b| ==> IsContinuation(b[k])
    ensures |b| == 3 <==> 0x800 <= c as int < 0x10000
  {
    var n := c as int;
    if n < 0x80 then [n]
    else if n < 0x800 then [0xC0 + n / 64, 0x80 + n % 64]
    else if n < 0x10000 then [0xE0 + n / 4096, 0x80 + (n / 64) % 64, 0x80 + n % 64]
    else [0xF0 + n / 262144, 0x80 + (n / 4096) % 64, 0x80 + (n / 64) % 64, 0x80 + n % 64]
  }

  /** The UTF-8 bytes of a string, the representation Rust's `str` measures and slices. */
  function Utf8(s: string): (b: seq<Byte>)
    ensures |b| >= |s|
    decreases |s|
  {
    if s == [] then [] else Utf8Char(s[0]) + Utf8(s[1..])
  }

  /**
   * In a string of three-byte characters, the bytes are three per character
   * and a continuation byte is exactly one whose offset is not a multiple of 3.
   */
  lemma {:induction false} Utf8OfThreeByteChars(s: string, k: nat)
    requires forall i :: 0 <= i < |s| ==> 0x800 <= s[i] as int < 0x10000
    ensures |Utf8(s)| == 3 * |s|
    ensures k < |Utf8(s)| ==> (IsContinuation(Utf8(s)[k]) <==> k % 3 != 0)
    decreases |s|
  {
    if s != [] {
      var head, rest := Utf8Char(s[0]), s[1..];
      assert |head| == 3;
      assert Utf8(s) == head + Utf8(rest);
      assert forall i :: 0 <= i < |rest| ==> rest[i] == s[i + 1];
      if k < 3 {
        Utf8OfThreeByteChars(rest, 0);
        assert k % 3 == k;
        assert Utf8(s)[k] == head[k];
      } else {
        Utf8OfThreeByteChars(rest, k - 3);
        assert (k - 3) % 3 == k % 3;
        if k < |Utf8(s)| {
          assert Utf8(s)[k] == Utf8(rest)[k - 3];
        }
      }
    }
  }

  /** `char::is_whitespace`: the characters with the Unicode White_Space property. */
  predicate IsWhitespace(c: char) {
    ('\t' <= c <= '\r') || c == ' ' || c == '\U{0085}' || c == '\U{00A0}' || c == '\U{1680}'
    || ('\U{2000}' <= c <= '\U{200A}') || c == '\U{2028}' || c == '\U{2029}'
    || c == '\U{202F}' || c == '\U{205F}' || c == '\U{3000}'
  }

  predicate AllWhitespace(s: string) {
    forall i :: 0 <= i < |s| ==> IsWhitespace(s[i])
  }

  /** Neither end of `s` is white space. */
  predicate IsTrimmed(s: string) {
    s == [] || (!IsWhitespace(s[0]) && !IsWhitespace(s[|s| - 1]))
  }

  predicate StartsWith(s: string, prefix: string) {
    |prefix| <= |s| && s[..|prefix|] == prefix
  }

  predicate EndsWith(s: string, suffix: string) {
    |suffix| <= |s| && s[|s| - |suffix|..] == suffix
  }

  /** `str::trim_start`: drops the leading white space and nothing else. */
  function TrimStart(s: string): (r: string)
    ensures |r| <= |s| && r == s[|s| - |r|..]
    ensures forall i :: 0 <= i < |s| - |r| ==> IsWhitespace(s[i])
    ensures r == [] || !IsWhitespace(r[0])
    decreases |s|
  {
    if |s| > 0 && IsWhitespace(s[0]) then TrimStart(s[1..]) else s
  }

  /** `str::trim_end`: drops the trailing white space and nothing else. */
  function TrimEnd(s: string): (r: string)
    ensures |r| <= |s| && r == s[..|r|]
    ensures forall i :: |r| <= i < |s| ==> IsWhitespace(s[i])
    ensures r == [] || !IsWhitespace(r[|r| - 1])
    decreases |s|
  {
    if |s| > 0 && IsWhitespace(s[|s| - 1]) then TrimEnd(s[..|s| - 1]) else s
  }

  /** `str::trim`. */
  function Trim(s: string): (r: string)
    ensures IsTrimmed(r)
    ensures |r| <= |s|
  {
    TrimEnd(TrimStart(s))
  }

  lemma {:induction false} TrimStartOfPadded(p: string, q: string)
    requires AllWhitespace(p)
    requires q == [] || !IsWhitespace(q[0])
    ensures TrimStart(p + q) == q
    decreases |p|
  {
    if p != [] {
      assert (p + q)[1..] == p[1..] + q;
      TrimStartOfPadded(p[1..], q);
    }
  }

  lemma {:induction false} TrimEndOfPadded(p: string, q: string)
    requires p == [] || !IsWhitespace(p[|p| - 1])
    requires AllWhitespace(q)
    ensures TrimEnd(p + q) == p
    decreases |q|
  {
    if q == [] {
      assert p + q == p;
    } else {
      assert (p + q)[..|p + q| - 1] == p + q[..|q| - 1];
      TrimEndOfPadded(p, q[..|q| - 1]);
    }
  }

  /** Trimming undoes padding: white space added at both ends of a trimmed string is removed again. */
  lemma TrimOfPadded(p: string, m: string, q: string)
    requires AllWhitespace(p) && AllWhitespace(q) && IsTrimmed(m)
    ensures Trim(p + m + q) == m
  {
    if m == [] {
      assert p + m + q == (p + q) + [];
      TrimStartOfPadded(p + q, []);
    } else {
      assert p + m + q == p + (m + q);
      TrimStartOfPadded(p, m + q);
      TrimEndOfPadded(m, q);
    }
  }

  /** A string trims to nothing exactly when it is all white space. */
  lemma TrimEmptyIff(s: string)
    ensures Trim(s) == [] <==> AllWhitespace(s)
  {
    if AllWhitespace(s) {
      assert s == s + [] + [];
      TrimOfPadded(s, [], []);
    }
  }

  /** `str::trim_end_matches` with a non-empty pattern: removes every trailing repetition of `pat`. */
  function TrimEndMatches(s: string, pat: string): (r: string)
    requires |pat| > 0
    ensures |r| <= |s| && r == s[..|r|]
    ensures !EndsWith(r, pat)
    decreases |s|
  {
    if EndsWith(s, pat) then TrimEndMatches(s[..|s| - |pat|], pat) else s
  }

  /** `k` copies of `p`, one after another. */
  function Repeat(p: string, k: nat): (r: string)
    ensures |r| == k * |p|
  {
    if k == 0 then [] else Repeat(p, k - 1) + p
  }

  /** What `trim_end_matches` removes is a run of whole copies of the pattern, nothing else. */
  lemma {:induction false} TrimEndMatchesRemovesCopies(s: string, pat: string) returns (k: nat)
    requires |pat| > 0
    ensures s == TrimEndMatches(s, pat) + Repeat(pat, k)
    decreases |s|
  {
    if EndsWith(s, pat) {
      var front := s[..|s| - |pat|];
      var j := TrimEndMatchesRemovesCopies(front, pat);
      k := j + 1;
      var t, r := TrimEndMatches(front, pat), Repeat(pat, j);
      assert front == t + r;
      assert s == front + pat by {
        assert s[|s| - |pat|..] == pat;
        assert s == front + s[|s| - |pat|..];
      }
      assert TrimEndMatches(s, pat) == t;
      assert Repeat(pat, k) == r + pat;
      assert (t + r) + pat == t + (r + pat);
    } else {
      k := 0;
    }
  }

  /** `str::contains` with a string pattern. */
  predicate Contains(s: string, sub: string)
    decreases |s|
  {
    StartsWith(s, sub) || (|s| > 0 && Contains(s[1..], sub))
  }

  lemma {:induction false} ContainsInfix(a: string, sub: string, b: string)
    ensures Contains(a + sub + b, sub)
    decreases |a|
  {
    if a == [] {
      assert (a + sub + b)[..|sub|] == sub;
    } else {
      assert (a + sub + b)[1..] == a[1..] + sub + b;
      ContainsInfix(a[1..], sub, b);
    }
  }

  /** `slice::join` on strings. */
  function Join(parts: seq<string>, sep: string): string
    decreases |parts|
  {
    if |parts| == 0 then []
    else if |parts| == 1 then parts[0]
    else parts[0] + sep + Join(parts[1..], sep)
  }

  /** The index of the first '\n' of `s`, or `|s|` when there is none. */
  function LineEnd(s: string): (k: nat)
    ensures k <= |s|
    ensures forall j :: 0 <= j < k ==> s[j] != '\n'
    ensures k < |s| ==> s[k] == '\n'
    decreases |s|
  {
    if s == [] || s[0] == '\n' then 0 else 1 + LineEnd(s[1..])
  }

  /** Removes the '\r' of a "\r\n" line ending. */
  function DropCarriageReturn(line: string): string {
    if |line| > 0 && line[|line| - 1] == '\r' then line[..|line| - 1] else line
  }

  predicate HasNoNewline(s: string) {
    forall j :: 0 <= j < |s| ==> s[j] != '\n'
  }

  /**
   * `str::lines`: the lines of `s` without their "\n" or "\r\n" terminators;
   * a final terminator does not start an extra empty line.
   */
  function Lines(s: string): (ls: seq<string>)
    ensures forall k :: 0 <= k < |ls| ==> HasNoNewline(ls[k])
    ensures s != [] <==> |ls| > 0
    decreases |s|
  {
    if s == [] then []
    else
      var k := LineEnd(s);
      if k == |s| then [s]
      else [DropCarriageReturn(s[..k])] + Lines(s[k + 1..])
  }

  /** Joining the lines of a text back with "\n" gives the text, when it has no '\r' and no final '\n'. */
  lemma {:induction false} JoinOfLines(s: string)
    requires forall j :: 0 <= j < |s| ==> s[j] != '\r'
    requires s == [] || s[|s| - 1] != '\n'
    ensures Join(Lines(s), "\n") == s
    decreases |s|
  {
    if s != [] {
      var k := LineEnd(s);
      if k < |s| {
        var line, rest := s[..k], s[k + 1..];
        assert rest != [];
        JoinOfLines(rest);
        assert DropCarriageReturn(line) == line;
        assert Lines(s) == [line] + Lines(rest);
        JoinCons(line, Lines(rest), "\n");
        assert s == line + "\n" + rest;
      }
    }
  }

  lemma {:induction false} JoinCons(p: string, ps: seq<string>, sep: string)
    requires |ps| > 0
    ensures Join([p] + ps, sep) == p + sep + Join(ps, sep)
  {
    assert ([p] + ps)[1..] == ps;
  }

  /** A line that can be told apart after joining: non-empty, without '\n', not ending in '\r'. */
  predicate IsPlainLine(p: string) {
    p != [] && HasNoNewline(p) && p[|p| - 1] != '\r'
  }

  /** Splitting a "\n"-join of plain lines into lines gives the lines back, one per part, in order. */
  lemma {:induction false} LinesOfJoin(ps: seq<string>)
    requires forall k :: 0 <= k < |ps| ==> IsPlainLine(ps[k])
    ensures Lines(Join(ps, "\n")) == ps
    decreases |ps|
  {
    if |ps| == 1 {
      LineEndOfPlain(ps[0], []);
    } else if |ps| > 1 {
      var tail := ps[1..];
      assert forall k :: 0 <= k < |tail| ==> tail[k] == ps[k + 1];
      LinesOfJoin(tail);
      assert Join(ps, "\n") == ps[0] + "\n" + Join(tail, "\n");
      LinesOfLineThenRest(ps[0], Join(tail, "\n"));
      assert ps == [ps[0]] + tail;
    }
  }

  /** A plain line followed by "\n" is split off as the first line. */
  lemma {:induction false} LinesOfLineThenRest(head: string, rest: string)
    requires IsPlainLine(head)
    ensures Lines(head + "\n" + rest) == [head] + Lines(rest)
  {
    var s := head + "\n" + rest;
    assert s == head + ("\n" + rest);
    LineEndOfPlain(head, "\n" + rest);
    assert s[..|head|] == head;
    assert s[|head| + 1..] == rest;
    assert DropCarriageReturn(head) == head;
  }

  lemma {:induction false} LineEndOfPlain(p: string, tail: string)
    requires HasNoNewline(p)
    requires tail == [] || tail[0] == '\n'
    ensures LineEnd(p + tail) == |p|
    decreases |p|
  {
    if p == [] {
      assert p + tail == tail;
    } else {
      assert (p + tail)[1..] == p[1..] + tail;
      LineEndOfPlain(p[1..], tail);
    }
  }
}
