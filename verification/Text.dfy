/** Stripping characters off the ends of a text (Python's `str.strip` and Go's `strings.TrimSpace`), and joining texts. */
module Text {
  import opened Basics

  function StripLeft(s: string, p: char -> bool): string {
    if s != [] && p(s[0]) then StripLeft(s[1..], p) else s
  }

  function StripRight(s: string, p: char -> bool): string {
    if s != [] && p(s[|s| - 1]) then StripRight(s[..|s| - 1], p) else s
  }

  function Strip(s: string, p: char -> bool): string {
    StripRight(StripLeft(s, p), p)
  }

  /** Neither end would be stripped. */
  predicate Bare(s: string, p: char -> bool) {
    s != [] ==> !p(s[0]) && !p(s[|s| - 1])
  }

  lemma {:induction false} StripLeftStarts(s: string, p: char -> bool)
    ensures var r := StripLeft(s, p); |r| <= |s| && r == s[|s| - |r|..] && (r != [] ==> !p(r[0]))
  {
    if s != [] && p(s[0]) { StripLeftStarts(s[1..], p); }
  }

  lemma {:induction false} StripRightEnds(s: string, p: char -> bool)
    ensures var r := StripRight(s, p); r <= s && (r != [] ==> !p(r[|r| - 1]))
  {
    if s != [] && p(s[|s| - 1]) { StripRightEnds(s[..|s| - 1], p); }
  }

  /** The result is a slice of the text and has bare ends. */
  lemma StripBare(s: string, p: char -> bool)
    ensures Bare(Strip(s, p), p)
    ensures exists i, j :: 0 <= i <= j <= |s| && Strip(s, p) == s[i..j]
  {
    var l := StripLeft(s, p);
    StripLeftStarts(s, p);
    StripRightEnds(l, p);
    var r := Strip(s, p);
    var i := |s| - |l|;
    assert r == s[i..i + |r|];
  }

  /** A text with bare ends is left alone, so stripping twice is stripping once. */
  lemma BareStrip(s: string, p: char -> bool)
    requires Bare(s, p)
    ensures Strip(s, p) == s
  {
  }

  /** Quoting a bare text with a stripped character and stripping it again gives the text back. */
  lemma StripQuoted(s: string, c: char, p: char -> bool)
    requires Bare(s, p) && p(c)
    ensures Strip([c] + s + [c], p) == s
  {
    var q := [c] + s + [c];
    assert q[1..] == s + [c];
    if s == [] {
      assert StripLeft([c], p) == StripLeft([c][1..], p) == [];
    } else {
      assert StripLeft(q, p) == StripLeft(s + [c], p) == s + [c];
      assert (s + [c])[..|s|] == s;
      assert StripRight(s + [c], p) == StripRight(s, p) == s;
    }
  }

  lemma StripMembers(s: string, p: char -> bool, c: char)
    requires c in Strip(s, p)
    ensures c in s
  {
    StripBare(s, p);
  }

  /** The first position whose character satisfies p, or the length. */
  function Find(s: string, p: char -> bool): (i: nat)
    ensures i <= |s| && (i < |s| ==> p(s[i])) && forall j :: 0 <= j < i ==> !p(s[j])
  {
    if s == [] || p(s[0]) then 0 else 1 + Find(s[1..], p)
  }

  lemma FindIs(s: string, p: char -> bool, i: nat)
    requires i <= |s| && (i < |s| ==> p(s[i])) && forall j :: 0 <= j < i ==> !p(s[j])
    ensures Find(s, p) == i
  {
  }

  function Occurrences(s: string, c: char): nat {
    if s == [] then 0 else (if s[0] == c then 1 else 0) + Occurrences(s[1..], c)
  }

  lemma {:induction false} OccurrencesConcat(a: string, b: string, c: char)
    ensures Occurrences(a + b, c) == Occurrences(a, c) + Occurrences(b, c)
  {
    if a == [] {
      assert a + b == b;
    } else {
      OccurrencesConcat(a[1..], b, c);
      assert (a + b)[1..] == a[1..] + b;
    }
  }

  lemma {:induction false} NoOccurrence(s: string, c: char)
    ensures Occurrences(s, c) == 0 <==> c !in s
  {
    if s != [] {
      NoOccurrence(s[1..], c);
      assert s == [s[0]] + s[1..];
    }
  }

  lemma {:induction false} StripLeftOccurrences(s: string, p: char -> bool, c: char)
    requires !p(c)
    ensures Occurrences(StripLeft(s, p), c) == Occurrences(s, c)
  {
    if s != [] && p(s[0]) { StripLeftOccurrences(s[1..], p, c); }
  }

  lemma {:induction false} StripRightOccurrences(s: string, p: char -> bool, c: char)
    requires !p(c)
    ensures Occurrences(StripRight(s, p), c) == Occurrences(s, c)
  {
    if s != [] && p(s[|s| - 1]) {
      var init := s[..|s| - 1];
      StripRightOccurrences(init, p, c);
      InitLast(s);
      OccurrencesConcat(init, [s[|s| - 1]], c);
    }
  }

  /** Stripping removes only the characters it strips. */
  lemma StripOccurrences(s: string, p: char -> bool, c: char)
    requires !p(c)
    ensures Occurrences(Strip(s, p), c) == Occurrences(s, c)
  {
    StripLeftOccurrences(s, p, c);
    StripRightOccurrences(StripLeft(s, p), p, c);
  }

  /** Python's whitespace characters. */
  predicate PySpace(c: char) {
    var n := c as int;
    || 0x09 <= n <= 0x0d || 0x1c <= n <= 0x20 || n == 0x85 || n == 0xa0 || n == 0x1680
    || 0x2000 <= n <= 0x200a || n == 0x2028 || n == 0x2029 || n == 0x202f || n == 0x205f || n == 0x3000
  }

  /** The characters at which Python's `splitlines` breaks. */
  predicate PyLineBreak(c: char) {
    var n := c as int;
    0x0a <= n <= 0x0d || 0x1c <= n <= 0x1e || n == 0x85 || n == 0x2028 || n == 0x2029
  }

  /** Go's `unicode.IsSpace`. */
  predicate GoSpace(c: char) {
    var n := c as int;
    || 0x09 <= n <= 0x0d || n == 0x20 || n == 0x85 || n == 0xa0 || n == 0x1680
    || 0x2000 <= n <= 0x200a || n == 0x2028 || n == 0x2029 || n == 0x202f || n == 0x205f || n == 0x3000
  }

  /** Texts joined by newlines. */
  function Join(parts: seq<string>): string {
    if parts == [] then "" else if |parts| == 1 then parts[0] else parts[0] + "\n" + Join(parts[1..])
  }

  lemma {:induction false} JoinSnoc(parts: seq<string>, last: string)
    requires parts != []
    ensures Join(parts + [last]) == Join(parts) + "\n" + last
  {
    assert (parts + [last])[1..] == parts[1..] + [last];
    if |parts| > 1 {
      JoinSnoc(parts[1..], last);
      assert Join(parts + [last]) == parts[0] + "\n" + (Join(parts[1..]) + "\n" + last);
    }
  }
}
