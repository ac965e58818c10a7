/**
 * The two string operations of Python that the script relies on:
 * `s.split(sep, 1)` and the whitespace stripping done by `int()`.
 */
module PyStr {

  /** The characters Python's `str.isspace` accepts in the ASCII range. */
  predicate IsSpace(c: char)
  {
    c == ' ' || c == '\t' || c == '\n' || c == '\r' || c == '\U{B}' || c == '\U{C}'
  }

  predicate AllSpace(s: string)
  {
    forall i :: 0 <= i < |s| ==> IsSpace(s[i])
  }

  /**
   * `s.split(sep, 1)`: the one-element list `[s]` when `sep` does not occur,
   * otherwise the part before the first `sep` and everything after it.
   */
  function SplitOnce(s: string, sep: char): (parts: seq<string>)
    ensures sep !in s ==> parts == [s]
    ensures sep in s ==> |parts| == 2 && sep !in parts[0] && parts[0] + [sep] + parts[1] == s
  {
    if s == [] then [s]
    else if s[0] == sep then ["", s[1..]]
    else
      var rest := SplitOnce(s[1..], sep);
      if |rest| == 1 then [s] else [[s[0]] + rest[0], rest[1]]
  }

  /** Splitting a joined pair at its first separator gives the pair back. */
  lemma SplitOnceOfJoin(head: string, sep: char, tail: string)
    requires sep !in head
    ensures SplitOnce(head + [sep] + tail, sep) == [head, tail]
  {
    var s := head + [sep] + tail;
    assert s[|head|] == sep;
    var parts := SplitOnce(s, sep);
    FirstSeparatorUnique(parts[0], head, sep, parts[1], tail);
  }

  /** The position of the first separator in a string is determined by the string. */
  lemma {:induction false} FirstSeparatorUnique(a: string, b: string, sep: char, x: string, y: string)
    requires sep !in a && sep !in b
    requires a + [sep] + x == b + [sep] + y
    ensures a == b && x == y
  {
    if a == [] || b == [] {
      var s := a + [sep] + x;
      assert s[0] == sep;
      assert a == [] && b == [];
      assert x == s[1..] == y;
    } else {
      assert a[0] == (a + [sep] + x)[0] == (b + [sep] + y)[0] == b[0];
      assert a[1..] + [sep] + x == (a + [sep] + x)[1..];
      assert b[1..] + [sep] + y == (b + [sep] + y)[1..];
      FirstSeparatorUnique(a[1..], b[1..], sep, x, y);
      assert a == [a[0]] + a[1..];
      assert b == [b[0]] + b[1..];
    }
  }

  /** How many whitespace characters `s` starts with. */
  function LeadingSpaces(s: string): (n: nat)
    ensures n <= |s|
    ensures forall i :: 0 <= i < n ==> IsSpace(s[i])
    ensures n < |s| ==> !IsSpace(s[n])
  {
    if s != [] && IsSpace(s[0]) then 1 + LeadingSpaces(s[1..]) else 0
  }

  /** How many whitespace characters `s` ends with. */
  function TrailingSpaces(s: string): (n: nat)
    ensures n <= |s|
    ensures forall i :: |s| - n <= i < |s| ==> IsSpace(s[i])
    ensures n < |s| ==> !IsSpace(s[|s| - 1 - n])
  {
    if s != [] && IsSpace(s[|s| - 1]) then 1 + TrailingSpaces(s[..|s| - 1]) else 0
  }

  /** `s.strip()` with no argument: `s` without its leading and trailing whitespace. */
  function Strip(s: string): (r: string)
    ensures r == [] || (!IsSpace(r[0]) && !IsSpace(r[|r| - 1]))
  {
    var lead := LeadingSpaces(s);
    if lead == |s| then []
    else
      var trail := TrailingSpaces(s);
      assert lead < |s| - trail;
      s[lead..|s| - trail]
  }

  /**
   * Padding a string with whitespace on either side does not change what
   * stripping it gives.
   */
  lemma StripIgnoresPadding(left: string, s: string, right: string)
    requires AllSpace(left) && AllSpace(right)
    ensures Strip(left + s + right) == Strip(s)
  {
    var p, q := StripSplits(s);
    AllSpaceConcat(left, p);
    AllSpaceConcat(q, right);
    Regroup(left, p, Strip(s), q, right);
    StripExact(left + p, Strip(s), q + right);
  }

  lemma Regroup(a: string, p: string, c: string, q: string, b: string)
    ensures a + (p + c + q) + b == (a + p) + c + (q + b)
  {
  }

  /** Every string is its stripped core between two runs of whitespace. */
  lemma StripSplits(s: string) returns (p: string, q: string)
    ensures AllSpace(p) && AllSpace(q)
    ensures s == p + Strip(s) + q
  {
    var lead := LeadingSpaces(s);
    if lead == |s| {
      p, q := s, [];
      assert s == p + [] + q;
    } else {
      var trail := TrailingSpaces(s);
      p, q := s[..lead], s[|s| - trail..];
      assert s == s[..lead] + s[lead..|s| - trail] + s[|s| - trail..];
    }
  }

  lemma AllSpaceConcat(a: string, b: string)
    requires AllSpace(a) && AllSpace(b)
    ensures AllSpace(a + b)
  {
  }

  /**
   * When a string is whitespace, then a core with no whitespace at its ends,
   * then whitespace, stripping it yields that core.
   */
  lemma StripExact(p: string, core: string, q: string)
    requires AllSpace(p) && AllSpace(q)
    requires core == [] || (!IsSpace(core[0]) && !IsSpace(core[|core| - 1]))
    ensures Strip(p + core + q) == core
  {
    var s := p + core + q;
    assert forall i :: 0 <= i < |p| ==> s[i] == p[i];
    assert forall i :: 0 <= i < |q| ==> s[|p| + |core| + i] == q[i];
    var lead := LeadingSpaces(s);
    if core != [] {
      assert s[|p|] == core[0] && s[|p| + |core| - 1] == core[|core| - 1];
      assert lead == |p|;
      var trail := TrailingSpaces(s);
      assert trail == |q|;
      assert s[lead..|s| - trail] == core;
    }
  }
}
