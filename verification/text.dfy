/**
 * The string operations of Python and Rust that the model relies on:
 * Python's `str.strip()` (with Python's own whitespace set), substring
 * search, and ASCII case mapping.
 */
module Text {
  import opened Common

  /** Python's `str.isspace()` for one character: what `str.strip()` removes. */
  predicate IsSpace(c: char)
  {
    c == ' ' || ('\t' <= c <= '\r') || ('\U{1c}' <= c <= '\U{1f}')
    || c == '\U{85}' || c == '\U{a0}' || c == '\U{1680}'
    || ('\U{2000}' <= c <= '\U{200a}')
    || c == '\U{2028}' || c == '\U{2029}' || c == '\U{202f}' || c == '\U{205f}'
    || c == '\U{3000}'
  }

  /** True of "" and of whitespace-only text: `not s or not s.strip()` in Python. */
  predicate AllSpace(s: string)
  {
    forall i :: 0 <= i < |s| ==> IsSpace(s[i])
  }

  function LStrip(s: string): (r: string)
    ensures |r| <= |s| && r == s[|s| - |r|..]
    ensures AllSpace(s[..|s| - |r|])
    ensures r == [] || !IsSpace(r[0])
    decreases |s|
  {
    if s != [] && IsSpace(s[0]) then
      var r := LStrip(s[1..]);
      assert s[..|s| - |r|] == [s[0]] + s[1..][..|s| - 1 - |r|];
      r
    else s
  }

  function RStrip(s: string): (r: string)
    ensures |r| <= |s| && r == s[..|r|]
    ensures AllSpace(s[|r|..])
    ensures r == [] || !IsSpace(r[|r| - 1])
    decreases |s|
  {
    if s != [] && IsSpace(s[|s| - 1]) then
      var r := RStrip(s[..|s| - 1]);
      assert s[|r|..] == s[..|s| - 1][|r|..] + [s[|s| - 1]];
      r
    else s
  }

  /** Python's `s.strip()`. */
  function Strip(s: string): (r: string)
    ensures r == [] <==> AllSpace(s)
    ensures r != [] ==> !IsSpace(r[0]) && !IsSpace(r[|r| - 1])
    ensures |r| <= |s|
  {
    var l := LStrip(s);
    var r := RStrip(l);
    assert r == [] ==> AllSpace(s) by {
      if r == [] {
        assert s == s[..|s| - |l|] + l;
        assert l == l[..0] + l[0..];
      }
    }
    r
  }

  lemma {:induction false} LStripAppend(a: string, b: string)
    requires !AllSpace(a)
    ensures LStrip(a + b) == LStrip(a) + b
    decreases |a|
  {
    assert a != [];
    if IsSpace(a[0]) {
      assert (a + b)[1..] == a[1..] + b;
      assert !AllSpace(a[1..]) by {
        var i :| 0 <= i < |a| && !IsSpace(a[i]);
        assert a[1..][i - 1] == a[i];
      }
      LStripAppend(a[1..], b);
    }
  }

  lemma {:induction false} RStripAppend(x: string, b: string)
    ensures RStrip(x + b) == if AllSpace(b) then RStrip(x) else x + RStrip(b)
    decreases |b|
  {
    if b == [] {
      assert x + b == x;
    } else {
      var last := b[|b| - 1];
      var front := b[..|b| - 1];
      assert (x + b)[..|x + b| - 1] == x + front;
      assert (x + b)[|x + b| - 1] == last;
      if IsSpace(last) {
        RStripAppend(x, front);
        assert AllSpace(b) <==> AllSpace(front) by {
          if AllSpace(front) {
            forall i | 0 <= i < |b| ensures IsSpace(b[i]) {
              if i < |b| - 1 { assert b[i] == front[i]; }
            }
          }
        }
      } else {
        assert !AllSpace(b);
      }
    }
  }

  /**
   * Once some non-whitespace text has been seen, stripping the longer text
   * keeps what stripping the shorter text gave: `a.strip()` is a prefix of
   * `(a + b).strip()`.
   */
  lemma {:induction false} StripGrows(a: string, b: string)
    requires Strip(a) != []
    ensures Strip(a) <= Strip(a + b)
  {
    LStripAppend(a, b);
    var l := LStrip(a);
    RStripAppend(l, b);
  }

  /** `pat` occurs in `s` starting at index `i`. */
  predicate OccursAt(s: string, pat: string, i: nat)
  {
    i + |pat| <= |s| && s[i..i + |pat|] == pat
  }

  /** The first index at or after `from` where `pat` occurs (`str.find`). */
  function FindFrom(s: string, pat: string, from: nat): (r: Option<nat>)
    requires from <= |s|
    ensures r.Some? ==> from <= r.value && OccursAt(s, pat, r.value)
    ensures r.Some? ==> forall k: nat :: from <= k < r.value ==> !OccursAt(s, pat, k)
    ensures r.None? ==> forall k: nat :: from <= k ==> !OccursAt(s, pat, k)
    decreases |s| - from
  {
    if OccursAt(s, pat, from) then Some(from)
    else if from == |s| then None
    else FindFrom(s, pat, from + 1)
  }

  /** Python's `pat in s`. */
  predicate Contains(s: string, pat: string)
  {
    FindFrom(s, pat, 0).Some?
  }

  function AsciiLowerChar(c: char): char
  {
    if 'A' <= c <= 'Z' then (c as int + 32) as char else c
  }

  /** Lower-case mapping restricted to ASCII letters. */
  function AsciiLower(s: string): (r: string)
    ensures |r| == |s|
    ensures forall i :: 0 <= i < |s| ==> r[i] == AsciiLowerChar(s[i])
  {
    seq(|s|, i requires 0 <= i < |s| => AsciiLowerChar(s[i]))
  }
}
