/**
  The two JavaScript string operations the input resolver relies on,
  `String.prototype.trim` and `String.prototype.toLowerCase`, restricted to
  ASCII: trimming removes the ASCII white-space and line-terminator
  characters, lower-casing maps `A`..`Z` to `a`..`z` and leaves every other
  character alone.
 */
module AsciiText {

  /** The ASCII characters `trim` removes: tab, line feed, vertical tab,
      form feed, carriage return and space. */
  predicate IsSpace(c: char) {
    c == ' ' || c == '\t' || c == '\n' || c == '\U{B}' || c == '\U{C}' || c == '\r'
  }

  predicate AllSpace(s: string) {
    forall i :: 0 <= i < |s| ==> IsSpace(s[i])
  }

  /** Neither end of `s` is white space (the shape of a trimmed string). */
  predicate Unpadded(s: string) {
    s == [] || (!IsSpace(s[0]) && !IsSpace(s[|s| - 1]))
  }

  /** Number of white-space characters at the start of `s`. */
  function LeadingSpaces(s: string): (k: nat)
    ensures k <= |s|
    ensures AllSpace(s[..k])
    ensures k < |s| ==> !IsSpace(s[k])
  {
    if s != [] && IsSpace(s[0]) then 1 + LeadingSpaces(s[1..]) else 0
  }

  /** Number of white-space characters at the end of `s`. */
  function TrailingSpaces(s: string): (k: nat)
    ensures k <= |s|
    ensures forall j :: |s| - k <= j < |s| ==> IsSpace(s[j])
    ensures k < |s| ==> !IsSpace(s[|s| - 1 - k])
  {
    if s != [] && IsSpace(s[|s| - 1]) then
      var init := s[..|s| - 1];
      var k' := TrailingSpaces(init);
      assert forall j :: 0 <= j < |init| ==> init[j] == s[j];
      1 + k'
    else
      0
  }

  /** JavaScript `s.trim()`: `s` without its leading and trailing white space.
      The result is a slice of `s` that only white space surrounds, and
      neither of its ends is white space. */
  function Trim(s: string): (r: string)
    ensures var i := LeadingSpaces(s);
      && i + |r| <= |s|
      && r == s[i..i + |r|]
      && AllSpace(s[..i])
      && AllSpace(s[i + |r|..])
    ensures Unpadded(r)
  {
    var i := LeadingSpaces(s);
    var t := s[i..];
    var k := TrailingSpaces(t);
    var r := t[..|t| - k];
    assert r == s[i..i + |r|];
    var tail := s[i + |r|..];
    assert AllSpace(tail) by {
      forall j | 0 <= j < |tail| ensures IsSpace(tail[j]) {
        assert tail[j] == t[|t| - k + j];
      }
    }
    assert r != [] ==> r[0] == t[0] == s[i] && r[|r| - 1] == t[|t| - 1 - k];
    r
  }

  /** White-space padding in front of a string that does not start with
      white space is exactly what `LeadingSpaces` counts. */
  lemma {:induction false} LeadingSpacesOfPadded(p: string, t: string)
    requires AllSpace(p) && (t == [] || !IsSpace(t[0]))
    ensures LeadingSpaces(p + t) == |p|
  {
    if p != [] {
      assert (p + t)[0] == p[0];
      assert (p + t)[1..] == p[1..] + t;
      LeadingSpacesOfPadded(p[1..], t);
    } else {
      assert p + t == t;
    }
  }

  /** White-space padding behind a string that does not end with white
      space is exactly what `TrailingSpaces` counts. */
  lemma {:induction false} TrailingSpacesOfPadded(t: string, q: string)
    requires AllSpace(q) && (t == [] || !IsSpace(t[|t| - 1]))
    ensures TrailingSpaces(t + q) == |q|
  {
    if q != [] {
      var s := t + q;
      assert s[|s| - 1] == q[|q| - 1];
      assert s[..|s| - 1] == t + q[..|q| - 1];
      TrailingSpacesOfPadded(t, q[..|q| - 1]);
    } else {
      assert t + q == t;
    }
  }

  /** `Trim` undoes any white-space padding of an unpadded string. */
  lemma TrimOfPadded(p: string, w: string, q: string)
    requires AllSpace(p) && AllSpace(q) && Unpadded(w)
    ensures Trim(p + w + q) == w
  {
    var s := p + w + q;
    assert s == p + (w + q);
    if w == [] {
      assert s == p + q;
      assert AllSpace(s) by {
        forall k | 0 <= k < |s| ensures IsSpace(s[k]) {
          if k < |p| { assert s[k] == p[k]; } else { assert s[k] == q[k - |p|]; }
        }
      }
      assert LeadingSpaces(s) == |s|;
    } else {
      assert (w + q)[0] == w[0];
      LeadingSpacesOfPadded(p, w + q);
      assert s[|p|..] == w + q;
      TrailingSpacesOfPadded(w, q);
      assert (w + q)[..|w|] == w;
    }
  }

  function LowerChar(c: char): char {
    if 'A' <= c <= 'Z' then (c as int + 32) as char else c
  }

  /** JavaScript `s.toLowerCase()` on ASCII: same length, every character
      lower-cased on its own. */
  function ToLower(s: string): (r: string)
    ensures |r| == |s|
    ensures forall i :: 0 <= i < |s| ==> r[i] == LowerChar(s[i])
  {
    if s == [] then [] else [LowerChar(s[0])] + ToLower(s[1..])
  }

  /** `w` spells "true" in any letter case; exactly the strings that
      `ToLower` maps to "true". */
  predicate SpellsTrue(w: string) {
    && |w| == 4
    && (w[0] == 't' || w[0] == 'T')
    && (w[1] == 'r' || w[1] == 'R')
    && (w[2] == 'u' || w[2] == 'U')
    && (w[3] == 'e' || w[3] == 'E')
  }

  lemma LowerIsTrue(w: string)
    ensures ToLower(w) == "true" <==> SpellsTrue(w)
  {
    var r := ToLower(w);
    if SpellsTrue(w) {
      assert r == "true" by {
        assert r[0] == 't' && r[1] == 'r' && r[2] == 'u' && r[3] == 'e';
      }
    }
    if r == "true" {
      assert r[0] == 't' && r[1] == 'r' && r[2] == 'u' && r[3] == 'e';
      assert LowerChar(w[0]) == 't' && LowerChar(w[1]) == 'r';
      assert LowerChar(w[2]) == 'u' && LowerChar(w[3]) == 'e';
    }
  }
}
