/**
 * The ANSI colour-code stripper of the frontend: a global regular-expression replace of
 * ESC '[' <one or more ASCII digits> 'm' by the empty string, scanning left to right once.
 */
module StringUtils {

  const Esc: char := '\U{1b}'

  predicate IsDigit(c: char) {
    '0' <= c <= '9'
  }

  /** The SGR sequences the pattern matches: ESC, '[', at least one digit 0-9, 'm'. */
  predicate IsSgr(t: string) {
    && |t| >= 4
    && t[0] == Esc
    && t[1] == '['
    && t[|t| - 1] == 'm'
    && forall i :: 2 <= i < |t| - 1 ==> IsDigit(t[i])
  }

  /** The length of the longest run of digits at the start of `s`. */
  function DigitRun(s: string): (n: nat)
    ensures n <= |s|
    ensures forall i :: 0 <= i < n ==> IsDigit(s[i])
    ensures n < |s| ==> !IsDigit(s[n])
  {
    if s != [] && IsDigit(s[0]) then 1 + DigitRun(s[1..]) else 0
  }

  /**
   * The length of the match of the pattern at the start of `s`, or 0 when the pattern does not
   * match there. Because `\d+` is followed by 'm', which is not a digit, a match is unique.
   */
  function MatchLength(s: string): (n: nat)
    ensures n != 0 ==> n <= |s| && IsSgr(s[..n])
    ensures n == 0 ==> forall k :: 0 <= k <= |s| ==> !IsSgr(s[..k])
  {
    if |s| >= 2 && s[0] == Esc && s[1] == '[' then
      var d := DigitRun(s[2..]);
      if d > 0 && 2 + d < |s| && s[2 + d] == 'm' then
        assert forall i :: 2 <= i < 2 + d ==> s[i] == s[2..][i - 2];
        d + 3
      else
        NoMatchBeyondDigits(s, d);
        0
    else
      0
  }

  /** Helper for MatchLength: an SGR prefix of length k leaves a digit run of exactly k - 3 after "ESC[". */
  lemma SgrPrefixDigitRun(s: string, k: nat)
    requires k <= |s| && IsSgr(s[..k])
    ensures DigitRun(s[2..]) == k - 3
  {
    var t := s[..k];
    assert forall j :: 0 <= j < k - 3 ==> s[2..][j] == t[j + 2];
    assert s[2..][k - 3] == t[k - 1];
  }

  /** Helper for MatchLength: when the digit run is empty or not followed by 'm', no prefix is an SGR sequence. */
  lemma NoMatchBeyondDigits(s: string, d: nat)
    requires |s| >= 2
    requires d == DigitRun(s[2..])
    requires !(d > 0 && 2 + d < |s| && s[2 + d] == 'm')
    ensures forall k :: 0 <= k <= |s| ==> !IsSgr(s[..k])
  {
    forall k | 0 <= k <= |s|
      ensures !IsSgr(s[..k])
    {
      if IsSgr(s[..k]) {
        SgrPrefixDigitRun(s, k);
      }
    }
  }

  /** True when the pattern matches somewhere in `s`. */
  predicate HasMatch(s: string) {
    exists i :: 0 <= i < |s| && MatchLength(s[i..]) > 0
  }

  /** `str.replace(/\u001b\[\d+m/g, '')`: one left-to-right pass removing non-overlapping matches. */
  function StripAnsiCodes(s: string): (r: string)
    ensures |r| <= |s|
    decreases |s|
  {
    if s == [] then []
    else
      var n := MatchLength(s);
      if n > 0 then StripAnsiCodes(s[n..]) else [s[0]] + StripAnsiCodes(s[1..])
  }

  // ----- The scan as a decomposition of the input -----

  /** A piece of the input as the scan sees it: a kept character or a removed SGR sequence. */
  datatype Piece = Kept(c: char) | Removed(digits: string)

  predicate WellFormed(p: Piece) {
    p.Removed? ==> |p.digits| > 0 && forall i :: 0 <= i < |p.digits| ==> IsDigit(p.digits[i])
  }

  function RenderPiece(p: Piece): string {
    match p
    case Kept(c) => [c]
    case Removed(digits) => [Esc, '['] + digits + ['m']
  }

  function Render(ps: seq<Piece>): string {
    if ps == [] then [] else RenderPiece(ps[0]) + Render(ps[1..])
  }

  /** The characters of the kept pieces, in order. */
  function KeptText(ps: seq<Piece>): string {
    if ps == [] then []
    else (match ps[0] case Kept(c) => [c] case Removed(_) => []) + KeptText(ps[1..])
  }

  lemma RenderCons(p: Piece, rest: seq<Piece>)
    ensures Render([p] + rest) == RenderPiece(p) + Render(rest)
  {
    assert ([p] + rest)[1..] == rest;
  }

  /** An SGR sequence is rendered back from its digits. */
  lemma SgrRender(t: string)
    requires IsSgr(t)
    ensures WellFormed(Removed(t[2..|t| - 1]))
    ensures RenderPiece(Removed(t[2..|t| - 1])) == t
  {
    assert t == t[..2] + t[2..|t| - 1] + t[|t| - 1..];
  }

  /** A match of length `n` at the start of `s` is one well-formed removed piece followed by the rest of `s`. */
  lemma MatchPiece(s: string, n: nat)
    requires 0 < n <= |s| && IsSgr(s[..n])
    ensures WellFormed(Removed(s[2..n - 1]))
    ensures RenderPiece(Removed(s[2..n - 1])) + s[n..] == s
  {
    assert s[..n][2..n - 1] == s[2..n - 1];
    SgrRender(s[..n]);
    assert s == s[..n] + s[n..];
  }

  /** The left-to-right scan the global replace performs. */
  function Scan(s: string): (ps: seq<Piece>)
    ensures Render(ps) == s
    ensures forall i :: 0 <= i < |ps| ==> WellFormed(ps[i])
    decreases |s|
  {
    if s == [] then []
    else
      var n := MatchLength(s);
      if n > 0 then
        var p := Removed(s[2..n - 1]);
        var rest := Scan(s[n..]);
        MatchPiece(s, n);
        RenderCons(p, rest);
        [p] + rest
      else
        var rest := Scan(s[1..]);
        RenderCons(Kept(s[0]), rest);
        assert s == [s[0]] + s[1..];
        [Kept(s[0])] + rest
  }

  /** The stripped text is exactly what the scan keeps: every removed span is one SGR sequence. */
  lemma {:induction false} StripKeepsScannedText(s: string)
    ensures StripAnsiCodes(s) == KeptText(Scan(s))
    decreases |s|
  {
    if s != [] {
      var n := MatchLength(s);
      if n > 0 {
        StripKeepsScannedText(s[n..]);
        assert ([Removed(s[2..n - 1])] + Scan(s[n..]))[1..] == Scan(s[n..]);
      } else {
        StripKeepsScannedText(s[1..]);
        assert ([Kept(s[0])] + Scan(s[1..]))[1..] == Scan(s[1..]);
      }
    }
  }

  // ----- Properties of the stripper -----

  /** A string without an ESC character is returned unchanged. */
  lemma {:induction false} NoEscUnchanged(s: string)
    requires forall i :: 0 <= i < |s| ==> s[i] != Esc
    ensures StripAnsiCodes(s) == s
    decreases |s|
  {
    if s != [] {
      assert MatchLength(s) == 0;
      NoEscUnchanged(s[1..]);
    }
  }

  /** `a` is obtained from `b` by deleting characters, keeping the order of the others. */
  predicate IsSubsequence(a: string, b: string)
    decreases |b|
  {
    a == [] || (b != [] && ((a[0] == b[0] && IsSubsequence(a[1..], b[1..])) || IsSubsequence(a, b[1..])))
  }

  lemma {:induction false} SubsequenceOfLonger(a: string, p: string, b: string)
    requires IsSubsequence(a, b)
    ensures IsSubsequence(a, p + b)
    decreases |p|
  {
    if p != [] && a != [] {
      SubsequenceOfLonger(a, p[1..], b);
      assert (p + b)[1..] == p[1..] + b;
      assert IsSubsequence(a, (p + b)[1..]);
    } else if p == [] {
      assert p + b == b;
    }
  }

  /** Subsequences concatenate: deleting from two strings deletes from their concatenation. */
  lemma {:induction false} SubsequenceConcat(a1: string, b1: string, a2: string, b2: string)
    requires IsSubsequence(a1, b1) && IsSubsequence(a2, b2)
    ensures IsSubsequence(a1 + a2, b1 + b2)
    decreases |b1|
  {
    if a1 == [] {
      assert a1 + a2 == a2;
      SubsequenceOfLonger(a2, b1, b2);
    } else {
      assert (b1 + b2)[1..] == b1[1..] + b2;
      if a1[0] == b1[0] && IsSubsequence(a1[1..], b1[1..]) {
        SubsequenceConcat(a1[1..], b1[1..], a2, b2);
        assert (a1 + a2)[1..] == a1[1..] + a2;
      } else {
        SubsequenceConcat(a1, b1[1..], a2, b2);
      }
    }
  }

  /** The output is a subsequence of the input: kept characters keep their order. */
  lemma {:induction false} StripIsSubsequence(s: string)
    ensures IsSubsequence(StripAnsiCodes(s), s)
    decreases |s|
  {
    if s != [] {
      var n := MatchLength(s);
      if n > 0 {
        StripIsSubsequence(s[n..]);
        SubsequenceOfLonger(StripAnsiCodes(s[n..]), s[..n], s[n..]);
        assert s[..n] + s[n..] == s;
      } else {
        StripIsSubsequence(s[1..]);
        var r := StripAnsiCodes(s);
        assert r[0] == s[0] && r[1..] == StripAnsiCodes(s[1..]);
      }
    }
  }

  /** Without a match anywhere, the input comes back unchanged. */
  lemma {:induction false} NoMatchUnchanged(s: string)
    requires !HasMatch(s)
    ensures StripAnsiCodes(s) == s
    decreases |s|
  {
    if s != [] {
      assert s[0..] == s;
      assert MatchLength(s) == 0;
      forall i | 0 <= i < |s[1..]|
        ensures MatchLength(s[1..][i..]) == 0
      {
        assert s[1..][i..] == s[i + 1..];
      }
      NoMatchUnchanged(s[1..]);
    }
  }

  /** A match anywhere is removed: matches cannot overlap, so the scan never skips one. */
  lemma {:induction false} MatchShortens(s: string, i: nat)
    requires i < |s| && MatchLength(s[i..]) > 0
    ensures |StripAnsiCodes(s)| < |s|
    decreases |s|
  {
    assert s[0..] == s;
    if MatchLength(s) == 0 {
      assert s[1..][i - 1..] == s[i..];
      MatchShortens(s[1..], i - 1);
    }
  }

  /** The output is strictly shorter exactly when the input contains a match, and equal to it otherwise. */
  lemma ShorterIffMatch(s: string)
    ensures |StripAnsiCodes(s)| < |s| <==> HasMatch(s)
    ensures StripAnsiCodes(s) == s <==> !HasMatch(s)
  {
    if HasMatch(s) {
      var i :| 0 <= i < |s| && MatchLength(s[i..]) > 0;
      MatchShortens(s, i);
    } else {
      NoMatchUnchanged(s);
    }
  }

  // ----- Concrete behaviour -----

  /** A colour code is removed and the surrounding text kept. */
  lemma RemovesColourCode()
    ensures StripAnsiCodes([Esc] + "[31mred") == "red"
  {
    var s := [Esc] + "[31mred";
    assert DigitRun(s[2..]) == 2 by {
      assert s[2..] == "31mred";
      assert DigitRun("mred") == 0;
      assert "1mred"[1..] == "mred";
      assert DigitRun("1mred") == 1;
      assert "31mred"[1..] == "1mred";
    }
    assert MatchLength(s) == 5;
    assert s[5..] == "red";
    NoEscUnchanged("red");
  }

  /** `ESC[m` has no digits and is kept. */
  lemma KeepsCodeWithoutDigits()
    ensures StripAnsiCodes([Esc] + "[m") == [Esc] + "[m"
  {
    var s := [Esc] + "[m";
    assert !HasMatch(s) by {
      forall i | 0 <= i < |s| ensures MatchLength(s[i..]) == 0 {
        if i == 0 {
          assert DigitRun(s[2..]) == 0;
        } else {
          assert s[i..][0] != Esc;
        }
      }
    }
    NoMatchUnchanged(s);
  }

  /** `ESC[1;32m` contains ';' and is kept. */
  lemma KeepsCompoundCode()
    ensures StripAnsiCodes([Esc] + "[1;32m") == [Esc] + "[1;32m"
  {
    var s := [Esc] + "[1;32m";
    assert !HasMatch(s) by {
      forall i | 0 <= i < |s| ensures MatchLength(s[i..]) == 0 {
        if i == 0 {
          assert s[2..][0] == '1' && s[2..][1] == ';';
          assert DigitRun(s[2..][1..]) == 0;
          assert DigitRun(s[2..]) == 1;
        } else {
          assert s[i..][0] != Esc;
        }
      }
    }
    NoMatchUnchanged(s);
  }

  /** One pass can expose a new match, so stripping is not idempotent. */
  lemma NotIdempotent()
    ensures StripAnsiCodes([Esc, '[', Esc, '[', '1', 'm', '2', 'm']) == [Esc, '[', '2', 'm']
    ensures StripAnsiCodes([Esc, '[', '2', 'm']) == []
  {
    var s := [Esc, '[', Esc, '[', '1', 'm', '2', 'm'];
    assert DigitRun(s[2..]) == 0;
    assert MatchLength(s) == 0;
    assert MatchLength(s[1..]) == 0;
    var t := s[1..][1..];
    assert t == [Esc, '[', '1', 'm', '2', 'm'];
    assert DigitRun(t[2..]) == 1 by {
      assert t[2..][1..] == ['m', '2', 'm'];
    }
    assert MatchLength(t) == 4;
    assert t[4..] == "2m";
    NoEscUnchanged("2m");
    assert StripAnsiCodes(s[1..]) == ['['] + StripAnsiCodes(t);
    var u := [Esc, '[', '2', 'm'];
    assert DigitRun(u[2..]) == 1 by {
      assert u[2..][1..] == ['m'];
    }
    assert MatchLength(u) == 4;
    assert u[4..] == [];
  }
}
