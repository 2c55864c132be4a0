/** The postal-code check the handlers run: the anchored RE2 pattern ^[0-9]{8}$ (written
    ^\d{8}$ in one handler; RE2's \d is the ASCII class [0-9]). Without the m flag RE2's $
    matches only at the very end of the text, so no trailing newline is accepted. */
module ZipPattern {

  predicate IsAsciiDigit(c: char)
  {
    '0' <= c <= '9'
  }

  /** The whole of `s` matches ^[0-9]{n}$: n repetitions of the digit class, then the end. */
  function MatchesDigits(s: string, n: nat): (b: bool)
    ensures b ==> |s| == n
    decreases n
  {
    if n == 0 then s == []
    else |s| > 0 && IsAsciiDigit(s[0]) && MatchesDigits(s[1..], n - 1)
  }

  /** The pattern accepts exactly the strings of n ASCII digits: no sign, space or other digit. */
  lemma {:induction false} MatchesDigitsIff(s: string, n: nat)
    ensures MatchesDigits(s, n) <==> |s| == n && forall i :: 0 <= i < |s| ==> IsAsciiDigit(s[i])
    decreases n
  {
    if n > 0 && |s| > 0 {
      MatchesDigitsIff(s[1..], n - 1);
      assert forall i :: 0 < i < |s| ==> s[i] == s[1..][i - 1];
    }
  }
}
