/**
  Regex-free renditions of the number patterns used with `re.match` (a match
  anchored at the start of the token that may stop before its end).

  lib/numdiff/cmpline.py:
    _FLOAT = \s*[-+]?(\d+(\.\d*)?|\d*\.\d+)([eE][-+]?\d+)?\s*
    _INT   = \s*[-+]?\d+(?![.eE])\s*
  numdiff.py: the same two patterns without the surrounding \s*.

  Every part after the mandatory digits is optional, so a prefix match exists
  exactly when the mandatory part does; the predicates below state that part.
 */
module Lexical {
  import opened Strings

  predicate IsDigit(c: char) {
    '0' <= c <= '9'
  }

  predicate IsSign(c: char) {
    c == '-' || c == '+'
  }

  predicate AllDigits(s: string) {
    forall i :: 0 <= i < |s| ==> IsDigit(s[i])
  }

  /** `(\d+(\.\d*)?|\d*\.\d+)` matches a prefix of `v`: a digit, or a dot followed by a digit. */
  predicate MantissaStart(v: string) {
    (|v| >= 1 && IsDigit(v[0])) || (|v| >= 2 && v[0] == '.' && IsDigit(v[1]))
  }

  /** `[-+]?` followed by `p`: with a sign in front only the signed reading can succeed. */
  function AfterSign(u: string): string {
    if |u| > 0 && IsSign(u[0]) then u[1..] else u
  }

  /** numdiff.py `_float.match(u)`. */
  predicate FloatPrefix(u: string) {
    MantissaStart(AfterSign(u))
  }

  /**
    `\d+(?![.eE])` matches a prefix of `v`: some non-empty run of leading digits
    (the regex engine backtracks over the greedy run) not followed by `.`, `e`, `E`.
   */
  predicate DigitsNotFollowed(v: string) {
    exists k :: 1 <= k <= |v| && AllDigits(v[..k]) && (k == |v| || (v[k] != '.' && v[k] != 'e' && v[k] != 'E'))
  }

  /** numdiff.py `_int.match(u)`. */
  predicate IntPrefix(u: string) {
    DigitsNotFollowed(AfterSign(u))
  }

  /** cmpline.py `_FLOAT.match(s)`: leading `\s*`, then the float pattern. */
  predicate FloatMatch(s: string) {
    FloatPrefix(LStrip(s))
  }

  /** cmpline.py `_INT.match(s)`. */
  predicate IntMatch(s: string) {
    IntPrefix(LStrip(s))
  }

  /**
    Whatever `_int` matches, `_float` matches as well: both start with the same
    optional sign and mandatory digit.
   */
  lemma IntPrefixIsFloatPrefix(u: string)
    requires IntPrefix(u)
    ensures FloatPrefix(u)
  {
    var v := AfterSign(u);
    var k :| 1 <= k <= |v| && AllDigits(v[..k]) && (k == |v| || (v[k] != '.' && v[k] != 'e' && v[k] != 'E'));
    assert v[..k][0] == v[0];
  }

  /** The same for the `\s*`-framed patterns of cmpline.py. */
  lemma IntMatchIsFloatMatch(s: string)
    requires IntMatch(s)
    ensures FloatMatch(s)
  {
    IntPrefixIsFloatPrefix(LStrip(s));
  }

  /** The backtracking matters: `_int` matches "12.5" through the prefix "1", but not "1.5". */
  lemma IntPrefixBacktracks()
    ensures IntPrefix("12.5")
    ensures !IntPrefix("1.5")
  {
    assert AllDigits("12.5"[..1]);
    forall k | 2 <= k <= |"1.5"|
      ensures !AllDigits("1.5"[..k])
    {
      assert "1.5"[..k][1] == '.';
    }
    assert "1.5"[1] == '.';
  }
}
