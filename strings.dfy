/**
  The few Python string operations the comparison engine relies on, over
  `string` (a `seq<char>`): `str.strip`, `str.split()` without arguments,
  `re.split(r'\s+', ...)`, `str.join`, `str.startswith` and `%d` formatting.
 */
module Strings {

  /** The characters Python's `\s`, `str.strip` and `str.split` treat as white space (ASCII). */
  predicate IsSpace(c: char) {
    c == ' ' || c == '\t' || c == '\n' || c == '\r' || c == '\U{B}' || c == '\U{C}'
  }

  predicate AllSpace(s: string) {
    forall i :: 0 <= i < |s| ==> IsSpace(s[i])
  }

  predicate NoSpace(s: string) {
    forall i :: 0 <= i < |s| ==> !IsSpace(s[i])
  }

  /** The characters of `s` that are not white space, in order. */
  function Visible(s: string): string {
    if s == [] then [] else (if IsSpace(s[0]) then [] else [s[0]]) + Visible(s[1..])
  }

  lemma {:induction false} VisibleAppend(a: string, b: string)
    ensures Visible(a + b) == Visible(a) + Visible(b)
  {
    if a == [] {
      assert a + b == b;
    } else {
      assert (a + b)[0] == a[0];
      assert (a + b)[1..] == a[1..] + b;
      VisibleAppend(a[1..], b);
    }
  }

  lemma {:induction false} VisibleOfSpace(s: string)
    requires AllSpace(s)
    ensures Visible(s) == []
  {
    if s != [] {
      VisibleOfSpace(s[1..]);
    }
  }

  lemma {:induction false} VisibleOfNoSpace(s: string)
    requires NoSpace(s)
    ensures Visible(s) == s
  {
    if s != [] {
      VisibleOfNoSpace(s[1..]);
    }
  }

  /** `s.lstrip()`: a suffix of `s` that does not start with white space. */
  function LStrip(s: string): (r: string)
    ensures |r| <= |s| && r == s[|s| - |r|..]
    ensures r == [] || !IsSpace(r[0])
  {
    if s != [] && IsSpace(s[0]) then LStrip(s[1..]) else s
  }

  /** What `lstrip` drops is white space. */
  lemma {:induction false} LStripDrops(s: string)
    ensures AllSpace(s[..|s| - |LStrip(s)|])
  {
    if s != [] && IsSpace(s[0]) {
      LStripDrops(s[1..]);
      var n := |s| - |LStrip(s)|;
      assert forall i :: 1 <= i < n ==> s[..n][i] == s[1..][..n - 1][i - 1];
    }
  }

  /** `s.rstrip()`: a prefix of `s` that does not end in white space. */
  function RStrip(s: string): (r: string)
    ensures |r| <= |s| && r == s[..|r|]
    ensures r == [] || !IsSpace(r[|r| - 1])
  {
    if s != [] && IsSpace(s[|s| - 1]) then RStrip(s[..|s| - 1]) else s
  }

  /** What `rstrip` drops is white space. */
  lemma {:induction false} RStripDrops(s: string)
    ensures AllSpace(s[|RStrip(s)|..])
  {
    if s != [] && IsSpace(s[|s| - 1]) {
      RStripDrops(s[..|s| - 1]);
      var m := |RStrip(s)|;
      assert s[m..] == s[..|s| - 1][m..] + [s[|s| - 1]];
      AllSpaceAppend(s[..|s| - 1][m..], [s[|s| - 1]]);
    }
  }

  /** Where `s.strip()` starts: the length of the leading white space. */
  function StripStart(s: string): (i: nat)
    ensures i <= |s| && LStrip(s) == s[i..]
  {
    |s| - |LStrip(s)|
  }

  /** `s.strip()`: a slice of `s` from `StripStart(s)` with no white space at either end. */
  function Strip(s: string): (r: string)
    ensures r == [] || (!IsSpace(r[0]) && !IsSpace(r[|r| - 1]))
    ensures StripStart(s) + |r| <= |s| && r == s[StripStart(s)..StripStart(s) + |r|]
  {
    var l := LStrip(s);
    var r := RStrip(l);
    assert r == l[..|r|];
    r
  }

  /** `s.strip()` removes only white space: `s` is white space, `Strip(s)`, white space. */
  lemma StripFrame(s: string)
    ensures AllSpace(s[..StripStart(s)]) && AllSpace(s[StripStart(s) + |Strip(s)|..])
  {
    var i := StripStart(s);
    var l := LStrip(s);
    LStripDrops(s);
    RStripDrops(l);
    assert s[i + |Strip(s)|..] == l[|Strip(s)|..];
  }

  /** Length of the leading run of non-white-space characters. */
  function TokenLength(s: string): (k: nat)
    ensures k <= |s| && NoSpace(s[..k])
    ensures k == |s| || IsSpace(s[k])
  {
    if s == [] || IsSpace(s[0]) then 0 else 1 + TokenLength(s[1..])
  }

  /** Length of the leading run of white-space characters. */
  function SpaceLength(s: string): (k: nat)
    ensures k <= |s| && AllSpace(s[..k])
    ensures k == |s| || !IsSpace(s[k])
  {
    if s == [] || !IsSpace(s[0]) then 0 else 1 + SpaceLength(s[1..])
  }

  /** `s.split()`: the maximal runs of non-white-space characters. */
  function WsSplit(s: string): seq<string>
    decreases |s|
  {
    var t := LStrip(s);
    if t == [] then []
    else
      var k := TokenLength(t);
      [t[..k]] + WsSplit(t[k..])
  }

  function Concat(xs: seq<string>): string {
    if xs == [] then [] else xs[0] + Concat(xs[1..])
  }

  /** Dropping leading white space changes no visible character. */
  lemma {:induction false} VisibleLStrip(s: string)
    ensures Visible(LStrip(s)) == Visible(s)
  {
    if s != [] && IsSpace(s[0]) {
      VisibleLStrip(s[1..]);
    }
  }

  lemma AllSpaceAppend(a: string, b: string)
    requires AllSpace(a) && AllSpace(b)
    ensures AllSpace(a + b)
  {
    forall i | 0 <= i < |a + b|
      ensures IsSpace((a + b)[i])
    {
      if i < |a| {
        assert (a + b)[i] == a[i];
      } else {
        assert (a + b)[i] == b[i - |a|];
      }
    }
  }

  /** A leading token is visible as it is. */
  lemma VisibleToken(t: string, k: nat)
    requires k <= |t| && NoSpace(t[..k])
    ensures Visible(t) == t[..k] + Visible(t[k..])
  {
    assert t == t[..k] + t[k..];
    VisibleAppend(t[..k], t[k..]);
    VisibleOfNoSpace(t[..k]);
  }

  /** `s.split()` loses exactly the white space of `s`. */
  lemma {:induction false} WsSplitKeepsText(s: string)
    ensures Concat(WsSplit(s)) == Visible(s)
    decreases |s|
  {
    var t := LStrip(s);
    VisibleLStrip(s);
    if t != [] {
      var k := TokenLength(t);
      VisibleToken(t, k);
      WsSplitKeepsText(t[k..]);
      assert WsSplit(s) == [t[..k]] + WsSplit(t[k..]);
      assert Concat([t[..k]] + WsSplit(t[k..])) == t[..k] + Concat(WsSplit(t[k..]));
    }
  }

  /** The fields of `s.split()` are never empty and hold no white space. */
  lemma {:induction false} WsSplitFields(s: string)
    ensures forall k :: 0 <= k < |WsSplit(s)| ==> WsSplit(s)[k] != [] && NoSpace(WsSplit(s)[k])
    decreases |s|
  {
    var t := LStrip(s);
    if t != [] {
      var k := TokenLength(t);
      WsSplitFields(t[k..]);
    }
  }

  /**
    `re.split(r'\s+', s)`: the pieces between maximal white-space runs; a run at
    either end yields an empty piece there.
   */
  function SplitRuns(s: string): (r: seq<string>)
    ensures |r| >= 1
    decreases |s|
  {
    var k := TokenLength(s);
    if k == |s| then [s]
    else
      var n := SpaceLength(s[k..]);
      [s[..k]] + SplitRuns(s[k + n..])
  }

  /** White space alone strips to nothing. */
  lemma {:induction false} LStripOfSpace(v: string)
    requires AllSpace(v)
    ensures LStrip(v) == []
  {
    if v != [] {
      LStripOfSpace(v[1..]);
    }
  }

  /** Leading white space does not change what `lstrip` leaves. */
  lemma {:induction false} LStripLeading(w: string, y: string)
    requires AllSpace(w)
    ensures LStrip(w + y) == LStrip(y)
  {
    if w == [] {
      assert w + y == y;
    } else {
      assert (w + y)[0] == w[0];
      assert (w + y)[1..] == w[1..] + y;
      LStripLeading(w[1..], y);
    }
  }

  /** Once something visible is reached, `lstrip` keeps everything after it. */
  lemma {:induction false} LStripAppend(x: string, w: string)
    requires LStrip(x) != []
    ensures LStrip(x + w) == LStrip(x) + w
  {
    assert x != [];
    assert (x + w)[0] == x[0];
    if IsSpace(x[0]) {
      assert (x + w)[1..] == x[1..] + w;
      LStripAppend(x[1..], w);
    }
  }

  /** White space after a token does not lengthen it. */
  lemma {:induction false} TokenLengthAppend(u: string, w: string)
    requires AllSpace(w)
    ensures TokenLength(u + w) == TokenLength(u)
  {
    if u == [] {
      assert u + w == w;
    } else {
      assert (u + w)[0] == u[0];
      assert (u + w)[1..] == u[1..] + w;
      TokenLengthAppend(u[1..], w);
    }
  }

  lemma SliceAppend(u: string, w: string, k: nat)
    requires k <= |u|
    ensures (u + w)[..k] == u[..k] && (u + w)[k..] == u[k..] + w
  {
  }

  lemma SliceThree(s: string, i: nat, j: nat)
    requires i <= j <= |s|
    ensures s == s[..i] + (s[i..j] + s[j..])
  {
  }

  /** Trailing white space adds no field to `s.split()`. */
  lemma {:induction false} WsSplitTrailing(x: string, w: string)
    requires AllSpace(w)
    ensures WsSplit(x + w) == WsSplit(x)
    decreases |x|
  {
    var u := LStrip(x);
    if u == [] {
      LStripDrops(x);
      assert x[..|x|] == x;
      AllSpaceAppend(x, w);
      LStripOfSpace(x + w);
    } else {
      LStripAppend(x, w);
      var k := TokenLength(u);
      TokenLengthAppend(u, w);
      SliceAppend(u, w, k);
      WsSplitTrailing(u[k..], w);
    }
  }

  /** `s.split()` only looks at what `lstrip` leaves. */
  lemma WsSplitLStrip(s: string)
    ensures WsSplit(s) == WsSplit(LStrip(s))
  {
    var t := LStrip(s);
    assert LStrip(t) == t;
  }

  /** Leading white space adds no field to `s.split()`. */
  lemma WsSplitLeading(w: string, y: string)
    requires AllSpace(w)
    ensures WsSplit(w + y) == WsSplit(y)
  {
    WsSplitLStrip(w + y);
    LStripLeading(w, y);
    WsSplitLStrip(y);
  }

  /** `s.split()` ignores what `rstrip` removes. */
  lemma WsSplitRStrip(l: string)
    ensures WsSplit(l) == WsSplit(RStrip(l))
  {
    var r := RStrip(l);
    var t := l[|r|..];
    RStripDrops(l);
    assert r + t == l;
    WsSplitTrailing(r, t);
  }

  lemma WsSplitOfStrip(s: string)
    ensures WsSplit(s) == WsSplit(Strip(s))
  {
    WsSplitLStrip(s);
    WsSplitRStrip(LStrip(s));
  }

  /** `s.split()` skips a leading white-space run. */
  lemma WsSplitSkipsSpace(u: string)
    ensures WsSplit(u) == WsSplit(u[SpaceLength(u)..])
  {
    var n := SpaceLength(u);
    assert u == u[..n] + u[n..];
    WsSplitLeading(u[..n], u[n..]);
  }

  /** One field of `re.split(r'\s+', t)` when `t` has white space after its first token. */
  lemma SplitRunsStep(t: string, k: nat, n: nat)
    requires k == TokenLength(t) < |t| && n == SpaceLength(t[k..])
    ensures SplitRuns(t) == [t[..k]] + SplitRuns(t[k..][n..])
  {
    assert t[k..][n..] == t[k + n..];
  }

  /** One field of `s.split()` when `t` starts with a visible character. */
  lemma WsSplitStep(t: string, k: nat, n: nat)
    requires t != [] && !IsSpace(t[0])
    requires k == TokenLength(t) && n == SpaceLength(t[k..])
    ensures WsSplit(t) == [t[..k]] + WsSplit(t[k..][n..])
  {
    assert LStrip(t) == t;
    WsSplitSkipsSpace(t[k..]);
  }

  lemma AppendAssoc(a: seq<string>, b: seq<string>, c: seq<string>)
    ensures a + (b + c) == (a + b) + c
  {
  }

  /** The empty string: `re.split` gives one empty piece, `split()` none. */
  lemma SplitOfEmpty(v: string)
    requires v == []
    ensures SplitRuns(v) == WsSplit(v) + [""]
  {
    assert WsSplit(v) == [];
  }

  /** A string that is one token splits into itself either way. */
  lemma FieldsOfToken(t: string)
    requires t != [] && !IsSpace(t[0]) && TokenLength(t) == |t|
    ensures !IsSpace(t[|t| - 1])
    ensures SplitRuns(t) == WsSplit(t)
  {
    assert LStrip(t) == t;
    assert t[..|t|] == t;
    assert t[..|t|][|t| - 1] == t[|t| - 1];
    assert t[|t|..] == [];
  }

  /** A token followed by white space only: `re.split` adds an empty piece. */
  lemma FieldsOfTokenSpace(t: string, k: nat, n: nat)
    requires t != [] && !IsSpace(t[0])
    requires k == TokenLength(t) < |t| && n == SpaceLength(t[k..]) && t[k..][n..] == []
    ensures IsSpace(t[|t| - 1])
    ensures SplitRuns(t) == WsSplit(t) + [""]
  {
    var v := t[k..][n..];
    assert t[k..][..n][n - 1] == t[|t| - 1];
    SplitRunsStep(t, k, n);
    WsSplitStep(t, k, n);
    SplitOfEmpty(v);
    AppendAssoc([t[..k]], WsSplit(v), [""]);
  }

  /** A token, white space, and more: both splits continue with the same rest. */
  lemma FieldsOfTokenMore(t: string, k: nat, n: nat, v: string)
    requires t != [] && !IsSpace(t[0])
    requires k == TokenLength(t) < |t| && n == SpaceLength(t[k..]) && v == t[k..][n..] && v != []
    requires IsSpace(v[|v| - 1]) ==> SplitRuns(v) == WsSplit(v) + [""]
    requires !IsSpace(v[|v| - 1]) ==> SplitRuns(v) == WsSplit(v)
    ensures IsSpace(t[|t| - 1]) ==> SplitRuns(t) == WsSplit(t) + [""]
    ensures !IsSpace(t[|t| - 1]) ==> SplitRuns(t) == WsSplit(t)
  {
    assert v[|v| - 1] == t[|t| - 1];
    SplitRunsStep(t, k, n);
    WsSplitStep(t, k, n);
    AppendAssoc([t[..k]], WsSplit(v), [""]);
  }

  /**
    Inside a string that starts with a visible character, `re.split(r'\s+', t)`
    gives the fields of `t.split()`, plus one empty piece when `t` ends in white space.
   */
  lemma {:induction false} SplitRunsFields(t: string)
    requires t != [] && !IsSpace(t[0])
    ensures IsSpace(t[|t| - 1]) ==> SplitRuns(t) == WsSplit(t) + [""]
    ensures !IsSpace(t[|t| - 1]) ==> SplitRuns(t) == WsSplit(t)
    decreases |t|
  {
    var k := TokenLength(t);
    if k == |t| {
      FieldsOfToken(t);
    } else {
      var n := SpaceLength(t[k..]);
      var v := t[k..][n..];
      if v == [] {
        FieldsOfTokenSpace(t, k, n);
      } else {
        SplitRunsFields(v);
        FieldsOfTokenMore(t, k, n, v);
      }
    }
  }

  /** `sep.join(xs)`. */
  function Join(sep: string, xs: seq<string>): string {
    if |xs| == 0 then "" else if |xs| == 1 then xs[0] else xs[0] + sep + Join(sep, xs[1..])
  }

  /** A field followed by white space or nothing is one token. */
  lemma {:induction false} TokenLengthOfField(a: string, b: string)
    requires NoSpace(a) && (b == [] || IsSpace(b[0]))
    ensures TokenLength(a + b) == |a|
  {
    if a == [] {
      assert a + b == b;
    } else {
      assert (a + b)[0] == a[0];
      assert (a + b)[1..] == a[1..] + b;
      TokenLengthOfField(a[1..], b);
    }
  }

  /** Splitting a field followed by a separator yields the field, then the rest's fields. */
  lemma WsSplitField(a: string, b: string)
    requires a != [] && NoSpace(a) && (b == [] || IsSpace(b[0]))
    ensures WsSplit(a + b) == [a] + WsSplit(b)
  {
    assert (a + b)[0] == a[0];
    assert LStrip(a + b) == a + b;
    TokenLengthOfField(a, b);
    SliceAppend(a, b, |a|);
    assert a[..|a|] == a && a[|a|..] == [];
  }

  /** A lone field splits into itself. */
  lemma WsSplitSingle(x: string)
    requires x != [] && NoSpace(x)
    ensures WsSplit(x) == [x]
  {
    assert LStrip(x) == x;
    TokenLengthOfField(x, []);
    assert x + [] == x;
    assert x[..|x|] == x;
    assert WsSplit(x[|x|..]) == [];
  }

  /** A field before a blank and the rest of a join. */
  lemma WsSplitJoinStep(x: string, rest: string)
    requires x != [] && NoSpace(x)
    ensures WsSplit(x + " " + rest) == [x] + WsSplit(rest)
  {
    assert x + " " + rest == x + (" " + rest);
    assert (" " + rest)[0] == ' ';
    WsSplitField(x, " " + rest);
    assert AllSpace(" ");
    WsSplitLeading(" ", rest);
  }

  lemma WsSplitJoinCons(xs: seq<string>)
    requires |xs| > 1 && xs[0] != [] && NoSpace(xs[0])
    requires WsSplit(Join(" ", xs[1..])) == xs[1..]
    ensures WsSplit(Join(" ", xs)) == xs
  {
    WsSplitJoinStep(xs[0], Join(" ", xs[1..]));
    assert xs == [xs[0]] + xs[1..];
  }

  /** `sep.join(xs).split()` gives back `xs` when the fields are non-empty and hold no white space. */
  lemma {:induction false} WsSplitJoin(xs: seq<string>)
    requires forall k :: 0 <= k < |xs| ==> xs[k] != [] && NoSpace(xs[k])
    ensures WsSplit(Join(" ", xs)) == xs
  {
    if |xs| == 1 {
      WsSplitSingle(xs[0]);
      assert xs == [xs[0]];
    } else if |xs| > 1 {
      WsSplitJoin(xs[1..]);
      WsSplitJoinCons(xs);
    }
  }

  /** Joining with a blank adds only white space: the visible text is the fields' text. */
  lemma {:induction false} VisibleJoin(xs: seq<string>)
    requires forall k :: 0 <= k < |xs| ==> NoSpace(xs[k])
    ensures Visible(Join(" ", xs)) == Concat(xs)
  {
    if |xs| == 1 {
      VisibleOfNoSpace(xs[0]);
      assert Concat(xs) == xs[0] + Concat([]);
      assert xs[0] + [] == xs[0];
    } else if |xs| > 1 {
      var rest := Join(" ", xs[1..]);
      VisibleJoin(xs[1..]);
      VisibleAppend(xs[0] + " ", rest);
      VisibleAppend(xs[0], " ");
      VisibleOfNoSpace(xs[0]);
      assert Visible(" ") == [];
    }
  }

  /** `[i for i in names if not exclude(i)]`: the names the matcher lets through, in order. */
  function Kept(names: seq<string>, exclude: string -> bool): (r: seq<string>)
    ensures |r| <= |names|
  {
    if names == [] then []
    else (if exclude(names[0]) then [] else [names[0]]) + Kept(names[1..], exclude)
  }

  /** The names kept are exactly the names given that the matcher does not exclude. */
  lemma {:induction false} KeptExactly(names: seq<string>, exclude: string -> bool, n: string)
    ensures n in Kept(names, exclude) <==> n in names && !exclude(n)
  {
    if names != [] {
      KeptExactly(names[1..], exclude, n);
      assert names == [names[0]] + names[1..];
    }
  }

  /** With nothing excluded, every name is kept, in order. */
  lemma {:induction false} KeptAll(names: seq<string>, exclude: string -> bool)
    requires forall n :: n in names ==> !exclude(n)
    ensures Kept(names, exclude) == names
  {
    if names != [] {
      assert names[0] in names;
      KeptAll(names[1..], exclude);
      assert names == [names[0]] + names[1..];
    }
  }

  /** `s.startswith(p)`. */
  predicate StartsWith(s: string, p: string) {
    |p| <= |s| && s[..|p|] == p
  }

  /** `s.endswith(p)`. */
  predicate EndsWith(s: string, p: string) {
    |p| <= |s| && s[|s| - |p|..] == p
  }

  function Digit(d: nat): char
    requires d < 10
  {
    "0123456789"[d]
  }

  function NatToString(n: nat): string
    decreases n
  {
    if n < 10 then [Digit(n)] else NatToString(n / 10) + [Digit(n % 10)]
  }

  /** `'%d' % n`. */
  function IntToString(n: int): string {
    if n < 0 then "-" + NatToString(-n) else NatToString(n)
  }
}
