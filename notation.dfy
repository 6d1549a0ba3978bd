/** The lexical layer of the dice notation. The source matches its notation
    with regular expressions (`\d+d\d+`, `[+-]\d+`, splitting on separators);
    here every pattern is a scanner over the character positions of the
    string. A search tries the positions from left to right and takes the
    first position where the pattern matches, and a digit run is always
    taken whole, as the leftmost-first, greedy regex engine does. */
module Notation {
  import opened Combat

  predicate IsDigit(c: char)
  {
    '0' <= c <= '9'
  }

  predicate AllDigits(s: string)
  {
    forall i :: 0 <= i < |s| ==> IsDigit(s[i])
  }

  predicate IsSign(c: char)
  {
    c == '+' || c == '-'
  }

  function DigitValue(c: char): nat
    requires IsDigit(c)
  {
    (c as int) - ('0' as int)
  }

  function DigitChar(d: nat): (c: char)
    requires d < 10
    ensures IsDigit(c) && DigitValue(c) == d
  {
    ('0' as int + d) as char
  }

  /** End of the maximal run of decimal digits starting at `i`. */
  function RunEnd(s: string, i: nat): (j: nat)
    requires i <= |s|
    ensures i <= j <= |s|
    ensures forall k :: i <= k < j ==> IsDigit(s[k])
    ensures j == |s| || !IsDigit(s[j])
    decreases |s| - i
  {
    if i < |s| && IsDigit(s[i]) then RunEnd(s, i + 1) else i
  }

  /** A run of digits that ends at a non-digit (or at the end) is the
      maximal run. */
  lemma RunEndIs(s: string, i: nat, j: nat)
    requires i <= j <= |s|
    requires forall k :: i <= k < j ==> IsDigit(s[k])
    requires j == |s| || !IsDigit(s[j])
    ensures RunEnd(s, i) == j
  {
  }

  /** Decimal value of a digit string, most significant digit first. */
  function DigitsValue(ds: string): nat
    requires AllDigits(ds)
  {
    if |ds| == 0 then 0 else 10 * DigitsValue(ds[..|ds| - 1]) + DigitValue(ds[|ds| - 1])
  }

  /** Decimal rendering of a natural number; reading it back gives `n`. */
  function NatStr(n: nat): (s: string)
    ensures |s| >= 1 && AllDigits(s)
    ensures DigitsValue(s) == n
  {
    if n < 10 then [DigitChar(n)]
    else
      var s := NatStr(n / 10) + [DigitChar(n % 10)];
      assert s[..|s| - 1] == NatStr(n / 10);
      s
  }

  // ---------------------------------------------------------------------
  // `\d+d\d+`

  /** Positions of a `\d+d\d+` match: the count digits are
      `s[start..sep]`, `s[sep]` is the `d`, and the size digits are
      `s[sep + 1..stop]`. */
  datatype DieSpan = DieSpan(start: nat, sep: nat, stop: nat)

  predicate ValidSpan(s: string, m: DieSpan)
  {
    && m.start < m.sep < m.stop <= |s|
    && s[m.sep] == 'd'
    && AllDigits(s[m.start..m.sep])
    && AllDigits(s[m.sep + 1..m.stop])
    && m.sep + 1 < m.stop
  }

  /** The `\d+d\d+` match that starts at `p`, if any. */
  function PlainDieAt(s: string, p: nat): (r: Option<DieSpan>)
    requires p <= |s|
    ensures r.Some? ==> ValidSpan(s, r.value) && r.value.start == p
    ensures r.Some? ==> r.value.stop == |s| || !IsDigit(s[r.value.stop])
  {
    var j := RunEnd(s, p);
    if j == p || j + 1 >= |s| || s[j] != 'd' || !IsDigit(s[j + 1]) then None
    else Some(DieSpan(p, j, RunEnd(s, j + 1)))
  }

  /** The leftmost `\d+d\d+` match at or after `p` (regex `find`). */
  function FirstPlainDie(s: string, p: nat): (r: Option<DieSpan>)
    requires p <= |s|
    ensures r.Some? ==> ValidSpan(s, r.value) && p <= r.value.start
    ensures r.Some? ==> PlainDieAt(s, r.value.start) == r
    ensures r.Some? ==> forall q :: p <= q < r.value.start ==> PlainDieAt(s, q).None?
    ensures r.None? ==> forall q :: p <= q <= |s| ==> PlainDieAt(s, q).None?
    decreases |s| - p
  {
    if p == |s| then None
    else if PlainDieAt(s, p).Some? then PlainDieAt(s, p)
    else FirstPlainDie(s, p + 1)
  }

  /** Every successive non-overlapping `\d+d\d+` match from `p` on (regex
      `find_iter`). */
  function PlainDieSpans(s: string, p: nat): (ms: seq<DieSpan>)
    requires p <= |s|
    ensures forall i :: 0 <= i < |ms| ==>
              ValidSpan(s, ms[i]) && p <= ms[i].start && PlainDieAt(s, ms[i].start) == Some(ms[i])
    ensures forall i, j :: 0 <= i < j < |ms| ==> ms[i].stop <= ms[j].start
    decreases |s| - p
  {
    match FirstPlainDie(s, p)
    case None => []
    case Some(m) => [m] + PlainDieSpans(s, m.stop)
  }

  /** No `\d+d\d+` match is skipped: every position from `p` on where one
      starts lies inside one of the spans found. */
  lemma {:induction false} PlainDieSpansComplete(s: string, p: nat, q: nat)
    requires p <= q <= |s| && PlainDieAt(s, q).Some?
    ensures exists i :: 0 <= i < |PlainDieSpans(s, p)| && PlainDieSpans(s, p)[i].start <= q < PlainDieSpans(s, p)[i].stop
    decreases |s| - p
  {
    var f := FirstPlainDie(s, p);
    if f.None? {
      assert false;
    } else {
      var m := f.value;
      var rest := PlainDieSpans(s, m.stop);
      assert PlainDieSpans(s, p) == [m] + rest;
      if q < m.start {
        assert false;
      } else if q < m.stop {
        assert PlainDieSpans(s, p)[0] == m;
      } else {
        PlainDieSpansComplete(s, m.stop, q);
        var i :| 0 <= i < |rest| && rest[i].start <= q < rest[i].stop;
        assert PlainDieSpans(s, p)[i + 1] == rest[i];
      }
    }
  }

  function SpanCount(s: string, m: DieSpan): nat
    requires ValidSpan(s, m)
  {
    DigitsValue(s[m.start..m.sep])
  }

  function SpanSize(s: string, m: DieSpan): nat
    requires ValidSpan(s, m)
  {
    DigitsValue(s[m.sep + 1..m.stop])
  }

  // ---------------------------------------------------------------------
  // `(\+\d+)|(-\d+)`

  /** A `[+-]\d+` token: a sign followed by at least one digit. */
  predicate IsSignedToken(t: string)
  {
    |t| >= 2 && IsSign(t[0]) && AllDigits(t[1..])
  }

  /** The integer a signed token denotes. */
  function SignedValue(t: string): int
    requires IsSignedToken(t)
  {
    var n: int := DigitsValue(t[1..]);
    if t[0] == '-' then -n else n
  }

  predicate SignedAt(s: string, p: nat)
  {
    p + 1 < |s| && IsSign(s[p]) && IsDigit(s[p + 1])
  }

  /** Every successive `[+-]\d+` match from `p` on, as the matched text. */
  function SignedTokens(s: string, p: nat): (ts: seq<string>)
    requires p <= |s|
    ensures forall i :: 0 <= i < |ts| ==> IsSignedToken(ts[i])
    decreases |s| - p
  {
    if p == |s| then []
    else if SignedAt(s, p) then
      var e := RunEnd(s, p + 1);
      SignedTokenAt(s, p);
      [s[p..e]] + SignedTokens(s, e)
    else SignedTokens(s, p + 1)
  }

  /** A sign followed by a digit starts a signed token that runs to the end
      of the digits. */
  lemma SignedTokenAt(s: string, p: nat)
    requires SignedAt(s, p)
    ensures IsSignedToken(s[p..RunEnd(s, p + 1)])
  {
    var e := RunEnd(s, p + 1);
    assert s[p..e][1..] == s[p + 1..e];
  }

  /** The values of the signed tokens, in order. */
  function SignedValues(ts: seq<string>): (vs: seq<int>)
    requires forall i :: 0 <= i < |ts| ==> IsSignedToken(ts[i])
    ensures |vs| == |ts|
    ensures forall i :: 0 <= i < |ts| ==> vs[i] == SignedValue(ts[i])
  {
    if |ts| == 0 then [] else SignedValues(ts[..|ts| - 1]) + [SignedValue(ts[|ts| - 1])]
  }

  /** Decimal rendering of a signed modifier, `+N` or `-N`. */
  function SignedStr(v: int): (t: string)
    ensures IsSignedToken(t) && SignedValue(t) == v
  {
    var t := (if v < 0 then "-" else "+") + NatStr(if v < 0 then -v else v);
    assert t[1..] == NatStr(if v < 0 then -v else v);
    t
  }

  /** Digit runs are found the same way in a suffix. */
  lemma {:induction false} RunEndShift(x: string, y: string, q: nat)
    requires |x| <= q <= |x| + |y|
    ensures RunEnd(x + y, q) == |x| + RunEnd(y, q - |x|)
    decreases |x| + |y| - q
  {
    if q < |x| + |y| && IsDigit((x + y)[q]) {
      RunEndShift(x, y, q + 1);
    }
  }

  /** Signed tokens are found the same way in a suffix. */
  lemma {:induction false} SignedTokensShift(x: string, y: string, p: nat)
    requires |x| <= p <= |x| + |y|
    ensures SignedTokens(x + y, p) == SignedTokens(y, p - |x|)
    decreases |x| + |y| - p
  {
    if p < |x| + |y| {
      if SignedAt(x + y, p) {
        RunEndShift(x, y, p + 1);
        var e := RunEnd(x + y, p + 1);
        SignedTokensShift(x, y, e);
        assert (x + y)[p..e] == y[p - |x|..e - |x|];
      } else {
        SignedTokensShift(x, y, p + 1);
      }
    }
  }

  predicate SignFree(x: string)
  {
    forall k :: 0 <= k < |x| ==> !IsSign(x[k])
  }

  /** A prefix without signs contributes no signed token. */
  lemma {:induction false} SignFreePrefix(x: string, y: string, p: nat)
    requires p <= |x| && SignFree(x)
    ensures SignedTokens(x + y, p) == SignedTokens(y, 0)
    decreases |x| - p
  {
    if p == |x| {
      SignedTokensShift(x, y, p);
    } else {
      assert !SignedAt(x + y, p) by {
        assert (x + y)[p] == x[p];
      }
      SignFreePrefix(x, y, p + 1);
    }
  }

  /** A text without signs has no signed token. */
  lemma NoSignNoTokens(x: string)
    ensures SignFree(x) ==> SignedTokens(x, 0) == []
  {
    if SignFree(x) {
      SignFreePrefix(x, "", 0);
      assert x + "" == x;
    }
  }

  /** The modifiers written one after the other, each as `+N` or `-N`. */
  function ModifiersText(vs: seq<int>): string
  {
    if |vs| == 0 then "" else SignedStr(vs[0]) + ModifiersText(vs[1..])
  }

  /** Reading back written modifiers yields one token per value, in order. */
  lemma {:induction false} ModifiersTextTokens(vs: seq<int>)
    ensures |SignedTokens(ModifiersText(vs), 0)| == |vs|
    ensures forall i :: 0 <= i < |vs| ==> SignedTokens(ModifiersText(vs), 0)[i] == SignedStr(vs[i])
    ensures |ModifiersText(vs)| == 0 || IsSign(ModifiersText(vs)[0])
  {
    if |vs| > 0 {
      var t := SignedStr(vs[0]);
      var rest := ModifiersText(vs[1..]);
      ModifiersTextTokens(vs[1..]);
      assert ModifiersText(vs) == t + rest;
      LeadingToken(t, rest);
      TokensCons(vs, SignedTokens(rest, 0));
    }
  }

  /** The token of the first value followed by the tokens of the others. */
  lemma TokensCons(vs: seq<int>, ts: seq<string>)
    requires |vs| > 0 && |ts| == |vs| - 1
    requires forall i :: 0 <= i < |ts| ==> ts[i] == SignedStr(vs[1..][i])
    ensures |[SignedStr(vs[0])] + ts| == |vs|
    ensures forall i :: 0 <= i < |vs| ==> ([SignedStr(vs[0])] + ts)[i] == SignedStr(vs[i])
  {
    assert forall i :: 1 <= i < |vs| ==> ([SignedStr(vs[0])] + ts)[i] == ts[i - 1];
  }

  /** A signed token followed by nothing or by another sign is read whole. */
  lemma LeadingToken(t: string, rest: string)
    requires IsSignedToken(t)
    requires |rest| == 0 || IsSign(rest[0])
    ensures SignedTokens(t + rest, 0) == [t] + SignedTokens(rest, 0)
  {
    var s := t + rest;
    assert SignedAt(s, 0) by {
      assert s[0] == t[0] && s[1] == t[1];
    }
    assert RunEnd(s, 1) == |t| by {
      assert forall k :: 1 <= k < |t| ==> s[k] == t[k];
      assert |t| == |s| || s[|t|] == rest[0];
      RunEndIs(s, 1, |t|);
    }
    SignedTokensShift(t, rest, |t|);
    assert s[0..|t|] == t;
  }

  // ---------------------------------------------------------------------
  // `str::split`

  /** The pieces between separator characters, as `str::split` yields them:
      always at least one piece, and no piece holds a separator. */
  function Split(s: string, seps: set<char>): (parts: seq<string>)
    ensures |parts| >= 1
    ensures forall i, k :: 0 <= i < |parts| && 0 <= k < |parts[i]| ==> parts[i][k] !in seps
    decreases |s|
  {
    if |s| == 0 then [""]
    else
      var rest := Split(s[1..], seps);
      if s[0] in seps then [""] + rest
      else [[s[0]] + rest[0]] + rest[1..]
  }

  /** Number of separator characters in `s`. */
  function CountSeps(s: string, seps: set<char>): nat
  {
    if |s| == 0 then 0 else (if s[0] in seps then 1 else 0) + CountSeps(s[1..], seps)
  }

  /** Splitting yields one piece more than there are separators. */
  lemma {:induction false} SplitLength(s: string, seps: set<char>)
    ensures |Split(s, seps)| == CountSeps(s, seps) + 1
    decreases |s|
  {
    if |s| > 0 {
      SplitLength(s[1..], seps);
    }
  }

  /** The pieces glued back together with `c` between them. */
  function Join(parts: seq<string>, c: char): string
    requires |parts| >= 1
  {
    if |parts| == 1 then parts[0] else parts[0] + [c] + Join(parts[1..], c)
  }

  predicate Free(x: string, c: char)
  {
    forall k :: 0 <= k < |x| ==> x[k] != c
  }

  lemma {:induction false} SplitPiece(x: string, y: string, c: char)
    requires Free(x, c)
    ensures Split(x + [c] + y, {c}) == [x] + Split(y, {c})
    ensures Split(x, {c}) == [x]
    decreases |x|
  {
    if |x| == 0 {
      assert x + [c] + y == [c] + y;
      assert ([c] + y)[1..] == y;
    } else {
      SplitPiece(x[1..], y, c);
      assert (x + [c] + y)[1..] == x[1..] + [c] + y;
      assert [x[0]] + x[1..] == x;
    }
  }

  /** Splitting undoes joining when no piece holds the separator. */
  lemma {:induction false} SplitJoin(parts: seq<string>, c: char)
    requires |parts| >= 1
    requires forall i :: 0 <= i < |parts| ==> Free(parts[i], c)
    ensures Split(Join(parts, c), {c}) == parts
  {
    if |parts| == 1 {
      SplitPiece(parts[0], "", c);
    } else {
      SplitJoin(parts[1..], c);
      SplitPiece(parts[0], Join(parts[1..], c), c);
      assert [parts[0]] + parts[1..] == parts;
    }
  }

  /** Joining undoes splitting. */
  lemma {:induction false} JoinSplit(s: string, c: char)
    ensures Join(Split(s, {c}), c) == s
    decreases |s|
  {
    if |s| > 0 {
      var rest := Split(s[1..], {c});
      JoinSplit(s[1..], c);
      if s[0] == c {
        assert [""] + rest == [""] + rest;
        assert ([""] + rest)[1..] == rest;
        assert s == [c] + s[1..];
      } else {
        var parts := [[s[0]] + rest[0]] + rest[1..];
        if |rest| == 1 {
          assert s == [s[0]] + s[1..];
        } else {
          assert parts[1..] == rest[1..];
          assert Join(rest, c) == rest[0] + [c] + Join(rest[1..], c);
          assert s == [s[0]] + s[1..];
        }
      }
    }
  }
}
