/** The dice-context parser, an earlier generation of the notation reader.
    A notation string is a comma-separated list of fragments. Each fragment
    contributes at most one dice collection: `NdS` (a regular die) or, when
    there is none, `NfS~F` (a fatal die). A reroll letter (`AA`, `A` or
    `D`) anywhere in the fragment sets the reroll mode. The static modifier
    is the signed sum of every `+N`/`-N` of the whole string. */
module DiceContexts {
  import opened Combat
  import opened Notation
  import StaticModifiers
  import RollCollections

  datatype Reroll = Standard | Advantage | DoubleAdvantage | Disadvantage

  /** `count` dice of `size` faces with a reroll mode and, for a fatal die,
      the size it switches to. */
  datatype DiceCollection = DiceCollection(count: int, size: int, reroll: Reroll, fatal: Option<int>)

  datatype DiceContext = DiceContext(dice: seq<DiceCollection>, staticModifier: int)

  /** Builds a context holding exactly the collections and modifier given. */
  function New(dice: seq<DiceCollection>, staticModifier: int): (ctx: DiceContext)
    ensures ctx.dice == dice && ctx.staticModifier == staticModifier
  {
    DiceContext(dice, staticModifier)
  }

  // ---------------------------------------------------------------------
  // `\d+d\d+`

  /** Count and size of the first regular die of the text; None exactly when
      no position of the text starts an `NdS`. */
  function ParseRegularDie(notation: string): (r: Option<(nat, nat)>)
    ensures r.None? <==> forall q :: 0 <= q <= |notation| ==> PlainDieAt(notation, q).None?
  {
    match FirstPlainDie(notation, 0)
    case None => None
    case Some(m) => Some((SpanCount(notation, m), SpanSize(notation, m)))
  }

  /** A written `NdS` followed by anything but a digit reads back as
      `(N, S)`. */
  lemma RegularDieRoundTrip(n: nat, z: nat, tail: string)
    requires |tail| == 0 || !IsDigit(tail[0])
    ensures ParseRegularDie(NatStr(n) + "d" + NatStr(z) + tail) == Some((n, z))
  {
    RollCollections.CoreRead(NatStr(n) + "d" + NatStr(z) + tail, NatStr(n), NatStr(z), tail);
  }

  // ---------------------------------------------------------------------
  // `\d+f\d+~\d+`

  /** The number whose digit run starts at `p`, and where the run ends;
      None when no digit is at `p`. */
  function NumberAt(s: string, p: nat): (r: Option<(nat, nat)>)
    requires p <= |s|
    ensures r.Some? ==> p < r.value.1 <= |s| && AllDigits(s[p..r.value.1])
    ensures r.Some? ==> r.value.0 == DigitsValue(s[p..r.value.1])
    ensures r.Some? ==> r.value.1 == |s| || !IsDigit(s[r.value.1])
  {
    var j := RunEnd(s, p);
    if j == p then None else Some((DigitsValue(s[p..j]), j))
  }

  /** A number followed by the character `ch`: the number and the position
      after `ch`. */
  function NumberThen(s: string, p: nat, ch: char): (r: Option<(nat, nat)>)
    requires p <= |s|
    ensures r.Some? ==> p < r.value.1 <= |s|
  {
    match NumberAt(s, p)
    case None => None
    case Some((v, j)) => if j < |s| && s[j] == ch then Some((v, j + 1)) else None
  }

  /** The `NfS~F` match that starts at `p`, as its three values. */
  function FatalDieAt(s: string, p: nat): (r: Option<(nat, nat, nat)>)
    requires p <= |s|
  {
    match NumberThen(s, p, 'f')
    case None => None
    case Some((count, i)) => FatalSizeAt(s, i, count)
  }

  /** The `S~F` rest of a fatal die whose count has been read. */
  function FatalSizeAt(s: string, i: nat, count: nat): (r: Option<(nat, nat, nat)>)
    requires i <= |s|
  {
    match NumberThen(s, i, '~')
    case None => None
    case Some((size, j)) => FatalValueAt(s, j, count, size)
  }

  /** The `F` rest of a fatal die whose count and size have been read. */
  function FatalValueAt(s: string, j: nat, count: nat, size: nat): (r: Option<(nat, nat, nat)>)
    requires j <= |s|
  {
    match NumberAt(s, j)
    case None => None
    case Some((fatal, _)) => Some((count, size, fatal))
  }

  /** Where the leftmost `NfS~F` match at or after `p` starts, or `|s|`
      when there is none. */
  function FatalPos(s: string, p: nat): (q: nat)
    requires p <= |s|
    ensures p <= q <= |s|
    ensures forall q' :: p <= q' < q ==> FatalDieAt(s, q').None?
    ensures q < |s| ==> FatalDieAt(s, q).Some?
    decreases |s| - p
  {
    if p == |s| || FatalDieAt(s, p).Some? then p else FatalPos(s, p + 1)
  }

  /** Count, size and fatal size of the first fatal die of the text. */
  function ParseFatalDie(notation: string): (r: Option<(nat, nat, nat)>)
    ensures r.None? <==> forall q :: 0 <= q <= |notation| ==> FatalDieAt(notation, q).None?
    ensures r.Some? ==> FatalPos(notation, 0) < |notation| && r == FatalDieAt(notation, FatalPos(notation, 0))
  {
    FatalDieAt(notation, FatalPos(notation, 0))
  }

  /** A count, a size and a fatal size read in turn make a fatal die. */
  lemma FatalParts(s: string, p: nat, count: nat, i: nat, size: nat, j: nat, fatal: nat, k: nat)
    requires p <= |s|
    requires NumberThen(s, p, 'f') == Some((count, i))
    requires NumberThen(s, i, '~') == Some((size, j))
    requires NumberAt(s, j) == Some((fatal, k))
    ensures FatalDieAt(s, p) == Some((count, size, fatal))
  {
  }

  /** A fatal die at the start of the text is the first one. */
  lemma FatalAtStart(s: string, v: (nat, nat, nat))
    requires FatalDieAt(s, 0) == Some(v)
    ensures ParseFatalDie(s) == Some(v)
  {
  }

  /** A written `NfS~F` followed by anything but a digit reads back as
      `(N, S, F)`. */
  lemma FatalDieRoundTrip(n: nat, z: nat, f: nat, tail: string)
    requires |tail| == 0 || !IsDigit(tail[0])
    ensures ParseFatalDie(NatStr(n) + "f" + NatStr(z) + "~" + NatStr(f) + tail) == Some((n, z, f))
  {
    var s := NatStr(n) + "f" + NatStr(z) + "~" + NatStr(f) + tail;
    FatalWrittenRead(s, NatStr(n), NatStr(z), NatStr(f), tail);
    FatalAtStart(s, (n, z, f));
  }

  /** The same over any three digit strings, as the match at the start. */
  lemma FatalWrittenRead(s: string, cs: string, zs: string, fs: string, tail: string)
    requires |cs| >= 1 && AllDigits(cs) && |zs| >= 1 && AllDigits(zs) && |fs| >= 1 && AllDigits(fs)
    requires |tail| == 0 || !IsDigit(tail[0])
    requires s == cs + "f" + zs + "~" + fs + tail
    ensures FatalDieAt(s, 0) == Some((DigitsValue(cs), DigitsValue(zs), DigitsValue(fs)))
  {
    var u := fs + tail;
    var t := zs + ("~" + u);
    FatalTextNesting(cs, zs, fs, tail);
    CountRead(s, cs, t);
    SizeRead(t, zs, u, DigitsValue(cs));
    ValueRead(u, fs, tail, DigitsValue(cs), DigitsValue(zs));
  }

  /** The written text, grouped from the right. */
  lemma FatalTextNesting(cs: string, zs: string, fs: string, tail: string)
    ensures cs + "f" + zs + "~" + fs + tail == cs + ("f" + (zs + ("~" + (fs + tail))))
  {
  }

  /** After a written count and `f`, the match is what the rest reads as. */
  lemma CountRead(s: string, cs: string, t: string)
    requires s == cs + ("f" + t) && |cs| >= 1 && AllDigits(cs)
    ensures FatalDieAt(s, 0) == FatalSizeAt(t, 0, DigitsValue(cs))
  {
    NumberThenPrefix(s, cs, 'f', t);
    assert s == (cs + "f") + t;
    FatalSizeShift(cs + "f", t, 0, DigitsValue(cs));
  }

  /** After a written size and `~`, the rest is what the fatal size reads
      as. */
  lemma SizeRead(t: string, zs: string, u: string, count: nat)
    requires t == zs + ("~" + u) && |zs| >= 1 && AllDigits(zs)
    ensures FatalSizeAt(t, 0, count) == FatalValueAt(u, 0, count, DigitsValue(zs))
  {
    NumberThenPrefix(t, zs, '~', u);
    assert t == (zs + "~") + u;
    FatalValueShift(zs + "~", u, 0, count, DigitsValue(zs));
  }

  /** A written fatal size followed by no digit completes the match. */
  lemma ValueRead(u: string, fs: string, tail: string, count: nat, size: nat)
    requires u == fs + tail && |fs| >= 1 && AllDigits(fs)
    requires |tail| == 0 || !IsDigit(tail[0])
    ensures FatalValueAt(u, 0, count, size) == Some((count, size, DigitsValue(fs)))
  {
    NumberAtPrefix(u, fs, tail);
  }

  /** A text that starts with the digits `d` and then `ch` reads them as
      its first number. */
  lemma NumberThenPrefix(s: string, d: string, ch: char, rest: string)
    requires s == d + ([ch] + rest) && |d| >= 1 && AllDigits(d) && !IsDigit(ch)
    ensures NumberThen(s, 0, ch) == Some((DigitsValue(d), |d| + 1))
  {
    NumberAtPrefix(s, d, [ch] + rest);
  }

  /** A text that starts with the digits `d` and then no digit reads them as
      its first number. */
  lemma NumberAtPrefix(s: string, d: string, rest: string)
    requires s == d + rest && |d| >= 1 && AllDigits(d)
    requires |rest| == 0 || !IsDigit(rest[0])
    ensures NumberAt(s, 0) == Some((DigitsValue(d), |d|))
  {
    forall k | 0 <= k < |d|
      ensures IsDigit(s[k])
    {
      assert s[k] == d[k];
    }
    assert |d| == |s| || s[|d|] == rest[0];
    RunEndIs(s, 0, |d|);
    assert s[0..|d|] == d;
  }

  /** A digit run ends at the same place, shifted, after a prefix. */
  lemma RunEndShift(x: string, t: string, i: nat)
    requires i <= |t|
    ensures RunEnd(x + t, |x| + i) == |x| + RunEnd(t, i)
    decreases |t| - i
  {
    if i < |t| {
      assert (x + t)[|x| + i] == t[i];
      RunEndShift(x, t, i + 1);
    }
  }

  /** A number reads the same after a prefix, at a shifted position. */
  lemma NumberAtShift(x: string, t: string, i: nat)
    requires i <= |t|
    ensures NumberAt(t, i).None? ==> NumberAt(x + t, |x| + i).None?
    ensures NumberAt(t, i).Some? ==>
              NumberAt(x + t, |x| + i) == Some((NumberAt(t, i).value.0, |x| + NumberAt(t, i).value.1))
  {
    RunEndShift(x, t, i);
    var e := RunEnd(t, i);
    assert (x + t)[|x| + i..|x| + e] == t[i..e];
  }

  /** A number and its following character read the same after a prefix. */
  lemma NumberThenShift(x: string, t: string, i: nat, ch: char)
    requires i <= |t|
    ensures NumberThen(t, i, ch).None? ==> NumberThen(x + t, |x| + i, ch).None?
    ensures NumberThen(t, i, ch).Some? ==>
              NumberThen(x + t, |x| + i, ch) == Some((NumberThen(t, i, ch).value.0, |x| + NumberThen(t, i, ch).value.1))
  {
    NumberAtShift(x, t, i);
    if NumberAt(t, i).Some? {
      var e := NumberAt(t, i).value.1;
      if e < |t| {
        assert (x + t)[|x| + e] == t[e];
      }
    }
  }

  /** The fatal size reads the same after a prefix. */
  lemma FatalValueShift(x: string, t: string, j: nat, count: nat, size: nat)
    requires j <= |t|
    ensures FatalValueAt(x + t, |x| + j, count, size) == FatalValueAt(t, j, count, size)
  {
    NumberAtShift(x, t, j);
  }

  /** The `S~F` rest reads the same after a prefix. */
  lemma FatalSizeShift(x: string, t: string, i: nat, count: nat)
    requires i <= |t|
    ensures FatalSizeAt(x + t, |x| + i, count) == FatalSizeAt(t, i, count)
  {
    NumberThenShift(x, t, i, '~');
    if NumberThen(t, i, '~').Some? {
      var (size, j) := NumberThen(t, i, '~').value;
      FatalValueShift(x, t, j, count, size);
    }
  }

  // ---------------------------------------------------------------------
  // `(\+\d+)|(-\d+)`

  /** The signed sum of every `+N`/`-N` token of the text; a text with no
      sign has static modifier 0. */
  function ParseStaticElements(notation: string): (total: int)
    ensures SignFree(notation) ==> total == 0
  {
    NoSignNoTokens(notation);
    Sum(SignedValues(SignedTokens(notation, 0)))
  }

  /** The static modifier is the total of the modifiers the current parser
      reads from the same text, under either rule set. */
  lemma StaticMatchesModifiers(notation: string, ruleMode: Ruleset)
    ensures ParseStaticElements(notation)
            == Sum(StaticModifiers.Values(RollCollections.NotationModifiers(notation, ruleMode)))
  {
    var ts := SignedTokens(notation, 0);
    assert StaticModifiers.Values(RollCollections.TokenModifiers(ts, ruleMode)) == SignedValues(ts);
  }

  /** Written modifiers read back as their sum. */
  lemma StaticRoundTrip(vs: seq<int>)
    ensures ParseStaticElements(ModifiersText(vs)) == Sum(vs)
  {
    ModifiersTextTokens(vs);
    assert SignedValues(SignedTokens(ModifiersText(vs), 0)) == vs;
  }

  // ---------------------------------------------------------------------
  // `AA|A|D`

  predicate IsRerollLetter(c: char)
  {
    c == 'A' || c == 'D'
  }

  /** The reroll mode a match at `k` selects: `AA` is preferred to `A`. */
  function LetterReroll(s: string, k: nat): Reroll
    requires k < |s| && IsRerollLetter(s[k])
  {
    if s[k] == 'D' then Reroll.Disadvantage
    else if k + 1 < |s| && s[k + 1] == 'A' then Reroll.DoubleAdvantage
    else Reroll.Advantage
  }

  /** The reroll mode of the leftmost `AA|A|D` at or after `p`: Standard
      exactly when there is no letter, otherwise the mode the first letter
      selects. */
  function RerollFrom(s: string, p: nat): (r: Reroll)
    requires p <= |s|
    ensures r == Reroll.Standard <==> forall j :: p <= j < |s| ==> !IsRerollLetter(s[j])
    ensures forall k :: p <= k < |s| && IsRerollLetter(s[k]) && (forall j :: p <= j < k ==> !IsRerollLetter(s[j]))
                        ==> r == LetterReroll(s, k)
    decreases |s| - p
  {
    if p == |s| then Reroll.Standard
    else if s[p] == 'A' then (if p + 1 < |s| && s[p + 1] == 'A' then Reroll.DoubleAdvantage else Reroll.Advantage)
    else if s[p] == 'D' then Reroll.Disadvantage
    else RerollFrom(s, p + 1)
  }

  /** The reroll mode of the text: Standard exactly when it holds no `A`
      or `D`, otherwise the mode its first such letter selects. */
  function ParseRerollElements(notation: string): (r: Reroll)
    ensures r == Reroll.Standard <==> forall j :: 0 <= j < |notation| ==> !IsRerollLetter(notation[j])
    ensures forall k :: 0 <= k < |notation| && IsRerollLetter(notation[k]) && (forall j :: 0 <= j < k ==> !IsRerollLetter(notation[j]))
                        ==> r == LetterReroll(notation, k)
  {
    RerollFrom(notation, 0)
  }

  // ---------------------------------------------------------------------
  // Whole notation

  /** The collection one fragment contributes: a regular die when there is
      one, else a fatal die, else nothing; either way with the fragment's
      reroll mode. */
  function FragmentCollection(fragment: string): (c: Option<DiceCollection>)
    ensures c.Some? <==> ParseRegularDie(fragment).Some? || ParseFatalDie(fragment).Some?
    ensures c.Some? ==> c.value.reroll == ParseRerollElements(fragment)
    ensures c.Some? ==> (c.value.fatal.None? <==> ParseRegularDie(fragment).Some?)
  {
    match ParseRegularDie(fragment)
    case Some((n, z)) => Some(DiceCollection(n, z, ParseRerollElements(fragment), None))
    case None =>
      match ParseFatalDie(fragment)
      case Some((n, z, f)) => Some(DiceCollection(n, z, ParseRerollElements(fragment), Some(f)))
      case None => None
  }

  /** The collections of the fragments, in fragment order. */
  function FragmentsCollections(fragments: seq<string>): (cs: seq<DiceCollection>)
    ensures |cs| <= |fragments|
  {
    if |fragments| == 0 then []
    else
      var last := FragmentCollection(fragments[|fragments| - 1]);
      FragmentsCollections(fragments[..|fragments| - 1]) + (if last.Some? then [last.value] else [])
  }

  function NotationCollections(notation: string): seq<DiceCollection>
  {
    FragmentsCollections(Split(notation, {','}))
  }

  /** Parses a notation string: the modifier from the whole text, then one
      collection per comma fragment that holds a die. */
  method ParseDiceString(notation: string) returns (ctx: DiceContext)
    ensures ctx.dice == NotationCollections(notation)
    ensures ctx.staticModifier == ParseStaticElements(notation)
  {
    var diceVector: seq<DiceCollection> := [];
    var staticModifier := ParseStaticElements(notation);
    var fragments := Split(notation, {','});
    for i := 0 to |fragments|
      invariant diceVector == FragmentsCollections(fragments[..i])
    {
      var n := fragments[i];
      assert fragments[..i + 1][..i] == fragments[..i];
      var regular := ParseRegularDie(n);
      if regular.Some? {
        var reroll := ParseRerollElements(n);
        diceVector := diceVector + [DiceCollection(regular.value.0, regular.value.1, reroll, None)];
      } else {
        var fatal := ParseFatalDie(n);
        if fatal.Some? {
          var reroll := ParseRerollElements(n);
          diceVector := diceVector + [DiceCollection(fatal.value.0, fatal.value.1, reroll, Some(fatal.value.2))];
        }
      }
    }
    assert fragments[..|fragments|] == fragments;
    ctx := New(diceVector, staticModifier);
  }

  /** At most one collection per comma fragment. */
  lemma CollectionsBound(notation: string)
    ensures |NotationCollections(notation)| <= CountSeps(notation, {','}) + 1
  {
    SplitLength(notation, {','});
  }

  /** Collections keep fragment order: parsing two lists of fragments one
      after the other gives the first list's collections, then the
      second's. */
  lemma {:induction false} FragmentsCollectionsAppend(a: seq<string>, b: seq<string>)
    ensures FragmentsCollections(a + b) == FragmentsCollections(a) + FragmentsCollections(b)
    decreases |b|
  {
    if |b| > 0 {
      var b' := b[..|b| - 1];
      assert (a + b)[..|a + b| - 1] == a + b';
      assert (a + b)[|a + b| - 1] == b[|b| - 1];
      FragmentsCollectionsAppend(a, b');
    } else {
      assert a + b == a;
    }
  }
}

/** The documented cases of the dice-context parser. */
module DiceContextExamples {
  import opened Combat
  import opened Notation
  import opened DiceContexts

  lemma RegularDieExamples()
    ensures ParseRegularDie("1d8+5") == Some((1, 8))
    ensures ParseRegularDie("+5") == None
  {
    RegularDieRoundTrip(1, 8, "+5");
    assert NatStr(1) + "d" + NatStr(8) + "+5" == "1d8+5";
    assert PlainDieAt("+5", 0).None? && PlainDieAt("+5", 1).None? && PlainDieAt("+5", 2).None?;
  }

  lemma FatalDieExample()
    ensures ParseFatalDie("2f6~8+7") == Some((2, 6, 8))
  {
    FatalMatchExample();
    FatalAtStart("2f6~8+7", (2, 6, 8));
  }

  lemma FatalMatchExample()
    ensures FatalDieAt("2f6~8+7", 0) == Some((2, 6, 8))
  {
    FatalCountExample();
    FatalSizeExample();
    FatalValueExample();
    FatalParts("2f6~8+7", 0, 2, 2, 6, 4, 8, 5);
  }

  lemma FatalCountExample()
    ensures NumberThen("2f6~8+7", 0, 'f') == Some((2, 2))
  {
    assert RunEnd("2f6~8+7", 0) == 1;
  }

  lemma FatalSizeExample()
    ensures NumberThen("2f6~8+7", 2, '~') == Some((6, 4))
  {
    assert RunEnd("2f6~8+7", 2) == 3;
  }

  lemma FatalValueExample()
    ensures NumberAt("2f6~8+7", 4) == Some((8, 5))
  {
    assert RunEnd("2f6~8+7", 4) == 5;
  }

  lemma NoFatalDieExample()
    ensures ParseFatalDie("1d4") == None
  {
    assert FatalDieAt("1d4", 0) == None;
    assert FatalDieAt("1d4", 1) == None;
    assert FatalDieAt("1d4", 2) == None;
  }

  lemma StaticExamples()
    ensures ParseStaticElements("1d8+5") == 5
    ensures ParseStaticElements("1d8-5") == -5
    ensures ParseStaticElements("1d8+5-3") == 2
  {
    StaticPositive();
    StaticNegative();
    StaticMixed();
  }

  lemma StaticPositive()
    ensures ParseStaticElements("1d8+5") == 5
  {
    StaticText("1d8", [5], "1d8+5");
  }

  lemma StaticNegative()
    ensures ParseStaticElements("1d8-5") == -5
  {
    StaticText("1d8", [-5], "1d8-5");
  }

  lemma StaticMixed()
    ensures ParseStaticElements("1d8+5-3") == 2
  {
    assert ModifiersText([5, -3]) == "+5-3";
    StaticText("1d8", [5, -3], "1d8+5-3");
  }

  /** A sign-free prefix followed by written modifiers sums the modifiers. */
  lemma StaticText(x: string, vs: seq<int>, s: string)
    requires SignFree(x) && s == x + ModifiersText(vs)
    ensures ParseStaticElements(s) == Sum(vs)
  {
    SignFreePrefix(x, ModifiersText(vs), 0);
    StaticRoundTrip(vs);
  }

  lemma RerollExamples()
    ensures ParseRerollElements("1d4A") == Reroll.Advantage && ParseRerollElements("A1d4") == Reroll.Advantage
    ensures ParseRerollElements("1d4AA") == Reroll.DoubleAdvantage && ParseRerollElements("AA1d4") == Reroll.DoubleAdvantage
    ensures ParseRerollElements("1d4D") == Reroll.Disadvantage && ParseRerollElements("D1d4") == Reroll.Disadvantage
    ensures ParseRerollElements("A1d4D") == Reroll.Advantage && ParseRerollElements("AD1d4") == Reroll.Advantage
    ensures ParseRerollElements("D1d4A") == Reroll.Disadvantage && ParseRerollElements("DA1d4") == Reroll.Disadvantage
    ensures ParseRerollElements("1d4") == Reroll.Standard
  {
  }

  lemma RegularFragments()
    ensures FragmentCollection("1d4") == Some(DiceCollection(1, 4, Reroll.Standard, None))
    ensures FragmentCollection("D2d6") == Some(DiceCollection(2, 6, Reroll.Disadvantage, None))
    ensures FragmentCollection("3d6A") == Some(DiceCollection(3, 6, Reroll.Advantage, None))
    ensures FragmentCollection("4d6AA+7") == Some(DiceCollection(4, 6, Reroll.DoubleAdvantage, None))
  {
    FirstRegular();
    SecondRegular();
    ThirdRegular();
    FourthRegular();
  }

  lemma FirstRegular()
    ensures FragmentCollection("1d4") == Some(DiceCollection(1, 4, Reroll.Standard, None))
  {
    FirstRegularText();
    RegularWritten(1, 4, "", "1d4", Reroll.Standard);
  }

  lemma FirstRegularText()
    ensures ParseRerollElements("1d4") == Reroll.Standard
    ensures NatStr(1) + "d" + NatStr(4) + "" == "1d4"
  {
  }

  /** A fragment written as `NdS` and a non-digit tail is a regular
      collection with the fragment's reroll letter. */
  lemma RegularWritten(n: nat, z: nat, tail: string, f: string, r: Reroll)
    requires |tail| == 0 || !IsDigit(tail[0])
    requires f == NatStr(n) + "d" + NatStr(z) + tail
    requires ParseRerollElements(f) == r
    ensures FragmentCollection(f) == Some(DiceCollection(n, z, r, None))
  {
    RegularDieRoundTrip(n, z, tail);
    RegularFragment(f, n, z, r);
  }

  lemma SecondRegular()
    ensures FragmentCollection("D2d6") == Some(DiceCollection(2, 6, Reroll.Disadvantage, None))
  {
    assert ParseRerollElements("D2d6") == Reroll.Disadvantage;
    LetterFirstDie();
    RegularFragment("D2d6", 2, 6, Reroll.Disadvantage);
  }

  lemma LetterFirstDie()
    ensures ParseRegularDie("D2d6") == Some((2, 6))
  {
    LetterFirstSpan();
    SpanValues("D2d6", DieSpan(1, 2, 4), 2, 6);
  }

  lemma LetterFirstSpan()
    ensures FirstPlainDie("D2d6", 0) == Some(DieSpan(1, 2, 4))
  {
    assert PlainDieAt("D2d6", 0) == None;
    assert PlainDieAt("D2d6", 1) == Some(DieSpan(1, 2, 4));
  }

  lemma SpanValues(s: string, m: DieSpan, n: nat, z: nat)
    requires FirstPlainDie(s, 0) == Some(m)
    requires SpanCount(s, m) == n && SpanSize(s, m) == z
    ensures ParseRegularDie(s) == Some((n, z))
  {
  }

  lemma ThirdRegular()
    ensures FragmentCollection("3d6A") == Some(DiceCollection(3, 6, Reroll.Advantage, None))
  {
    ThirdRegularText();
    RegularWritten(3, 6, "A", "3d6A", Reroll.Advantage);
  }

  lemma ThirdRegularText()
    ensures ParseRerollElements("3d6A") == Reroll.Advantage
    ensures NatStr(3) + "d" + NatStr(6) + "A" == "3d6A"
  {
  }

  lemma FourthRegular()
    ensures FragmentCollection("4d6AA+7") == Some(DiceCollection(4, 6, Reroll.DoubleAdvantage, None))
  {
    FourthRegularReroll();
    FourthRegularText();
    RegularWritten(4, 6, "AA+7", "4d6AA+7", Reroll.DoubleAdvantage);
  }

  lemma FourthRegularReroll()
    ensures ParseRerollElements("4d6AA+7") == Reroll.DoubleAdvantage
  {
    var s := "4d6AA+7";
    assert RerollFrom(s, 3) == Reroll.DoubleAdvantage;
    assert RerollFrom(s, 2) == RerollFrom(s, 3);
    assert RerollFrom(s, 1) == RerollFrom(s, 2);
  }

  lemma FourthRegularText()
    ensures NatStr(4) + "d" + NatStr(6) + "AA+7" == "4d6AA+7"
  {
  }

  lemma RegularFragment(f: string, n: nat, z: nat, r: Reroll)
    requires ParseRegularDie(f) == Some((n, z)) && ParseRerollElements(f) == r
    ensures FragmentCollection(f) == Some(DiceCollection(n, z, r, None))
  {
  }

  lemma FatalFragment()
    ensures FragmentCollection("2f6~8+7") == Some(DiceCollection(2, 6, Reroll.Standard, Some(8)))
  {
    FatalDieExample();
    NoRegularInFatal();
    FatalFragmentReroll();
    FatalOnly("2f6~8+7", (2, 6, 8), Reroll.Standard);
  }

  lemma FatalFragmentReroll()
    ensures ParseRerollElements("2f6~8+7") == Reroll.Standard
  {
  }

  lemma NoRegularInFatal()
    ensures ParseRegularDie("2f6~8+7") == None
  {
    assert FirstPlainDie("2f6~8+7", 0) == None;
  }

  lemma FatalOnly(f: string, v: (nat, nat, nat), r: Reroll)
    requires ParseRegularDie(f) == None && ParseFatalDie(f) == Some(v) && ParseRerollElements(f) == r
    ensures FragmentCollection(f) == Some(DiceCollection(v.0, v.1, r, Some(v.2)))
  {
  }

  lemma StandardSplit()
    ensures Split("1d4,D2d6,3d6A,4d6AA+7", {','}) == ["1d4", "D2d6", "3d6A", "4d6AA+7"]
  {
    StandardFree();
    StandardJoin();
    SplitOfJoin(["1d4", "D2d6", "3d6A", "4d6AA+7"], "1d4,D2d6,3d6A,4d6AA+7");
  }

  lemma StandardFree()
    ensures Free("1d4", ',') && Free("D2d6", ',') && Free("3d6A", ',') && Free("4d6AA+7", ',')
  {
  }

  lemma StandardJoin()
    ensures Join(["1d4", "D2d6", "3d6A", "4d6AA+7"], ',') == "1d4,D2d6,3d6A,4d6AA+7"
  {
    var fs := ["1d4", "D2d6", "3d6A", "4d6AA+7"];
    assert fs[1..] == ["D2d6", "3d6A", "4d6AA+7"];
    assert fs[1..][1..] == ["3d6A", "4d6AA+7"];
    assert fs[1..][1..][1..] == ["4d6AA+7"];
  }

  /** Comma-free fragments joined with commas split back into themselves. */
  lemma SplitOfJoin(fs: seq<string>, s: string)
    requires |fs| >= 1 && Join(fs, ',') == s
    requires forall i :: 0 <= i < |fs| ==> Free(fs[i], ',')
    ensures Split(s, {','}) == fs
  {
    SplitJoin(fs, ',');
  }

  /** "1d4,D2d6,3d6A,4d6AA+7": one collection per fragment, each with the
      reroll letter of its own fragment, and the modifier 7. */
  lemma ParseDiceStringStandardExample()
    ensures NotationCollections("1d4,D2d6,3d6A,4d6AA+7")
            == [DiceCollection(1, 4, Reroll.Standard, None), DiceCollection(2, 6, Reroll.Disadvantage, None),
                DiceCollection(3, 6, Reroll.Advantage, None), DiceCollection(4, 6, Reroll.DoubleAdvantage, None)]
    ensures ParseStaticElements("1d4,D2d6,3d6A,4d6AA+7") == 7
  {
    StandardSplit();
    StandardCollections();
    StandardStatic();
  }

  lemma StandardCollections()
    ensures FragmentsCollections(["1d4", "D2d6", "3d6A", "4d6AA+7"])
            == [DiceCollection(1, 4, Reroll.Standard, None), DiceCollection(2, 6, Reroll.Disadvantage, None),
                DiceCollection(3, 6, Reroll.Advantage, None), DiceCollection(4, 6, Reroll.DoubleAdvantage, None)]
  {
    RegularFragments();
    TwoCollections("1d4", "D2d6", DiceCollection(1, 4, Reroll.Standard, None), DiceCollection(2, 6, Reroll.Disadvantage, None));
    TwoCollections("3d6A", "4d6AA+7", DiceCollection(3, 6, Reroll.Advantage, None), DiceCollection(4, 6, Reroll.DoubleAdvantage, None));
    FourCollections("1d4", "D2d6", "3d6A", "4d6AA+7",
                    DiceCollection(1, 4, Reroll.Standard, None), DiceCollection(2, 6, Reroll.Disadvantage, None),
                    DiceCollection(3, 6, Reroll.Advantage, None), DiceCollection(4, 6, Reroll.DoubleAdvantage, None));
  }

  lemma FourCollections(a: string, b: string, c: string, d: string,
                        ca: DiceCollection, cb: DiceCollection, cc: DiceCollection, cd: DiceCollection)
    requires FragmentsCollections([a, b]) == [ca, cb] && FragmentsCollections([c, d]) == [cc, cd]
    ensures FragmentsCollections([a, b, c, d]) == [ca, cb, cc, cd]
  {
    JoinCollections([a, b], [c, d], [ca, cb], [cc, cd]);
    assert [a, b] + [c, d] == [a, b, c, d];
    assert [ca, cb] + [cc, cd] == [ca, cb, cc, cd];
  }

  lemma JoinCollections(a: seq<string>, b: seq<string>, ca: seq<DiceCollection>, cb: seq<DiceCollection>)
    requires FragmentsCollections(a) == ca && FragmentsCollections(b) == cb
    ensures FragmentsCollections(a + b) == ca + cb
  {
    FragmentsCollectionsAppend(a, b);
  }

  lemma TwoCollections(a: string, b: string, ca: DiceCollection, cb: DiceCollection)
    requires FragmentCollection(a) == Some(ca) && FragmentCollection(b) == Some(cb)
    ensures FragmentsCollections([a, b]) == [ca, cb]
  {
    OneCollection(a, ca);
    OneCollection(b, cb);
    JoinCollections([a], [b], [ca], [cb]);
    assert [a] + [b] == [a, b];
  }

  lemma OneCollection(a: string, ca: DiceCollection)
    requires FragmentCollection(a) == Some(ca)
    ensures FragmentsCollections([a]) == [ca]
  {
    assert [a][..0] == [];
  }

  lemma StandardStatic()
    ensures ParseStaticElements("1d4,D2d6,3d6A,4d6AA+7") == 7
  {
    assert ModifiersText([7]) == "+7";
    assert SignFree("1d4,D2d6,3d6A,4d6AA");
    assert "1d4,D2d6,3d6A,4d6AA+7" == "1d4,D2d6,3d6A,4d6AA" + "+7";
    StaticText("1d4,D2d6,3d6A,4d6AA", [7], "1d4,D2d6,3d6A,4d6AA+7");
  }

  lemma FatalSplit()
    ensures Split("1d4,2f6~8+7", {','}) == ["1d4", "2f6~8+7"]
  {
    var fs := ["1d4", "2f6~8+7"];
    assert Free("1d4", ',') && Free("2f6~8+7", ',');
    assert fs[1..] == ["2f6~8+7"];
    assert Join(fs, ',') == "1d4,2f6~8+7";
    SplitJoin(fs, ',');
  }

  /** "1d4,2f6~8+7": a d4, then two d6 that turn fatal with size 8, and the
      modifier 7. */
  lemma ParseDiceStringFatalExample()
    ensures NotationCollections("1d4,2f6~8+7")
            == [DiceCollection(1, 4, Reroll.Standard, None), DiceCollection(2, 6, Reroll.Standard, Some(8))]
    ensures ParseStaticElements("1d4,2f6~8+7") == 7
  {
    FatalSplit();
    FatalCollections();
    FatalStatic();
  }

  lemma FatalCollections()
    ensures FragmentsCollections(["1d4", "2f6~8+7"])
            == [DiceCollection(1, 4, Reroll.Standard, None), DiceCollection(2, 6, Reroll.Standard, Some(8))]
  {
    FirstRegular();
    FatalFragment();
    TwoCollections("1d4", "2f6~8+7", DiceCollection(1, 4, Reroll.Standard, None), DiceCollection(2, 6, Reroll.Standard, Some(8)));
  }

  lemma FatalStatic()
    ensures ParseStaticElements("1d4,2f6~8+7") == 7
  {
    assert ModifiersText([7]) == "+7";
    assert SignFree("1d4,2f6~8");
    assert "1d4,2f6~8+7" == "1d4,2f6~8" + "+7";
    StaticText("1d4,2f6~8", [7], "1d4,2f6~8+7");
  }
}
