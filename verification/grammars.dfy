/**
 * The small text grammars of the converter: challenge ratings (`processChallenge`), spell-slot
 * counts (`slotString`), zero-padded table numbers (`padInteger`), a healing or damage formula
 * split into its dice and its bonus, and the hit points of a special hit-point line.
 */
module Grammars {
  import opened Wrappers
  import opened Text

  // ---------------------------------------------------------------------------------------------
  // Challenge rating

  /** A challenge rating: a whole number, or a fraction "a/b" that the source divides in floating point. */
  datatype Rating = Whole(n: nat) | Fraction(num: nat, den: nat)

  /** Index of the first decimal digit in `s`, or `|s|` when there is none. */
  function FirstDigit(s: string): (i: nat)
    ensures i <= |s| && (i < |s| ==> IsDigit(s[i]))
  {
    if s == [] || IsDigit(s[0]) then 0 else 1 + FirstDigit(s[1..])
  }

  lemma {:induction false} FirstDigitSkips(s: string)
    ensures NoDigits(s[..FirstDigit(s)])
  {
    if s != [] && !IsDigit(s[0]) {
      FirstDigitSkips(s[1..]);
      assert s[..FirstDigit(s)] == [s[0]] + s[1..][..FirstDigit(s[1..])];
    }
  }

  lemma {:induction false} FirstDigitAt(s: string, i: nat)
    requires i < |s| && NoDigits(s[..i]) && IsDigit(s[i])
    ensures FirstDigit(s) == i
    decreases i
  {
    if i > 0 {
      assert !IsDigit(s[..i][0]);
      assert s[1..][..i - 1] == s[..i][1..];
      FirstDigitAt(s[1..], i - 1);
    }
  }

  /**
   * What may follow the numerator: one optional white-space character, "/", one optional
   * white-space character and a digit. The result is where the denominator's digits start. An
   * optional white space is taken whenever it is there: leaving it out would put a white-space
   * character where "/" or a digit is needed.
   */
  function Denominator(t: string): (r: Option<nat>)
    ensures r.Some? ==> r.value < |t| && IsDigit(t[r.value])
  {
    var j := if t != [] && IsSpace(t[0]) then 1 else 0;
    if j < |t| && t[j] == '/' then
      var k := if j + 1 < |t| && IsSpace(t[j + 1]) then j + 2 else j + 1;
      if k < |t| && IsDigit(t[k]) then Some(k) else None
    else None
  }

  /**
   * `processChallenge`: "Unknown" rates 0; otherwise the rating is read from the first digit on.
   * Text without any digit is an error.
   */
  function ProcessChallenge(cr: string): (r: Result<Rating>)
  {
    if cr == "Unknown" then Ok(Whole(0))
    else
      var i := FirstDigit(cr);
      if i == |cr| then Err("Bad CR " + cr) else Ok(RatingAt(cr[i..]))
  }

  /** The rating at a run of digits: the number, and a denominator when one follows it. */
  function RatingAt(t: string): Rating {
    RatingWith(LeadingNumber(t), t[DigitRun(t)..])
  }

  /** The rating with numerator `a`, when `rest` follows the numerator's digits. */
  function RatingWith(a: nat, rest: string): Rating {
    match Denominator(rest)
    case Some(k) => Fraction(a, LeadingNumber(rest[k..]))
    case None => Whole(a)
  }

  lemma UnknownHasNoDigits()
    ensures NoDigits("Unknown")
  {
    var u := "Unknown";
    forall i | 0 <= i < |u| ensures !IsDigit(u[i]) {
    }
  }

  /** A rating fails exactly when the text is not "Unknown" and has no digit. */
  lemma ChallengeFails(cr: string)
    ensures ProcessChallenge(cr).Err? <==> cr != "Unknown" && NoDigits(cr)
  {
    FirstDigitSkips(cr);
    if FirstDigit(cr) == |cr| {
      assert cr[..|cr|] == cr;
    } else {
      assert IsDigit(cr[FirstDigit(cr)]);
    }
  }

  lemma NumberShape(pre: string, d: string, rest: string)
    requires d != [] && AllDigits(d)
    ensures var cr := pre + d + rest; var i := |pre|;
      && i < |cr| && cr[..i] == pre && IsDigit(cr[i]) && cr[i..] == d + rest && cr[i + |d|..] == rest
  {
    var cr := pre + d + rest;
    assert cr[..|pre|] == pre;
    assert cr[|pre|..] == d + rest;
    assert cr[|pre| + |d|..] == rest;
  }

  /** Text holding a digit is not "Unknown". */
  lemma NotUnknown(cr: string, i: nat)
    requires i < |cr| && IsDigit(cr[i])
    ensures cr != "Unknown"
  {
    UnknownHasNoDigits();
  }

  /** Digit-free text before a rendered number is skipped, and the rating is read at the number. */
  lemma ChallengeAtNumber(pre: string, n: nat, rest: string)
    requires NoDigits(pre)
    requires rest == [] || !IsDigit(rest[0])
    ensures ProcessChallenge(pre + NatToString(n) + rest) == Ok(RatingWith(n, rest))
  {
    var d := NatToString(n);
    var cr := pre + d + rest;
    var i := |pre|;
    NumberShape(pre, d, rest);
    NotUnknown(cr, i);
    FirstDigitAt(cr, i);
    DigitRunOfPrefix(d, rest);
    LeadingNumberOfNatToString(n, rest);
    assert (d + rest)[|d|..] == rest;
  }

  /** A whole number after digit-free text, with no fraction after it, is the rating. */
  lemma ChallengeWhole(pre: string, n: nat, rest: string)
    requires NoDigits(pre)
    requires rest == [] || !IsDigit(rest[0])
    requires Denominator(rest).None?
    ensures ProcessChallenge(pre + NatToString(n) + rest) == Ok(Whole(n))
  {
    ChallengeAtNumber(pre, n, rest);
  }

  /** The "/" of a fraction, with or without one space before it and one after it. */
  function Bar(before: bool, after: bool): string {
    (if before then " " else "") + "/" + (if after then " " else "")
  }

  lemma DenominatorAfterBar(before: bool, after: bool, t: string)
    requires t != [] && IsDigit(t[0])
    ensures Denominator(Bar(before, after) + t) == Some(|Bar(before, after)|)
  {
    var u := Bar(before, after) + t;
    assert u[|Bar(before, after)|] == t[0];
    if before {
      assert u[0] == ' ' && u[1] == '/';
    } else {
      assert u[0] == '/';
    }
  }

  lemma FractionShape(pre: string, da: string, bar: string, db: string, rest: string)
    requires bar != [] && db != []
    ensures var t := bar + db + rest;
      && pre + da + bar + db + rest == pre + da + t
      && t[0] == bar[0] && t[|bar|..] == db + rest && (db + rest)[0] == db[0]
  {
    assert pre + da + bar + db + rest == pre + da + (bar + db + rest);
    assert (bar + db + rest)[|bar|..] == db + rest;
  }

  lemma RatingWithFraction(a: nat, before: bool, after: bool, b: nat, rest: string)
    requires rest == [] || !IsDigit(rest[0])
    ensures RatingWith(a, Bar(before, after) + NatToString(b) + rest) == Fraction(a, b)
  {
    var db, bar := NatToString(b), Bar(before, after);
    FractionShape("", "", bar, db, rest);
    DenominatorAfterBar(before, after, db + rest);
    LeadingNumberOfNatToString(b, rest);
  }

  /** A fraction "a/b", with or without a space on either side of the "/", rates a over b. */
  lemma ChallengeFraction(pre: string, a: nat, before: bool, after: bool, b: nat, rest: string)
    requires NoDigits(pre)
    requires rest == [] || !IsDigit(rest[0])
    ensures ProcessChallenge(pre + NatToString(a) + Bar(before, after) + NatToString(b) + rest) == Ok(Fraction(a, b))
  {
    var da, db, bar := NatToString(a), NatToString(b), Bar(before, after);
    assert bar[0] == (if before then ' ' else '/');
    FractionShape(pre, da, bar, db, rest);
    ChallengeAtNumber(pre, a, bar + db + rest);
    RatingWithFraction(a, before, after, b, rest);
  }

  // ---------------------------------------------------------------------------------------------
  // Spell slots and table numbers

  /** `slotString`: "at will" without a slot count, "1 slot", or the count and "slots". */
  function SlotString(slots: Option<int>): string {
    match slots
    case None => "at will"
    case Some(n) => if n == 1 then "1 slot" else IntToString(n) + " slots"
  }

  lemma SlotStringOne()
    ensures ParseInt(SlotString(Some(1))) == Some(1)
    ensures !EndsWith(SlotString(Some(1)), "slots")
  {
    assert SlotString(Some(1)) == NatToString(1) + " slot";
    ParseIntOfNatToString(1, " slot");
    assert "1 slot"[1..] != "slots";
  }

  lemma SlotStringMany(n: nat)
    requires n != 1
    ensures SlotString(Some(n)) == NatToString(n) + " slots"
    ensures EndsWith(SlotString(Some(n)), "slots")
  {
    var s := NatToString(n) + " slots";
    assert s[|s| - 5..] == "slots";
  }

  /** A slot count is read back from its text, and the plural is used for every count but one. */
  lemma SlotStringCount(n: nat)
    ensures ParseInt(SlotString(Some(n))) == Some(n)
    ensures EndsWith(SlotString(Some(n)), "slots") <==> n != 1
  {
    if n == 1 {
      SlotStringOne();
    } else {
      SlotStringMany(n);
      ParseIntOfNatToString(n, " slots");
    }
  }

  /** `padInteger`: a number from 0 to 9 gets a leading zero. */
  function PadInteger(num: int): string {
    if num < 10 && num >= 0 then "0" + IntToString(num) else IntToString(num)
  }

  /** A padded number has at least two characters and reads back as the number. */
  lemma PadIntegerReadsBack(n: nat)
    ensures |PadInteger(n)| >= 2
    ensures ParseInt(PadInteger(n)) == Some(n)
  {
    var d := NatToString(n);
    if n < 10 {
      var z := "0" + d;
      assert z[0] == '0';
      ParseIntOfDigitStart(z);
      DigitRunOfPrefix(z, "");
      assert z + "" == z && z[..|z|] == z;
      DigitsValueLeadingZero(d);
      DigitsValueOfNatToString(n);
    } else {
      assert d == NatToString(n / 10) + [DigitChar(n % 10)];
      ParseIntOfNatToString(n, "");
      assert d + "" == d;
    }
  }

  // ---------------------------------------------------------------------------------------------
  // Dice and bonus

  /**
   * What a healing or damage formula splits into: the dice "NdM", the separator between dice
   * and bonus ("+" with at most one white-space character on either side), and the bonus digits.
   */
  datatype DiceBonus = DiceBonus(dice: Option<string>, sep: string, bonus: Option<string>)

  /** End of the dice "NdM" at the front of `s`, or 0 when there are none. */
  function DiceEnd(s: string): (e: nat)
    ensures e <= |s|
  {
    var n := DigitRun(s);
    if 0 < n < |s| && s[n] == 'd' && DigitRun(s[n + 1..]) > 0 then n + 1 + DigitRun(s[n + 1..]) else 0
  }

  /**
   * Length of the separator at the front of `r`, or 0 when there is none. A white space on
   * either side is taken whenever it is there: leaving it out would put it where "+", a digit
   * or the end is needed.
   */
  function PlusSep(r: string): (j: nat)
    ensures j <= |r|
  {
    var i := if r != [] && IsSpace(r[0]) then 1 else 0;
    if i < |r| && r[i] == '+' then (if i + 1 < |r| && IsSpace(r[i + 1]) then i + 2 else i + 1) else 0
  }

  /** The rest of a formula: a separator and digits, each possibly missing, up to the end. */
  function BonusTail(r: string): Option<(string, Option<string>)> {
    var j := PlusSep(r);
    if AllDigits(r[j..]) then Some((r[..j], if j == |r| then None else Some(r[j..]))) else None
  }

  /**
   * The split of a healing or damage formula: dice, an optional separator and an optional bonus,
   * and nothing else. When the dice are there but the rest does not fit, the split without dice
   * is tried, as the regular expression's optional group backtracks.
   */
  function SplitDiceBonus(s: string): Option<DiceBonus> {
    var e := DiceEnd(s);
    if e > 0 && BonusTail(s[e..]).Some? then
      Some(DiceBonus(Some(s[..e]), BonusTail(s[e..]).value.0, BonusTail(s[e..]).value.1))
    else
      match BonusTail(s)
      case Some((sep, bonus)) => Some(DiceBonus(None, sep, bonus))
      case None => None
  }

  /** Dice "NdM": digits, "d", digits. */
  predicate IsDice(d: string) {
    var n := DigitRun(d);
    0 < n && n + 1 < |d| && d[n] == 'd' && AllDigits(d[n + 1..])
  }

  /** The separators a formula may have between dice and bonus, the empty one included. */
  predicate IsPlusSep(s: string) {
    || s == []
    || (|s| == 1 && s[0] == '+')
    || (|s| == 2 && ((IsSpace(s[0]) && s[1] == '+') || (s[0] == '+' && IsSpace(s[1]))))
    || (|s| == 3 && IsSpace(s[0]) && s[1] == '+' && IsSpace(s[2]))
  }

  function OrEmpty(o: Option<string>): string {
    o.GetOr("")
  }

  lemma PlusSepShape(r: string)
    ensures IsPlusSep(r[..PlusSep(r)])
  {
    var j := PlusSep(r);
    if j == 1 {
      assert r[..1] == [r[0]];
    } else if j == 2 {
      assert r[..2] == [r[0], r[1]];
    } else if j == 3 {
      assert r[..3] == [r[0], r[1], r[2]];
    }
  }

  lemma BonusTailSound(r: string)
    requires BonusTail(r).Some?
    ensures var (sep, bonus) := BonusTail(r).value;
      && r == sep + OrEmpty(bonus) && IsPlusSep(sep)
      && (bonus.Some? ==> bonus.value != [] && AllDigits(bonus.value))
  {
    PlusSepShape(r);
    assert r == r[..PlusSep(r)] + r[PlusSep(r)..];
  }

  lemma {:induction false} DiceEndIsDice(s: string)
    requires DiceEnd(s) > 0
    ensures IsDice(s[..DiceEnd(s)])
  {
    var n := DigitRun(s);
    var e := DiceEnd(s);
    var d := s[..e];
    DigitRunDigits(s);
    DigitRunDigits(s[n + 1..]);
    assert d[..n] == s[..n];
    assert d[n + 1..] == s[n + 1..][..e - n - 1];
    DigitRunOfPrefix(s[..n], d[n..]);
    assert d == s[..n] + d[n..];
  }

  lemma SplitWithDice(s: string, e: nat, sep: string, bonus: Option<string>)
    requires e == DiceEnd(s) && e > 0 && BonusTail(s[e..]) == Some((sep, bonus))
    ensures SplitDiceBonus(s) == Some(DiceBonus(Some(s[..e]), sep, bonus))
  {
  }

  lemma SplitWithoutDice(s: string, sep: string, bonus: Option<string>)
    requires DiceEnd(s) == 0 || BonusTail(s[DiceEnd(s)..]).None?
    requires BonusTail(s) == Some((sep, bonus))
    ensures SplitDiceBonus(s) == Some(DiceBonus(None, sep, bonus))
  {
  }

  lemma SplitAtShape(s: string, e: nat, sep: string, tail: string)
    requires e <= |s| && s[e..] == sep + tail
    ensures s == s[..e] + sep + tail
  {
    assert s == s[..e] + s[e..];
  }

  /**
   * Every split puts the formula back together from its parts: dice, separator and bonus, each of
   * the form the grammar allows.
   */
  lemma SplitDiceBonusSound(s: string)
    requires SplitDiceBonus(s).Some?
    ensures var r := SplitDiceBonus(s).value;
      && s == OrEmpty(r.dice) + r.sep + OrEmpty(r.bonus)
      && (r.dice.Some? ==> IsDice(r.dice.value))
      && IsPlusSep(r.sep)
      && (r.bonus.Some? ==> r.bonus.value != [] && AllDigits(r.bonus.value))
  {
    var e := DiceEnd(s);
    if e > 0 && BonusTail(s[e..]).Some? {
      var (sep, bonus) := BonusTail(s[e..]).value;
      SplitWithDice(s, e, sep, bonus);
      BonusTailSound(s[e..]);
      DiceEndIsDice(s);
      SplitAtShape(s, e, sep, OrEmpty(bonus));
    } else {
      var (sep, bonus) := BonusTail(s).value;
      SplitWithoutDice(s, sep, bonus);
      BonusTailSound(s);
      assert OrEmpty(None) == "";
    }
  }

  lemma DiceShape(d: string, n: nat, rest: string)
    requires n < |d|
    ensures var s := d + rest;
      && s[..n] == d[..n] && s[n] == d[n] && s[n + 1..] == d[n + 1..] + rest
      && s[..|d|] == d && s[|d|..] == rest && d == d[..n] + d[n..] && s == d[..n] + s[n..]
  {
    var s := d + rest;
    assert s[..n] == d[..n];
    assert s[n + 1..] == d[n + 1..] + rest;
    assert s[..|d|] == d && s[|d|..] == rest;
    assert d == d[..n] + d[n..];
    assert s == d[..n] + s[n..];
  }

  lemma DiceEndOf(d: string, rest: string)
    requires IsDice(d) && (rest == [] || !IsDigit(rest[0]))
    ensures DiceEnd(d + rest) == |d|
  {
    var n := DigitRun(d);
    DiceShape(d, n, rest);
    DigitRunDigits(d);
    DigitRunOfPrefix(d[..n], d[n..]);
    DigitRunOfPrefix(d[..n], (d + rest)[n..]);
    DigitRunOfPrefix(d[n + 1..], rest);
  }

  lemma PlusSepOf(sep: string, b: string)
    requires IsPlusSep(sep) && (b == [] || IsDigit(b[0]))
    requires sep == [] ==> b != []
    ensures PlusSep(sep + b) == |sep|
  {
    var r := sep + b;
    if |sep| == 0 {
      assert r == b;
    } else if |sep| == 1 {
      assert r[0] == '+';
    } else if |sep| == 2 {
      assert r[0] == sep[0] && r[1] == sep[1];
      if b != [] {
        assert r[2] == b[0];
      }
    } else {
      assert r[0] == sep[0] && r[1] == sep[1] && r[2] == sep[2];
    }
  }

  lemma BonusTailOf(sep: string, b: string)
    requires IsPlusSep(sep) && AllDigits(b)
    requires sep == [] ==> b != []
    ensures BonusTail(sep + b) == Some((sep, if b == [] then None else Some(b)))
  {
    PlusSepOf(sep, b);
    var r := sep + b;
    assert r[..|sep|] == sep && r[|sep|..] == b;
  }

  /** Dice, a separator and a bonus (or no bonus) split back into exactly those parts. */
  lemma SplitDiceBonusComplete(d: string, sep: string, b: string)
    requires IsDice(d) && IsPlusSep(sep) && sep != [] && AllDigits(b)
    ensures SplitDiceBonus(d + sep + b) == Some(DiceBonus(Some(d), sep, if b == [] then None else Some(b)))
  {
    var s := d + sep + b;
    assert sep[0] == '+' || IsSpace(sep[0]);
    assert s == d + (sep + b);
    assert (sep + b)[0] == sep[0];
    DiceEndOf(d, sep + b);
    DiceShape(d, DigitRun(d), sep + b);
    BonusTailOf(sep, b);
  }

  /** A bonus on its own is a bonus without dice. */
  lemma SplitBonusOnly(b: string)
    requires b != [] && AllDigits(b)
    ensures SplitDiceBonus(b) == Some(DiceBonus(None, "", Some(b)))
  {
    DigitRunOfPrefix(b, "");
    assert b + "" == b;
    BonusTailOf("", b);
    assert "" + b == b;
  }

  /** Dice on their own are dice without a bonus. */
  lemma SplitDiceOnly(d: string)
    requires IsDice(d)
    ensures SplitDiceBonus(d) == Some(DiceBonus(Some(d), "", None))
  {
    DiceEndOf(d, "");
    assert d + "" == d;
    assert d[|d|..] == "";
  }

  // ---------------------------------------------------------------------------------------------
  // Special hit points

  /** What follows a non-empty run of digits at the front of `t`. */
  function AfterDigits(t: string): (r: Option<string>)
    ensures r.Some? ==> |r.value| < |t|
  {
    var n := DigitRun(t);
    if n > 0 then Some(t[n..]) else None
  }

  lemma AfterDigitsOf(d: string, rest: string)
    requires d != [] && AllDigits(d) && (rest == [] || !IsDigit(rest[0]))
    ensures AfterDigits(d + rest) == Some(rest)
  {
    DigitRunOfPrefix(d, rest);
    assert (d + rest)[|d|..] == rest;
  }

  /**
   * What follows the formula of a special hit-point line, which comes after its first digits:
   * one white-space character, "(", digits, "d", digits, a sign, digits and ")".
   */
  function HpFormulaRest(t: string): (r: Option<string>)
    ensures r.Some? ==> |r.value| < |t|
  {
    if |t| < 2 || !IsSpace(t[0]) || t[1] != '(' then None else AfterDice(t[2..])
  }

  /** What follows "AdB", a sign, digits and ")" at the front of `t`. */
  function AfterDice(t: string): (r: Option<string>)
    ensures r.Some? ==> |r.value| < |t|
  {
    match AfterDigits(t)
    case None => None
    case Some(t1) => if t1 == [] || t1[0] != 'd' then None else AfterBonus(t1[1..])
  }

  /** What follows "B", a sign, digits and ")" at the front of `t`. */
  function AfterBonus(t: string): (r: Option<string>)
    ensures r.Some? ==> |r.value| < |t|
  {
    match AfterDigits(t)
    case None => None
    case Some(t2) => if t2 == [] || !(t2[0] == '+' || t2[0] == '-') then None else AfterClose(t2[1..])
  }

  /** What follows digits and ")" at the front of `t`. */
  function AfterClose(t: string): (r: Option<string>)
    ensures r.Some? ==> |r.value| < |t|
  {
    match AfterDigits(t)
    case None => None
    case Some(t3) => if t3 != [] && t3[0] == ')' then Some(t3[1..]) else None
  }

  /**
   * Where the hit points of a special hit-point line end: digits and the parenthesised formula
   * at its front, whatever follows them.
   */
  function HpSpecialEnd(s: string): (r: Option<nat>)
    ensures r.Some? ==> r.value <= |s|
  {
    match AfterDigits(s)
    case None => None
    case Some(t) =>
      match HpFormulaRest(t)
      case None => None
      case Some(rest) => Some(|s| - |rest|)
  }

  lemma HpShape(avg: string, a: string, b: string, sign: char, c: string, rest: string)
    ensures var hp := avg + " (" + a + "d" + b + [sign] + c + ")";
      var t := " (" + (a + ("d" + (b + ([sign] + (c + (")" + rest))))));
      && hp + rest == avg + t && t[0] == ' '
  {
  }

  lemma AfterCloseOf(c: string, rest: string)
    requires c != [] && AllDigits(c)
    ensures AfterClose(c + (")" + rest)) == Some(rest)
  {
    AfterDigitsOf(c, ")" + rest);
    assert (")" + rest)[1..] == rest;
  }

  lemma AfterBonusOf(b: string, sign: char, c: string, rest: string)
    requires b != [] && c != [] && AllDigits(b) && AllDigits(c)
    requires sign == '+' || sign == '-'
    ensures AfterBonus(b + ([sign] + (c + (")" + rest)))) == Some(rest)
  {
    var u3 := [sign] + (c + (")" + rest));
    AfterDigitsOf(b, u3);
    assert u3[1..] == c + (")" + rest);
    AfterCloseOf(c, rest);
  }

  lemma HpFormulaRestOf(a: string, b: string, sign: char, c: string, rest: string)
    requires a != [] && b != [] && c != [] && AllDigits(a) && AllDigits(b) && AllDigits(c)
    requires sign == '+' || sign == '-'
    ensures HpFormulaRest(" (" + (a + ("d" + (b + ([sign] + (c + (")" + rest))))))) == Some(rest)
  {
    var u2 := b + ([sign] + (c + (")" + rest)));
    var u1 := "d" + u2;
    var t := " (" + (a + u1);
    assert t[0] == ' ' && t[1] == '(' && t[2..] == a + u1;
    AfterDigitsOf(a, u1);
    assert u1[1..] == u2;
    AfterBonusOf(b, sign, c, rest);
  }

  /** A special hit-point line "N (AdB+C)…" has hit points "N (AdB+C)". */
  lemma HpSpecialOf(avg: string, a: string, b: string, sign: char, c: string, rest: string)
    requires avg != [] && a != [] && b != [] && c != []
    requires AllDigits(avg) && AllDigits(a) && AllDigits(b) && AllDigits(c)
    requires sign == '+' || sign == '-'
    ensures var hp := avg + " (" + a + "d" + b + [sign] + c + ")";
      HpSpecialEnd(hp + rest).Some? && HpSpecialEnd(hp + rest).value == |hp|
  {
    var t := " (" + (a + ("d" + (b + ([sign] + (c + (")" + rest))))));
    HpShape(avg, a, b, sign, c, rest);
    AfterDigitsOf(avg, t);
    HpFormulaRestOf(a, b, sign, c, rest);
  }
}
