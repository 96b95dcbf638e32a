/**
 * Trait and action names. A name may carry, in parentheses, a usage limit or recharge
 * ("Breath Weapon (Recharge 5–6)", "Legendary Resistance (3/Day)"), which `makeTraitAction`
 * moves out of the name; a legendary action's name may carry its cost
 * ("Wing Attack (Costs 2 Actions)").
 */
module Traits {
  import opened Wrappers
  import opened Text

  const EnDash: char := '\U{2013}'

  // ---------------------------------------------------------------------------------------------
  // The name and its parenthesised part

  /** Index of the first character of `s` that is not `c`, or `|s|`. */
  function SkipChar(s: string, c: char): (i: nat)
    ensures i <= |s| && (i < |s| ==> s[i] != c)
  {
    if s != [] && s[0] == c then 1 + SkipChar(s[1..], c) else 0
  }

  /**
   * The groups of the name pattern: the text from the first character that is not "(" up to the
   * next "(", and what a pair of parentheses right after it encloses.
   */
  datatype NameParts = NameParts(base: string, inner: Option<string>)

  function SplitName(name: string): (r: Option<NameParts>)
    ensures r.Some? ==> r.value.base != [] && '(' !in r.value.base
    ensures r.Some? && r.value.inner.Some? ==> r.value.inner.value != [] && ')' !in r.value.inner.value
  {
    var i := SkipChar(name, '(');
    if i == |name| then None
    else
      var t := name[i..];
      var k := IndexOf(t, '(');
      IndexOfBefore(t, '(');
      if k == |t| then
        assert t[..k] == t;
        Some(NameParts(t, None))
      else
        var u := t[k + 1..];
        var m := IndexOf(u, ')');
        IndexOfBefore(u, ')');
        if m == 0 || m == |u| then Some(NameParts(t[..k], None))
        else Some(NameParts(t[..k], Some(u[..m])))
  }

  lemma NameShape(base: string, inner: string, rest: string)
    requires base != []
    ensures var name := base + "(" + inner + ")" + rest;
      var u := inner + ")" + rest;
      && name[..|base|] == base && name[|base|] == '(' && name[|base| + 1..] == u
      && u[..|inner|] == inner && u[|inner|] == ')' && name[0] == base[0]
  {
    var name := base + "(" + inner + ")" + rest;
    assert name[..|base|] == base;
    assert name[|base| + 1..] == inner + ")" + rest;
    assert (inner + ")" + rest)[..|inner|] == inner;
  }

  /** A name with a parenthesised part splits into the text before it and the part. */
  lemma SplitNameOf(base: string, inner: string, rest: string)
    requires base != [] && base[0] != '(' && '(' !in base && inner != [] && ')' !in inner
    ensures var r := SplitName(base + "(" + inner + ")" + rest);
      && r.Some? && r.value.base == base && r.value.inner.Some? && r.value.inner.value == inner
  {
    var name := base + "(" + inner + ")" + rest;
    NameShape(base, inner, rest);
    assert SkipChar(name, '(') == 0;
    assert name[0..] == name;
    IndexOfAt(name, '(', |base|);
    IndexOfAt(inner + ")" + rest, ')', |inner|);
  }

  /** A name without "(" is all base. */
  lemma SplitNamePlain(name: string)
    requires name != [] && '(' !in name
    ensures SplitName(name) == Some(NameParts(name, None))
  {
    assert name[0] != '(';
    assert SkipChar(name, '(') == 0;
    assert name[0..] == name;
    IndexOfAt(name, '(', |name|);
  }

  // ---------------------------------------------------------------------------------------------
  // Usage limits and recharges

  /** The periods a usage limit "N/period" may name, in the order the pattern tries them. */
  datatype Period = Day | Turn | Rest | Hour | Week | LongRest | ShortRest

  function PeriodWord(p: Period): string {
    match p
    case Day => "Day"
    case Turn => "Turn"
    case Rest => "Rest"
    case Hour => "Hour"
    case Week => "Week"
    case LongRest => "Long Rest"
    case ShortRest => "Short Rest"
  }

  /** Length of the period word at the front of `t`, letters compared case-insensitively; 0 for none. */
  function PeriodLen(t: string): (n: nat)
    ensures n <= |t|
  {
    if StartsWithIgnoreCase(t, "Day") then 3
    else if StartsWithIgnoreCase(t, "Turn") then 4
    else if StartsWithIgnoreCase(t, "Rest") then 4
    else if StartsWithIgnoreCase(t, "Hour") then 4
    else if StartsWithIgnoreCase(t, "Week") then 4
    else if StartsWithIgnoreCase(t, "Long Rest") then 9
    else if StartsWithIgnoreCase(t, "Short Rest") then 10
    else 0
  }

  /** Length of " minute" or " minutes" at the front of `t`; 0 for neither. */
  function MinuteLen(t: string): (n: nat)
    ensures n <= |t|
  {
    if StartsWithIgnoreCase(t, " minutes") then 8
    else if StartsWithIgnoreCase(t, " minute") then 7
    else 0
  }

  /** Length of a usage limit "N/period" or "N minutes/period" at the front of `t`; 0 for none. */
  function PerPeriodLen(t: string): (n: nat)
    ensures n <= |t|
  {
    if t != [] && IsDigit(t[0]) then
      var j := 1 + MinuteLen(t[1..]);
      if j < |t| && t[j] == '/' && PeriodLen(t[j + 1..]) > 0 then j + 1 + PeriodLen(t[j + 1..]) else 0
    else 0
  }

  /** Length of "Recharge N" (with `six`: "Recharge N–6") at the front of `t`; 0 for none. */
  function RechargeDieLen(t: string, six: bool): (n: nat)
    ensures n <= |t|
  {
    if StartsWithIgnoreCase(t, "Recharge ") && 9 < |t| && IsDigit(t[9]) then
      if !six then 10
      else if 11 < |t| && t[10] == EnDash && t[11] == '6' then 12
      else 0
    else 0
  }

  /** Length of the longest run at the front of `s` without "," or ")". */
  function FieldRun(s: string): (n: nat)
    ensures n <= |s|
  {
    if s != [] && s[0] != ',' && s[0] != ')' then 1 + FieldRun(s[1..]) else 0
  }

  /** Length of "Recharge text" or "Recharges text" at the front of `t`, the text running up to a comma; 0 for none. */
  function RechargeTextLen(t: string): (n: nat)
    ensures n <= |t|
  {
    if StartsWithIgnoreCase(t, "Recharge") then
      var j := if 8 < |t| && LowerAscii(t[8]) == 's' then 9 else 8;
      if j < |t| && t[j] == ' ' && FieldRun(t[j + 1..]) > 0 then j + 1 + FieldRun(t[j + 1..]) else 0
    else 0
  }

  /** After the limit, the text either ends or goes on with ", " and something more. */
  predicate SuffixOk(t: string, n: nat) {
    n == |t| || (n + 2 < |t| && t[n] == ',' && t[n + 1] == ' ')
  }

  /**
   * Length of the limit at the front of `t`: the first alternative of the pattern that leaves
   * an acceptable remainder, tried in the pattern's order.
   */
  function LimitLen(t: string): (r: Option<nat>)
    ensures r.Some? ==> 0 < r.value <= |t| && SuffixOk(t, r.value)
  {
    var a := PerPeriodLen(t);
    if a > 0 && SuffixOk(t, a) then Some(a)
    else
      var b := RechargeDieLen(t, true);
      if b > 0 && SuffixOk(t, b) then Some(b)
      else
        var c := RechargeDieLen(t, false);
        if c > 0 && SuffixOk(t, c) then Some(c)
        else
          var d := RechargeTextLen(t);
          if d > 0 && SuffixOk(t, d) then Some(d) else None
  }

  /** Index of the first line terminator in `s`, or `|s|`: how far `.*` can reach. */
  function FirstLineBreak(s: string): (i: nat)
    ensures i <= |s|
  {
    if s == [] || IsLineTerminator(s[0]) then 0 else 1 + FirstLineBreak(s[1..])
  }

  /** The limit alternatives of the recharge pattern as one value: the limit's length at the front of a text. */
  type LimitMatcher = string -> Option<nat>

  /** A limit is not empty, lies inside the text, and leaves an acceptable remainder. */
  ghost predicate Acceptable(m: LimitMatcher) {
    forall t :: m(t).Some? ==> 0 < m(t).value <= |t| && SuffixOk(t, m(t).value)
  }

  lemma LimitLenAcceptable()
    ensures Acceptable(LimitLen)
  {
  }

  /**
   * A limit after a condition and ", ": the comma is tried at `c` and then at every earlier
   * position, as the greedy `(.*), ` gives back characters. The result is the comma's position
   * and the limit's length.
   */
  function PrefixedFrom(m: LimitMatcher, s: string, c: nat): (r: Option<(nat, nat)>)
    requires Acceptable(m) && c <= |s|
    ensures r.Some? ==> r.value.0 <= c && r.value.0 + 2 + r.value.1 <= |s|
    decreases c
  {
    var here := if c + 2 <= |s| && s[c] == ',' && s[c + 1] == ' ' then m(s[c + 2..]) else None;
    if here.Some? then Some((c, here.value))
    else if c == 0 then None
    else PrefixedFrom(m, s, c - 1)
  }

  /**
   * The groups of the recharge pattern: the condition before the limit (when the ", " form is
   * used), the limit itself, and the text after it.
   */
  datatype Recharge = Recharge(before: Option<string>, limit: string, after: Option<string>)

  function After(t: string, n: nat): Option<string>
    requires n <= |t|
  {
    if n + 2 <= |t| then Some(t[n + 2..]) else None
  }

  /** The recharge pattern, anchored at both ends, with the limit alternatives `m`. */
  function RechargeWith(m: LimitMatcher, g: string): Option<Recharge>
    requires Acceptable(m)
  {
    match PrefixedFrom(m, g, FirstLineBreak(g))
    case Some((c, n)) =>
      var t := g[c + 2..];
      Some(Recharge(Some(g[..c]), t[..n], After(t, n)))
    case None =>
      match m(g)
      case Some(n) => Some(Recharge(None, g[..n], After(g, n)))
      case None => None
  }

  /** The recharge pattern applied to the text in a name's parentheses. */
  function RechargeParts(g: string): Option<Recharge> {
    LimitLenAcceptable();
    RechargeWith(LimitLen, g)
  }

  /** The text the groups of the recharge pattern were taken from. */
  function Reassemble(r: Recharge): string {
    (match r.before case Some(b) => b + ", " case None => "")
    + r.limit
    + (match r.after case Some(a) => ", " + a case None => "")
  }

  /** The condition the name gets: the text before the limit when there is some, else the text after it. */
  function Condition(r: Recharge): string {
    if r.before.Some? && r.before.value != "" then r.before.value else r.after.GetOr("")
  }

  lemma {:induction false} PrefixedFromSound(m: LimitMatcher, s: string, c: nat)
    requires Acceptable(m) && c <= |s| && PrefixedFrom(m, s, c).Some?
    ensures var (k, n) := PrefixedFrom(m, s, c).value;
      && s[k] == ',' && s[k + 1] == ' ' && m(s[k + 2..]).Some? && m(s[k + 2..]).value == n
    decreases c
  {
    var here := if c + 2 <= |s| && s[c] == ',' && s[c + 1] == ' ' then m(s[c + 2..]) else None;
    if here.None? {
      PrefixedFromSound(m, s, c - 1);
    }
  }

  lemma {:induction false} FirstLineBreakBefore(s: string)
    ensures forall i :: 0 <= i < FirstLineBreak(s) ==> !IsLineTerminator(s[i])
  {
    if s != [] && !IsLineTerminator(s[0]) {
      FirstLineBreakBefore(s[1..]);
      forall i | 1 <= i < FirstLineBreak(s) ensures !IsLineTerminator(s[i]) {
        assert s[i] == s[1..][i - 1];
      }
    }
  }

  lemma LimitTailShape(t: string, n: nat)
    requires 0 < n <= |t| && SuffixOk(t, n)
    ensures t == t[..n] + (match After(t, n) case Some(a) => ", " + a case None => "")
  {
    if n + 2 <= |t| {
      assert t == t[..n] + ", " + t[n + 2..];
    }
  }

  lemma PrefixShape(g: string, c: nat, t: string)
    requires c + 2 <= |g| && g[c] == ',' && g[c + 1] == ' ' && t == g[c + 2..]
    ensures g == g[..c] + ", " + t
  {
    assert g == g[..c] + g[c..c + 2] + g[c + 2..];
  }

  /** The text after a limit ends the text the limit starts. */
  lemma LimitTail(t: string, n: nat)
    requires 0 < n <= |t| && SuffixOk(t, n)
    ensures var a := After(t, n);
      && t == t[..n] + (match a case Some(x) => ", " + x case None => "")
      && (a.Some? ==> a.value != [])
  {
    LimitTailShape(t, n);
  }

  lemma ReassembleOf(b: Option<string>, lim: string, a: Option<string>, g: string, t: string)
    requires b.Some? ==> g == b.value + ", " + t
    requires b.None? ==> g == t
    requires t == lim + (match a case Some(x) => ", " + x case None => "")
    ensures g == Reassemble(Recharge(b, lim, a))
  {
  }

  /** The groups put back together give the text; the limit and the text after it are never empty. */
  lemma RechargeWithReassembles(m: LimitMatcher, g: string)
    requires Acceptable(m) && RechargeWith(m, g).Some?
    ensures var r := RechargeWith(m, g).value;
      && g == Reassemble(r) && r.limit != []
      && (r.after.Some? ==> r.after.value != [])
      && (r.before.Some? ==> NoLineBreak(r.before.value))
  {
    var c0 := FirstLineBreak(g);
    if PrefixedFrom(m, g, c0).Some? {
      var (c, n) := PrefixedFrom(m, g, c0).value;
      PrefixedFromSound(m, g, c0);
      ReassemblePrefixed(g, c, n);
    } else {
      var n := m(g).value;
      LimitTail(g, n);
      ReassembleOf(None, g[..n], After(g, n), g, g);
    }
  }

  lemma ReassemblePrefixed(g: string, c: nat, n: nat)
    requires c + 2 <= |g| && g[c] == ',' && g[c + 1] == ' ' && c <= FirstLineBreak(g)
    requires 0 < n <= |g[c + 2..]| && SuffixOk(g[c + 2..], n)
    ensures var t := g[c + 2..];
      && g == Reassemble(Recharge(Some(g[..c]), t[..n], After(t, n)))
      && (After(t, n).Some? ==> After(t, n).value != [])
      && NoLineBreak(g[..c])
  {
    var t := g[c + 2..];
    LimitTail(t, n);
    PrefixShape(g, c, t);
    FirstLineBreakBefore(g);
    ReassembleOf(Some(g[..c]), t[..n], After(t, n), g, t);
  }

  /**
   * The groups put back together give the parenthesised text; the limit is never empty, the
   * text after it is never empty, and the condition before it has no line break.
   */
  lemma RechargeReassembles(g: string)
    requires RechargeParts(g).Some?
    ensures var r := RechargeParts(g).value;
      && g == Reassemble(r) && r.limit != []
      && (r.after.Some? ==> r.after.value != [])
      && (r.before.Some? ==> NoLineBreak(r.before.value))
  {
    LimitLenAcceptable();
    RechargeWithReassembles(LimitLen, g);
  }

  /** When no ", " starts anywhere after `lo` up to `c`, the search goes on at `lo`. */
  lemma {:induction false} PrefixedFromSkips(m: LimitMatcher, s: string, c: nat, lo: nat)
    requires Acceptable(m) && lo <= c <= |s|
    requires forall k :: lo < k <= c && k < |s| ==> s[k] != ','
    ensures PrefixedFrom(m, s, c) == PrefixedFrom(m, s, lo)
    decreases c
  {
    if c > lo {
      PrefixedFromSkips(m, s, c - 1, lo);
    }
  }

  lemma {:induction false} FirstLineBreakAtLeast(s: string, n: nat)
    requires n <= |s| && NoLineBreak(s[..n])
    ensures FirstLineBreak(s) >= n
    decreases n
  {
    if n > 0 {
      assert !IsLineTerminator(s[..n][0]);
      assert s[1..][..n - 1] == s[..n][1..];
      FirstLineBreakAtLeast(s[1..], n - 1);
    }
  }

  /** A text without a comma that `m` takes whole is the limit, with neither condition nor remainder. */
  lemma RechargeWithWhole(m: LimitMatcher, g: string)
    requires Acceptable(m) && ',' !in g && m(g).Some? && m(g).value == |g|
    ensures RechargeWith(m, g).Some? && RechargeWith(m, g).value == Recharge(None, g, None)
  {
    forall k | 0 < k <= FirstLineBreak(g) && k < |g| ensures g[k] != ',' {
      assert g[k] in g;
    }
    PrefixedFromSkips(m, g, FirstLineBreak(g), 0);
    assert g[0] in g;
    assert g[..|g|] == g;
  }

  lemma ConditionShape(cond: string, lt: string)
    ensures var g := cond + ", " + lt;
      && g[..|cond|] == cond && g[|cond|] == ',' && g[|cond| + 1] == ' ' && g[|cond| + 2..] == lt
      && |g| == |cond| + 2 + |lt|
      && forall k :: |cond| + 2 <= k < |g| ==> g[k] == lt[k - |cond| - 2]
  {
    var g := cond + ", " + lt;
    assert g[..|cond|] == cond;
    assert g[|cond| + 2..] == lt;
  }

  /** A condition, ", " and a comma-free limit that `m` takes whole: the condition is everything before the last ", ". */
  lemma RechargeWithCondition(m: LimitMatcher, cond: string, lt: string)
    requires Acceptable(m) && NoLineBreak(cond) && ',' !in lt && m(lt).Some? && m(lt).value == |lt|
    ensures var r := RechargeWith(m, cond + ", " + lt); r.Some? && r.value == Recharge(Some(cond), lt, None)
  {
    var g := cond + ", " + lt;
    var c := |cond|;
    ConditionShape(cond, lt);
    FirstLineBreakAtLeast(g, c);
    forall k | c < k <= FirstLineBreak(g) && k < |g| ensures g[k] != ',' {
      if k > c + 1 {
        assert g[k] in lt;
      }
    }
    PrefixedFromSkips(m, g, FirstLineBreak(g), c);
    assert PrefixedFrom(m, g, c) == Some((c, |lt|));
    assert g[c + 2..][..|lt|] == lt;
  }

  // ---------------------------------------------------------------------------------------------
  // The limits written out

  /** The limits as the monster data writes them. */
  datatype Limit =
    | PerPeriod(uses: nat, minutes: nat, period: Period)   // minutes: 0 none, 1 " minute", 2 " minutes"
    | RechargeOn(plural: bool, text: string)                // "Recharge 5–6", "Recharges after a Short or Long Rest"

  predicate ValidLimit(l: Limit) {
    match l
    case PerPeriod(uses, minutes, _) => uses < 10 && minutes <= 2
    case RechargeOn(_, text) => text != [] && ',' !in text && ')' !in text
  }

  function MinuteWord(m: nat): string {
    if m == 0 then "" else if m == 1 then " minute" else " minutes"
  }

  function LimitText(l: Limit): string
    requires ValidLimit(l)
  {
    match l
    case PerPeriod(uses, minutes, period) => [DigitChar(uses)] + MinuteWord(minutes) + "/" + PeriodWord(period)
    case RechargeOn(plural, text) => (if plural then "Recharges " else "Recharge ") + text
  }

  lemma FirstLetterDiffers(s: string, lit: string)
    requires s != [] && lit != [] && LowerAscii(s[0]) != LowerAscii(lit[0])
    ensures !StartsWithIgnoreCase(s, lit)
  {
  }

  lemma PeriodLenOf(p: Period)
    ensures PeriodLen(PeriodWord(p)) == |PeriodWord(p)|
  {
    var w := PeriodWord(p);
    assert StartsWithIgnoreCase(w, w);
    if p != Day {
      FirstLetterDiffers(w, "Day");
    }
    if p != Day && p != Turn {
      FirstLetterDiffers(w, "Turn");
    }
    if p != Day && p != Turn && p != Rest {
      FirstLetterDiffers(w, "Rest");
    }
    if p == Week || p == LongRest || p == ShortRest {
      FirstLetterDiffers(w, "Hour");
    }
    if p == LongRest || p == ShortRest {
      FirstLetterDiffers(w, "Week");
    }
    if p == ShortRest {
      FirstLetterDiffers(w, "Long Rest");
    }
  }

  lemma MinuteLenOf(m: nat, p: Period)
    requires m <= 2
    ensures MinuteLen(MinuteWord(m) + "/" + PeriodWord(p)) == |MinuteWord(m)|
  {
    var t := MinuteWord(m) + "/" + PeriodWord(p);
    if m == 0 {
      assert t[0] == '/';
    } else if m == 1 {
      assert t[..7] == " minute" && t[7] == '/';
    } else {
      assert t[..8] == " minutes";
    }
  }

  lemma PerPeriodShape(d: char, mw: string, w: string)
    ensures var t := [d] + mw + "/" + w;
      && t[0] == d && t[1..] == mw + "/" + w && t[1 + |mw|] == '/' && t[2 + |mw|..] == w
  {
    var t := [d] + mw + "/" + w;
    assert t[1..] == mw + "/" + w;
    assert t[2 + |mw|..] == w;
  }

  lemma PerPeriodLenOf(uses: nat, m: nat, p: Period)
    requires uses < 10 && m <= 2
    ensures var t := [DigitChar(uses)] + MinuteWord(m) + "/" + PeriodWord(p);
      PerPeriodLen(t) == |t|
  {
    PerPeriodShape(DigitChar(uses), MinuteWord(m), PeriodWord(p));
    MinuteLenOf(m, p);
    PeriodLenOf(p);
  }

  lemma {:induction false} FieldRunOf(text: string)
    requires ',' !in text && ')' !in text
    ensures FieldRun(text) == |text|
  {
    if text != [] {
      assert text[0] in text;
      assert forall c :: c in text[1..] ==> c in text;
      FieldRunOf(text[1..]);
    }
  }

  lemma RechargeWordShape(word: string, text: string)
    requires |word| >= 9
    ensures var t := word + text;
      && t[..|word|] == word && t[|word|..] == text && forall i :: |word| <= i < |t| ==> t[i] == text[i - |word|]
  {
  }

  /** A written-out "Recharge …" limit is found whole; any shorter alternative leaves a remainder that is not ", …". */
  lemma RechargeOnLen(plural: bool, text: string)
    requires text != [] && ',' !in text && ')' !in text
    ensures var t := (if plural then "Recharges " else "Recharge ") + text;
      LimitLen(t).Some? && LimitLen(t).value == |t|
  {
    var word := if plural then "Recharges " else "Recharge ";
    var t := word + text;
    RechargeWordShape(word, text);
    assert t[0] == 'R';
    assert PerPeriodLen(t) == 0;
    FieldRunOf(text);
    forall i | |word| <= i < |t| ensures t[i] != ',' {
      assert t[i] in text;
    }
    if plural {
      assert t[8] == 's' && t[9] == ' ';
      assert !StartsWithIgnoreCase(t, "Recharge ");
      assert StartsWithIgnoreCase(t, "Recharge");
      assert t[10..] == text;
    } else {
      assert t[8] == ' ';
      assert StartsWithIgnoreCase(t, "Recharge");
      assert t[9..] == text;
    }
  }

  lemma LimitLenOf(l: Limit)
    requires ValidLimit(l)
    ensures LimitLen(LimitText(l)).Some? && LimitLen(LimitText(l)).value == |LimitText(l)|
  {
    match l
    case PerPeriod(uses, m, p) => PerPeriodLenOf(uses, m, p);
    case RechargeOn(plural, text) => RechargeOnLen(plural, text);
  }

  lemma MinuteWordHasNoComma(m: nat)
    ensures ',' !in MinuteWord(m) && ')' !in MinuteWord(m)
  {
  }

  lemma PeriodWordHasNoComma(p: Period)
    ensures ',' !in PeriodWord(p) && ')' !in PeriodWord(p)
  {
    match p
    case Day =>
    case Turn =>
    case Rest =>
    case Hour =>
    case Week =>
    case LongRest =>
    case ShortRest =>
  }

  lemma LimitHasNoComma(l: Limit)
    requires ValidLimit(l)
    ensures ',' !in LimitText(l) && ')' !in LimitText(l) && LimitText(l)[0] != ','
  {
    match l
    case PerPeriod(uses, m, p) =>
      MinuteWordHasNoComma(m);
      PeriodWordHasNoComma(p);
      var d := [DigitChar(uses)];
      assert ',' !in d && ')' !in d;
      assert LimitText(l)[0] == DigitChar(uses);
    case RechargeOn(plural, text) =>
  }

  /** A written-out limit on its own is the limit, with neither condition nor remainder. */
  lemma RechargeOfLimit(l: Limit)
    requires ValidLimit(l)
    ensures RechargeParts(LimitText(l)).Some? && RechargeParts(LimitText(l)).value == Recharge(None, LimitText(l), None)
  {
    LimitHasNoComma(l);
    LimitLenOf(l);
    LimitLenAcceptable();
    RechargeWithWhole(LimitLen, LimitText(l));
  }

  /** A condition, ", " and a written-out limit: the condition is everything before the last ", ". */
  lemma RechargeOfConditionAndLimit(cond: string, l: Limit)
    requires ValidLimit(l) && NoLineBreak(cond)
    ensures var r := RechargeParts(cond + ", " + LimitText(l)); r.Some? && r.value == Recharge(Some(cond), LimitText(l), None)
  {
    LimitHasNoComma(l);
    LimitLenOf(l);
    LimitLenAcceptable();
    RechargeWithCondition(LimitLen, cond, LimitText(l));
  }

  // ---------------------------------------------------------------------------------------------
  // makeTraitAction

  /** A trait or action's name, and the limit taken out of it. */
  datatype TraitName = TraitName(name: string, recharge: Option<string>)

  /**
   * `makeTraitAction`: a name whose parentheses hold a limit loses the parentheses, keeps the
   * condition that came with the limit, and reports the limit; any other name is kept whole.
   */
  function MakeTraitAction(name: string): TraitName {
    match SplitName(name)
    case Some(NameParts(base, Some(inner))) =>
      (match RechargeParts(inner)
       case Some(r) => WithLimit(base, r)
       case None => TraitName(name, None))
    case _ => TraitName(name, None)
  }

  /** The name without its parentheses, with the condition (if any) in new parentheses. */
  function WithLimit(base: string, r: Recharge): TraitName {
    var cond := Condition(r);
    TraitName(Trim(base) + (if cond == "" then "" else " (" + cond + ")"), Some(r.limit))
  }

  lemma MakeTraitActionOfParts(name: string, base: string, inner: string)
    requires SplitName(name).Some? && SplitName(name).value.base == base
    requires SplitName(name).value.inner.Some? && SplitName(name).value.inner.value == inner
    requires RechargeParts(inner).Some?
    ensures MakeTraitAction(name) == WithLimit(base, RechargeParts(inner).value)
  {
  }

  /** A name without parentheses is kept whole, with no limit. */
  lemma MakeTraitActionPlain(name: string)
    requires '(' !in name
    ensures MakeTraitAction(name) == TraitName(name, None)
  {
    if name != [] {
      SplitNamePlain(name);
    }
  }

  /** "Breath Weapon (Recharge 5–6)": the limit leaves the name, which is trimmed. */
  lemma MakeTraitActionLimit(base: string, l: Limit, rest: string)
    requires base != [] && base[0] != '(' && '(' !in base && ValidLimit(l)
    ensures var r := MakeTraitAction(base + "(" + LimitText(l) + ")" + rest);
      r.name == Trim(base) && r.recharge == Some(LimitText(l))
  {
    var name := base + "(" + LimitText(l) + ")" + rest;
    LimitHasNoComma(l);
    SplitNameOf(base, LimitText(l), rest);
    RechargeOfLimit(l);
    MakeTraitActionOfParts(name, base, LimitText(l));
  }

  /** A name of the form "base(inner)rest" goes through the recharge pattern with `inner`. */
  lemma MakeTraitActionOfInner(base: string, inner: string, rest: string)
    requires base != [] && base[0] != '(' && '(' !in base
    requires inner != [] && ')' !in inner && RechargeParts(inner).Some?
    ensures MakeTraitAction(base + "(" + inner + ")" + rest) == WithLimit(base, RechargeParts(inner).value)
  {
    SplitNameOf(base, inner, rest);
    MakeTraitActionOfParts(base + "(" + inner + ")" + rest, base, inner);
  }

  /** "Shapechanger (Humanoid Form Only, 1/Day)": the condition stays in the name, in parentheses. */
  lemma MakeTraitActionConditional(base: string, cond: string, l: Limit, rest: string)
    requires base != [] && base[0] != '(' && '(' !in base && ValidLimit(l)
    requires cond != [] && NoLineBreak(cond) && ')' !in cond
    ensures var r := MakeTraitAction(base + "(" + (cond + ", " + LimitText(l)) + ")" + rest);
      r.name == Trim(base) + (" (" + cond + ")") && r.recharge == Some(LimitText(l))
  {
    var inner := cond + ", " + LimitText(l);
    LimitHasNoComma(l);
    assert ')' !in inner;
    RechargeOfConditionAndLimit(cond, l);
    MakeTraitActionOfInner(base, inner, rest);
  }

  /** Whenever a limit is found, it is the limit group of the name's parenthesised text. */
  lemma MakeTraitActionSound(name: string)
    requires MakeTraitAction(name).recharge.Some?
    ensures var p := SplitName(name);
      && p.Some? && p.value.inner.Some? && RechargeParts(p.value.inner.value).Some?
      && MakeTraitAction(name).recharge.value == RechargeParts(p.value.inner.value).value.limit
      && p.value.inner.value == Reassemble(RechargeParts(p.value.inner.value).value)
  {
    var p := SplitName(name);
    RechargeReassembles(p.value.inner.value);
  }

  // ---------------------------------------------------------------------------------------------
  // Legendary action costs

  /** The groups of the legendary-action name pattern: the name, the cost ("2" or "2–3") and a note. */
  datatype CostParts = CostParts(base: string, cost: string, note: Option<string>)

  /**
   * The cost in parentheses after a legendary action's name, at the front of `u` (just after the
   * "("): an optional "Costs ", then the cost and what follows it.
   */
  function CostAt(u: string): Option<(string, Option<string>)> {
    if 6 <= |u| && u[..6] == "Costs " then CostFrom(u[6..]) else CostFrom(u)
  }

  /** A digit, optionally a dash and a digit, then " actions" and the end of the parentheses. */
  function CostFrom(v: string): Option<(string, Option<string>)> {
    if v != [] && IsDigit(v[0]) then
      var b := if 2 < |v| && (v[1] == '-' || v[1] == EnDash) && IsDigit(v[2]) then 3 else 1;
      match ActionsNote(v[b..])
      case Some(note) => Some((v[..b], note))
      case None => None
    else None
  }

  /** " actions" (first letter in either case), then ")" or ", " with a note and ")". */
  function ActionsNote(w: string): Option<Option<string>> {
    if 8 <= |w| && w[0] == ' ' && (w[1] == 'a' || w[1] == 'A') && w[2..8] == "ctions" then Close(w[8..]) else None
  }

  /** ")" at once, or ", ", a non-empty note without ")", and ")". */
  function Close(x: string): (r: Option<Option<string>>)
    ensures r.Some? && r.value.Some? ==> r.value.value != [] && ')' !in r.value.value
  {
    if x != [] && x[0] == ')' then Some(None)
    else if 2 <= |x| && x[0] == ',' && x[1] == ' ' then
      var m := IndexOf(x[2..], ')');
      IndexOfBefore(x[2..], ')');
      if 0 < m < |x| - 2 then Some(Some(x[2..][..m])) else None
    else None
  }

  /**
   * The name split as the legendary-action pattern splits it. The optional white space the
   * pattern allows before "(" is never used: the name group, which runs greedily up to "(",
   * already holds it.
   */
  function LegendaryParts(name: string): Option<CostParts> {
    var i := SkipChar(name, '(');
    if i == |name| then None
    else
      var t := name[i..];
      var k := IndexOf(t, '(');
      if k == |t| then None
      else
        match CostAt(t[k + 1..])
        case Some((cost, note)) => Some(CostParts(t[..k], cost, note))
        case None => None
  }

  lemma CostFromShape(v: string)
    requires CostFrom(v).Some?
    ensures var cost := CostFrom(v).value.0;
      && (|cost| == 1 || |cost| == 3) && IsDigit(cost[0])
      && (|cost| == 3 ==> (cost[1] == '-' || cost[1] == EnDash) && IsDigit(cost[2]))
      && (CostFrom(v).value.1.Some? ==> CostFrom(v).value.1.value != [] && ')' !in CostFrom(v).value.1.value)
  {
  }

  /** The cost group is one digit, or a digit, a dash and a digit. A note is never empty. */
  lemma CostAtShape(u: string)
    requires CostAt(u).Some?
    ensures var cost := CostAt(u).value.0;
      && (|cost| == 1 || |cost| == 3) && IsDigit(cost[0])
      && (|cost| == 3 ==> (cost[1] == '-' || cost[1] == EnDash) && IsDigit(cost[2]))
      && (CostAt(u).value.1.Some? ==> CostAt(u).value.1.value != [] && ')' !in CostAt(u).value.1.value)
  {
    var v := if 6 <= |u| && u[..6] == "Costs " then u[6..] else u;
    CostFromShape(v);
  }

  /** `parseInt` reads only the first digit of a cost group: a cost is never more than 9. */
  lemma CostValue(cost: string)
    requires (|cost| == 1 || |cost| == 3) && IsDigit(cost[0])
    requires |cost| == 3 ==> (cost[1] == '-' || cost[1] == EnDash)
    ensures ParseInt(cost).Some? && ParseInt(cost).value == DigitValue(cost[0]) <= 9
  {
    ParseIntOfDigitStart(cost);
    LeadingNumberOneDigit(cost);
  }

  /** A cost that is found is one digit, or a digit range, and parses to its first digit. */
  lemma LegendaryPartsCost(name: string)
    requires LegendaryParts(name).Some?
    ensures ParseInt(LegendaryParts(name).value.cost).Some?
    ensures 0 <= ParseInt(LegendaryParts(name).value.cost).value <= 9
  {
    var i := SkipChar(name, '(');
    var t := name[i..];
    var k := IndexOf(t, '(');
    CostAtShape(t[k + 1..]);
    CostValue(CostAt(t[k + 1..]).value.0);
  }

  /** A name without "(" has no cost. */
  lemma LegendaryPartsWithoutParen(name: string)
    requires '(' !in name
    ensures LegendaryParts(name).None?
  {
    var i := SkipChar(name, '(');
    if i < |name| {
      var t := name[i..];
      IndexOfAt(t, '(', |t|);
    }
  }

  /** The text in parentheses after a legendary action's name, written out. */
  function CostText(costs: bool, uses: nat, upTo: Option<(char, nat)>, cap: bool, note: Option<string>): string
    requires uses < 10 && (upTo.Some? ==> upTo.value.1 < 10)
  {
    (if costs then "Costs " else "")
    + CostDigits(uses, upTo)
    + (if cap then " Actions" else " actions")
    + NoteText(note)
  }

  function CostDigits(uses: nat, upTo: Option<(char, nat)>): string
    requires uses < 10 && (upTo.Some? ==> upTo.value.1 < 10)
  {
    [DigitChar(uses)] + (match upTo case Some((dash, n)) => [dash, DigitChar(n)] case None => "")
  }

  function NoteText(note: Option<string>): string {
    (match note case Some(x) => ", " + x case None => "") + ")"
  }

  lemma CloseOf(note: Option<string>, rest: string)
    requires note.Some? ==> note.value != [] && ')' !in note.value
    ensures Close(NoteText(note) + rest).Some? && Close(NoteText(note) + rest).value == note
  {
    var x := NoteText(note) + rest;
    match note
    case None =>
      assert x[0] == ')';
    case Some(n) =>
      assert x[0] == ',' && x[1] == ' ' && x[2..] == n + ")" + rest;
      assert (n + ")" + rest)[..|n|] == n;
      IndexOfAt(x[2..], ')', |n|);
  }

  lemma ActionsNoteOf(cap: bool, note: Option<string>, rest: string)
    requires note.Some? ==> note.value != [] && ')' !in note.value
    ensures var r := ActionsNote((if cap then " Actions" else " actions") + NoteText(note) + rest); r.Some? && r.value == note
  {
    var w := (if cap then " Actions" else " actions") + NoteText(note) + rest;
    assert w[2..8] == "ctions";
    assert w[8..] == NoteText(note) + rest;
    CloseOf(note, rest);
  }

  lemma CostFromOf(uses: nat, upTo: Option<(char, nat)>, tail: string)
    requires uses < 10 && (upTo.Some? ==> upTo.value.1 < 10 && (upTo.value.0 == '-' || upTo.value.0 == EnDash))
    requires tail != [] && tail[0] == ' '
    ensures var d := CostDigits(uses, upTo);
      var r := CostFrom(d + tail);
      ActionsNote(tail).Some? ==> r.Some? && r.value.0 == d && r.value.1 == ActionsNote(tail).value
  {
    var d := CostDigits(uses, upTo);
    var v := d + tail;
    assert v[..|d|] == d && v[|d|..] == tail;
    assert v[0] == DigitChar(uses);
    if upTo.None? {
      assert v[1] == ' ';
    }
  }

  /** A cost written out is read back: its digits and its note. */
  lemma CostAtOf(costs: bool, uses: nat, upTo: Option<(char, nat)>, cap: bool, note: Option<string>, rest: string)
    requires uses < 10 && (upTo.Some? ==> upTo.value.1 < 10 && (upTo.value.0 == '-' || upTo.value.0 == EnDash))
    requires note.Some? ==> note.value != [] && ')' !in note.value
    ensures var r := CostAt(CostText(costs, uses, upTo, cap, note) + rest);
      r.Some? && r.value.0 == CostDigits(uses, upTo) && r.value.1 == note
  {
    var d := CostDigits(uses, upTo);
    var tail := (if cap then " Actions" else " actions") + NoteText(note) + rest;
    ActionsNoteOf(cap, note, rest);
    CostTextSplit(costs, uses, upTo, cap, note, rest);
    if costs {
      CostAtOfCosts(uses, upTo, tail);
    } else {
      CostAtOfBare(uses, upTo, tail);
    }
  }

  lemma CostTextSplit(costs: bool, uses: nat, upTo: Option<(char, nat)>, cap: bool, note: Option<string>, rest: string)
    requires uses < 10 && (upTo.Some? ==> upTo.value.1 < 10)
    ensures var tail := (if cap then " Actions" else " actions") + NoteText(note) + rest;
      && (costs ==> CostText(costs, uses, upTo, cap, note) + rest == "Costs " + (CostDigits(uses, upTo) + tail))
      && (!costs ==> CostText(costs, uses, upTo, cap, note) + rest == CostDigits(uses, upTo) + tail)
  {
  }

  lemma CostAtOfCosts(uses: nat, upTo: Option<(char, nat)>, tail: string)
    requires uses < 10 && (upTo.Some? ==> upTo.value.1 < 10 && (upTo.value.0 == '-' || upTo.value.0 == EnDash))
    requires tail != [] && tail[0] == ' ' && ActionsNote(tail).Some?
    ensures var r := CostAt("Costs " + (CostDigits(uses, upTo) + tail));
      r.Some? && r.value.0 == CostDigits(uses, upTo) && r.value.1 == ActionsNote(tail).value
  {
    var v := CostDigits(uses, upTo) + tail;
    CostFromOf(uses, upTo, tail);
    var u := "Costs " + v;
    assert u[..6] == "Costs " && u[6..] == v;
  }

  lemma CostAtOfBare(uses: nat, upTo: Option<(char, nat)>, tail: string)
    requires uses < 10 && (upTo.Some? ==> upTo.value.1 < 10 && (upTo.value.0 == '-' || upTo.value.0 == EnDash))
    requires tail != [] && tail[0] == ' ' && ActionsNote(tail).Some?
    ensures var r := CostAt(CostDigits(uses, upTo) + tail);
      r.Some? && r.value.0 == CostDigits(uses, upTo) && r.value.1 == ActionsNote(tail).value
  {
    var v := CostDigits(uses, upTo) + tail;
    CostFromOf(uses, upTo, tail);
    assert v[0] == DigitChar(uses);
  }

  /** "Wing Attack (Costs 2 Actions)": the name before the parentheses, the cost, and the note. */
  lemma LegendaryPartsOf(base: string, costs: bool, uses: nat, upTo: Option<(char, nat)>, cap: bool, note: Option<string>, rest: string)
    requires base != [] && base[0] != '(' && '(' !in base
    requires uses < 10 && (upTo.Some? ==> upTo.value.1 < 10 && (upTo.value.0 == '-' || upTo.value.0 == EnDash))
    requires note.Some? ==> note.value != [] && ')' !in note.value
    ensures var r := LegendaryParts(base + "(" + CostText(costs, uses, upTo, cap, note) + rest);
      && r.Some? && r.value.base == base && r.value.note == note
      && ParseInt(r.value.cost) == Some(uses)
  {
    var ct := CostText(costs, uses, upTo, cap, note) + rest;
    var name := base + "(" + ct;
    assert name[0] == base[0];
    assert SkipChar(name, '(') == 0;
    assert name[0..] == name;
    assert name[..|base|] == base && name[|base|] == '(' && name[|base| + 1..] == ct;
    IndexOfAt(name, '(', |base|);
    assert base + "(" + CostText(costs, uses, upTo, cap, note) + rest == name;
    CostAtOf(costs, uses, upTo, cap, note, rest);
    var d := CostDigits(uses, upTo);
    assert d[0] == DigitChar(uses);
    CostValue(d);
  }
}
